/** One controller reconciling an AgentRun while other controllers and the user act on the same object. */
module Reconciler {
  import opened Basics
  import opened Protocol
  import opened AgentRuns

  datatype Loaded = Bound(job: Job) | Mismatch | Failed

  datatype Search = Hit(found: Found) | Miss | Unanswered

  datatype Examined = Unknown | Bad | Active(job: Job) | Ended(accepted: Accepted)

  datatype StepRead = Read(pod: Pod, result: StepResult) | Ambiguous | Unread

  /** What the API server answers during one pass that nothing disturbs: the Jobs listed for an action
      before and after creating one, a Job read by name, the Pods of an action, and whether creating works. */
  datatype Cluster = Cluster(
    jobs: string -> Option<seq<Job>>, after: string -> Option<seq<Job>>, named: string -> Option<Option<Job>>,
    pods: string -> Option<seq<Pod>>, creates: bool)

  /** The answers of `k` are among those that the API server gives. */
  ghost predicate Honest(c: Config, k: Cluster)
  {
    && (forall action :: k.jobs(action).Some? ==> c.shown(Jobs(action, k.jobs(action).value)))
    && (forall action :: k.after(action).Some? ==> c.shown(Jobs(action, k.after(action).value)))
    && (forall name :: k.named(name).Some? ==> c.shown(Named(name, k.named(name).value)))
    && (forall action :: k.pods(action).Some? ==> c.shown(Pods(action, k.pods(action).value)))
  }

  predicate Buildable(c: Config, approval: string, action: string)
  {
    c.buildable && c.specOk(approval) && c.specSha.Some? && (action == RESUME ==> IsSha256(approval))
  }

  /** The cluster shows, or will show after a create, exactly the expected Job of an action and no foreign Pod. */
  predicate Shows(c: Config, approval: string, k: Cluster, action: string, f: Found)
  {
    && Buildable(c, approval, action) && ValidJob(c, approval, f.job, action) && IsUid(f.job.uid)
    && k.jobs(action).Some? && |k.jobs(action).value| <= 1 && (|k.jobs(action).value| == 0 ==> k.creates)
    && k.after(action) == Some([f.listed]) && f.listed.name == c.name(action) && f.listed.uid == f.job.uid
    && k.named(c.name(action)) == Some(Some(f.job))
    && k.pods(action) == Some(f.pods) && OnlyOwned(f.pods, f.job)
  }

  /** The cluster shows exactly the bound Job and no foreign Pod. */
  predicate ShowsHeld(c: Config, approval: string, ref: Option<JobRef>, k: Cluster, action: string, h: Held)
  {
    && k.jobs(action) == Some([h.job]) && ref.Some? && Binds(ref.value, h.job, action)
    && ValidJob(c, approval, h.job, action) && k.pods(action) == Some(h.pods) && OnlyOwned(h.pods, h.job)
  }

  /** The only Pod of the Job ended with the valid message `result`. */
  predicate Reports(c: Config, k: Cluster, action: string, job: Job, result: StepResult)
  {
    && c.specSha.Some? && k.pods(action).Some? && |k.pods(action).value| == 1
    && var pod := k.pods(action).value[0];
       && Owned(pod, job) && pod.message != "" && Parse(c.unescape, pod.message) == Some(result)
       && ValidFor(result, c.uid, action, c.specSha.value)
  }

  /** Some answer about an action is missing. */
  predicate Silent(c: Config, k: Cluster, action: string)
  {
    || k.jobs(action).None? || k.pods(action).None? || k.after(action).None? || k.named(c.name(action)).None?
    || (k.jobs(action) == Some([]) && !k.creates)
  }

  // ---------------------------------------------------------------- what an undisturbed pass stores

  /** The Job of `action` is bound if the cluster shows exactly it; otherwise the run is blocked. */
  ghost predicate Ensured(
    c: Config, approval: string, k: Cluster, action: string, was: Status, phase: Phase, s: Status)
  {
    && (forall f :: Shows(c, approval, k, action, f) ==>
          s == was.(phase := phase, job := Some(JobRef(f.job.name, f.job.uid, action))))
    && ((forall f :: !Shows(c, approval, k, action, f)) ==> s == was.(phase := Blocked))
  }

  /** Where a reported result takes the status `was`. */
  ghost predicate Advances(
    c: Config, approval: string, k: Cluster, action: string, result: StepResult, was: Status, s: Status)
  {
    if action == START && result.outcome == AWAITING then
      s == was.(phase := AwaitingApproval, runId := result.runId, decision := result.decision, bundle := "")
    else if action == START && result.outcome == COMPLETED then
      Ensured(c, approval, k, VERIFY, was.(runId := result.runId, bundle := result.bundle), Verifying, s)
    else if action == RESUME && result.outcome == COMPLETED && result.decision == approval &&
        result.runId == was.runId then
      Ensured(c, approval, k, VERIFY, was.(bundle := result.bundle), Verifying, s)
    else if action == VERIFY && result.outcome == VERIFIED && result.runId == was.runId &&
        result.bundle == was.bundle then
      s == was.(phase := Succeeded)
    else s == was.(phase := Blocked)
  }

  /** A held Job that failed or ended without a valid report blocks; a running one changes nothing. */
  ghost predicate Concluded(c: Config, approval: string, k: Cluster, action: string, job: Job, was: Status, s: Status)
  {
    if job.failed then s == was.(phase := Blocked)
    else if !job.complete then s == was
    else
      && (forall result :: Reports(c, k, action, job, result) ==> Advances(c, approval, k, action, result, was, s))
      && ((forall result :: !Reports(c, k, action, job, result)) ==> s == was.(phase := Blocked))
  }

  /** What one pass makes of an active Job: anything but the bound Job with its own Pod blocks. */
  ghost predicate ActiveOutcome(c: Config, approval: string, k: Cluster, was: Status, s: Status)
    requires was.job.Some?
  {
    var action := was.job.value.action;
    if !ValidAction(action) then s == was.(phase := Blocked)
    else
      && (forall h :: ShowsHeld(c, approval, was.job, k, action, h) ==>
            Concluded(c, approval, k, action, h.job, was, s))
      && ((forall h :: !ShowsHeld(c, approval, was.job, k, action, h)) ==> s == was.(phase := Blocked))
  }

  /** No approval waits, a wrong one blocks, the published one binds the resume Job. */
  ghost predicate ApprovalOutcome(c: Config, approval: string, k: Cluster, was: Status, s: Status)
  {
    && (forall h :: ShowsHeld(c, approval, was.job, k, START, h) ==>
          if approval == "" then s == was
          else if approval != was.decision then s == was.(phase := Blocked)
          else Ensured(c, approval, k, RESUME, was, Running, s))
    && ((forall h :: !ShowsHeld(c, approval, was.job, k, START, h)) ==> s == was.(phase := Blocked))
  }

  predicate Refused(c: Config, o: AgentRun)
  {
    || c.specSha.None? || !c.specOk(o.approval)
    || (o.status.specSha != "" && Some(o.status.specSha) != c.specSha)
    || ((o.status.phase == NoPhase || o.status.phase == Pending) && o.status.job.None? && o.approval != "")
    || (o.status.phase == Succeeded && o.approval != o.status.decision)
  }

  /** What one undisturbed pass makes of the stored object `o`. */
  ghost predicate Outcome(c: Config, o: AgentRun, k: Cluster, s: Status)
  {
    if Refused(c, o) then s == o.status.(specSha := s.specSha, phase := Blocked)
    else
      var was := o.status.(specSha := c.specSha.value);
      if was.phase == Blocked || was.phase == Succeeded then s == was
      else if was.phase == AwaitingApproval then ApprovalOutcome(c, o.approval, k, was, s)
      else if was.job.None? then Ensured(c, o.approval, k, START, was, Running, s)
      else ActiveOutcome(c, o.approval, k, was, s)
  }

  class Manager {
    const config: Config
    var cluster: Cluster
    /** Nothing disturbs the current pass: no other update, no lost write, and the answers are those of `cluster`. */
    var calm: bool
    var api: AgentRun
    var run: AgentRun
    var snapshot: Status
    ghost var read: AgentRun
    ghost var trace: seq<AgentRun>
    ghost var updates: nat

    ghost predicate Good()
      reads this
    {
      trace != [] && Run(config, trace) && trace[|trace| - 1] == api && Honest(config, cluster)
    }

    /** `run` is a copy of the stored object `read`, with a changed status that keeps its bound Job. */
    ghost predicate Reading()
      reads this
    {
      && Good() && (calm ==> api == read)
      && read.version < |trace| && trace[read.version] == read
      && run == read.(status := run.status) && snapshot == read.status
      && (run.status.specSha == read.status.specSha || Some(run.status.specSha) == config.specSha)
    }

    /** Undisturbed, the candidate status is stored, or an error is returned and nothing is stored. */
    ghost predicate Done(ok: bool)
      reads this
    {
      calm ==> if ok then api.status == run.status else api == read
    }

    constructor (c: Config, k: Cluster, o: AgentRun, ghost past: seq<AgentRun>)
      requires past != [] && Run(c, past) && past[|past| - 1] == o && Honest(c, k)
      ensures Good() && config == c && cluster == k && api == o && trace == past && updates == 0
    {
      config, cluster, calm, api, run, snapshot, read, trace, updates := c, k, true, o, o, o.status, o, past, 0;
    }

    ghost method Record(o: AgentRun)
      requires trace != [] && Run(config, trace) && Next(config, trace[|trace| - 1], o)
      modifies this`trace
      ensures trace == old(trace) + [o] && Run(config, trace)
    {
      hide Next, Init;
      var longer := trace + [o];
      forall k | 0 <= k < |longer| - 1 ensures Next(config, longer[k], longer[k + 1]) {
        assert k + 1 < |trace| ==> Next(config, trace[k], trace[k + 1]);
      }
      trace := longer;
    }

    /** Any number of updates by other controllers, and the user's approval. */
    method Others()
      requires Good()
      modifies this`api, this`trace
      ensures Good() && old(trace) <= trace && (old(Reading()) ==> Reading()) && (calm ==> api == old(api))
    {
      hide Run, Does, Honest;
      var n: int := *;
      for k := 0 to if n < 0 || calm then 0 else n
        invariant Good() && old(trace) <= trace && (calm ==> api == old(api))
      {
        var s: Status, e: Evidence, d: string, approves: bool := *, *, *, *;
        var act := if approves then Approve(d) else Accept(s, e);
        var o := if approves then api.(approval := d, version := api.version + 1) else Updated(api, s, e);
        if Does(config, api, act, o) {
          assert Next(config, api, o);
          Record(o);
          api := o;
        }
      }
    }

    /** `persistStatus`: the update is accepted only on the very object that was read; its answer may be lost. */
    method PersistStatus(e: Evidence) returns (ok: bool)
      requires Reading() && (run.status == snapshot || Update(config, read, run.status, e))
      modifies this`api, this`trace, this`updates
      ensures Good() && old(trace) <= trace && updates <= old(updates) + 1
      ensures calm ==> ok && api.status == run.status
    {
      hide Run, Update, Next, Honest;
      if run.status == snapshot {
        return true;
      }
      var lost: bool := *;
      Others();
      if lost && !calm {
        return false;
      }
      if api.version != run.version {
        return true;
      }
      SameVersion(config, trace, read.version);
      AcceptIsNext(config, api, run.status, e);
      Record(Updated(api, run.status, e));
      var unheard: bool := *;
      api, updates, ok := Updated(api, run.status, e), updates + 1, calm || !unheard;
    }

    /** `block` */
    method Block() returns (ok: bool)
      requires Reading() && run.status.job == read.status.job
      modifies this`api, this`trace, this`updates, this`run
      ensures Good() && old(trace) <= trace && updates <= old(updates) + 1
      ensures run == old(run).(status := old(run.status).(phase := Blocked))
      ensures calm ==> ok && api.status == run.status
    {
      hide Run, Honest;
      run := run.(status := run.status.(phase := Blocked));
      ok := PersistStatus(NO_EVIDENCE);
    }

    // ---------------------------------------------------------------- observations

    /** Lists and reads of Jobs and Pods may fail; an answer is one that the API server gives. */
    method ListJobs(action: string) returns (r: Option<seq<Job>>)
      requires Good()
      modifies this`api, this`trace
      ensures Good() && old(trace) <= trace && (old(Reading()) ==> Reading()) && (calm ==> api == old(api))
      ensures (r.Some? ==> config.shown(Jobs(action, r.value))) && (calm ==> r == cluster.jobs(action))
    {
      Others();
      r := *;
      if calm {
        r := cluster.jobs(action);
      } else if r.Some? && !config.shown(Jobs(action, r.value)) {
        r := None;
      }
    }

    method ListJobsAfter(action: string) returns (r: Option<seq<Job>>)
      requires Good()
      modifies this`api, this`trace
      ensures Good() && old(trace) <= trace && (old(Reading()) ==> Reading()) && (calm ==> api == old(api))
      ensures (r.Some? ==> config.shown(Jobs(action, r.value))) && (calm ==> r == cluster.after(action))
    {
      Others();
      r := *;
      if calm {
        r := cluster.after(action);
      } else if r.Some? && !config.shown(Jobs(action, r.value)) {
        r := None;
      }
    }

    method GetJob(name: string) returns (r: Option<Option<Job>>)
      requires Good()
      modifies this`api, this`trace
      ensures Good() && old(trace) <= trace && (old(Reading()) ==> Reading()) && (calm ==> api == old(api))
      ensures (r.Some? ==> config.shown(Named(name, r.value))) && (calm ==> r == cluster.named(name))
    {
      Others();
      r := *;
      if calm {
        r := cluster.named(name);
      } else if r.Some? && !config.shown(Named(name, r.value)) {
        r := None;
      }
    }

    method ListPods(action: string) returns (r: Option<seq<Pod>>)
      requires Good()
      modifies this`api, this`trace
      ensures Good() && old(trace) <= trace && (old(Reading()) ==> Reading()) && (calm ==> api == old(api))
      ensures (r.Some? ==> config.shown(Pods(action, r.value))) && (calm ==> r == cluster.pods(action))
    {
      Others();
      r := *;
      if calm {
        r := cluster.pods(action);
      } else if r.Some? && !config.shown(Pods(action, r.value)) {
        r := None;
      }
    }

    method Create() returns (ok: bool)
      requires Good()
      modifies this`api, this`trace
      ensures Good() && old(trace) <= trace && (old(Reading()) ==> Reading()) && (calm ==> api == old(api))
      ensures calm ==> ok == cluster.creates
    {
      Others();
      ok := *;
      if calm {
        ok := cluster.creates;
      }
    }

    /** `auditBoundPodSet`: the Pods listed for the action, and whether none is foreign and none a second one. */
    method AuditPods(job: Job, action: string) returns (pods: Option<seq<Pod>>, fine: bool)
      requires Good()
      modifies this`api, this`trace
      ensures Good() && old(trace) <= trace && (old(Reading()) ==> Reading()) && (calm ==> api == old(api))
      ensures (pods.Some? ==> config.shown(Pods(action, pods.value))) && (calm ==> pods == cluster.pods(action))
      ensures fine <==> pods.Some? && OnlyOwned(pods.value, job)
    {
      hide Run, Honest;
      pods := ListPods(action);
      fine := pods.Some? && !(|pods.value| > 1 || (|pods.value| == 1 && !Owned(pods.value[0], job)));
    }

    /** `loadBoundJob`: the only Job of the action, if it is the bound one and matches the template. */
    method LoadBoundJob(action: string) returns (r: Loaded)
      requires Good()
      modifies this`api, this`trace
      ensures Good() && old(trace) <= trace && (old(Reading()) ==> Reading()) && (calm ==> api == old(api))
      ensures r.Bound? ==>
        && run.status.job.Some? && Binds(run.status.job.value, r.job, action)
        && ValidJob(config, run.approval, r.job, action) && config.shown(Jobs(action, [r.job]))
      ensures calm ==>
        (r.Failed? <==> cluster.jobs(action).None?) && (r.Bound? ==> cluster.jobs(action) == Some([r.job]))
      ensures calm && r.Mismatch? ==> forall h :: !ShowsHeld(config, run.approval, run.status.job, cluster, action, h)
    {
      hide Run, ValidJob, Honest;
      var jobs := ListJobs(action);
      if jobs.None? {
        return Failed;
      }
      if |jobs.value| != 1 {
        return Mismatch;
      }
      var job := jobs.value[0];
      assert jobs.value == [job];
      if run.status.job.None? || !Binds(run.status.job.value, job, action) ||
          !ValidJob(config, run.approval, job, action) {
        return Mismatch;
      }
      r := Bound(job);
    }

    /** `loadBoundJob` and `auditBoundPodSet`: the bound Job and its Pods. */
    method LoadHeld(action: string) returns (h: Option<Held>, answered: bool)
      requires Good()
      modifies this`api, this`trace
      ensures Good() && old(trace) <= trace && (old(Reading()) ==> Reading()) && (calm ==> api == old(api))
      ensures h.Some? ==> answered && Holds(config, run.approval, h.value, run.status.job, action)
      ensures calm && !answered ==> Silent(config, cluster, action)
      ensures calm && answered ==>
        && (h.Some? ==> ShowsHeld(config, run.approval, run.status.job, cluster, action, h.value))
        && (h.None? ==> forall g :: !ShowsHeld(config, run.approval, run.status.job, cluster, action, g))
    {
      hide Run, ValidJob, Honest;
      var loaded := LoadBoundJob(action);
      if !loaded.Bound? {
        return None, loaded.Mismatch?;
      }
      var pods, fine := AuditPods(loaded.job, action);
      if !fine {
        return None, pods.Some?;
      }
      h, answered := Some(Held(loaded.job, pods.value)), true;
    }

    /** `observeExpectedJob`: the list and the named read agree on one Job that matches the template. */
    method ObserveExpectedJob(action: string) returns (r: Search)
      requires Good()
      modifies this`api, this`trace
      ensures Good() && old(trace) <= trace && (old(Reading()) ==> Reading()) && (calm ==> api == old(api))
      ensures r.Hit? ==>
        && ValidJob(config, run.approval, r.found.job, action)
        && r.found.listed.name == config.name(action) && r.found.listed.uid == r.found.job.uid != ""
        && config.shown(Jobs(action, [r.found.listed])) && config.shown(Named(config.name(action), Some(r.found.job)))
      ensures calm && r.Hit? ==>
        && cluster.after(action) == Some([r.found.listed])
        && cluster.named(config.name(action)) == Some(Some(r.found.job))
      ensures calm && r.Miss? ==> forall f :: !Shows(config, run.approval, cluster, action, f)
      ensures calm && r.Unanswered? ==> Silent(config, cluster, action)
    {
      hide Run, Expected, Honest, Buildable, OnlyOwned;
      var jobs := ListJobsAfter(action);
      if jobs.None? {
        return Unanswered;
      }
      if |jobs.value| != 1 || jobs.value[0].name != config.name(action) {
        return Miss;
      }
      var listed := jobs.value[0];
      assert jobs.value == [listed];
      var live := GetJob(config.name(action));
      if live.None? {
        return Unanswered;
      }
      if live.value.None? || live.value.value.uid == "" || live.value.value.uid != listed.uid
         || !ValidJob(config, run.approval, live.value.value, action)
      {
        UidIsText();
        return Miss;
      }
      r := Hit(Found(listed, live.value.value, []));
    }

    /** `readSingleStepResult` */
    method ReadSingleStepResult(h: Held, action: string) returns (r: StepRead)
      requires Good() && config.specSha.Some? && Backed(config, run.approval, h, action)
      requires h.job.complete && !h.job.failed
      modifies this`api, this`trace
      ensures Good() && old(trace) <= trace && (old(Reading()) ==> Reading()) && (calm ==> api == old(api))
      ensures r.Read? ==> Proven(config, run.approval, Accepted(h, r.pod, r.result), action)
      ensures calm && r.Read? ==> Reports(config, cluster, action, h.job, r.result)
      ensures calm && r.Ambiguous? ==> forall result :: !Reports(config, cluster, action, h.job, result)
      ensures calm && r.Unread? ==> cluster.pods(action).None?
    {
      hide Run, ValidFor, Parse, Honest, Backed;
      var pods := ListPods(action);
      if pods.None? {
        return Unread;
      }
      if |pods.value| != 1 || !Owned(pods.value[0], h.job) || pods.value[0].message == "" {
        return Ambiguous;
      }
      var pod := pods.value[0];
      assert pods.value == [pod];
      var parsed := Parse(config.unescape, pod.message);
      if parsed.None? || !ValidFor(parsed.value, config.uid, action, config.specSha.value) {
        return Ambiguous;
      }
      r := Read(pod, parsed.value);
    }

    // ---------------------------------------------------------------- transitions

    /** The checks of `ensureJob`, up to the Job that may be bound. */
    method FindJob(action: string) returns (r: Search)
      requires Good() && (run.status.job.Some? ==> run.status.job.value.action != action)
      modifies this`api, this`trace
      ensures Good() && old(trace) <= trace && (old(Reading()) ==> Reading()) && (calm ==> api == old(api))
      ensures r.Hit? ==> Bindable(config, run.approval, r.found, action)
      ensures calm && r.Hit? ==> Shows(config, run.approval, cluster, action, r.found)
      ensures calm && r.Miss? ==> forall f :: !Shows(config, run.approval, cluster, action, f)
      ensures calm && r.Unanswered? ==> Silent(config, cluster, action)
    {
      hide Run, ValidJob, IsUid, Honest, Buildable, OnlyOwned;
      if !Buildable(config, run.approval, action) {
        return Miss;
      }
      var jobs := ListJobs(action);
      if jobs.None? {
        return Unanswered;
      }
      if |jobs.value| > 1 {
        return Miss;
      }
      if |jobs.value| == 0 {
        assert jobs.value == [];
        var created := Create();
        if !created {
          return Unanswered;
        }
      }
      r := ObserveExpectedJob(action);
      if !r.Hit? {
        return;
      }
      if !IsUid(r.found.job.uid)
         || (run.status.job.Some? && run.status.job.value.action == action &&
             !Binds(run.status.job.value, r.found.job, action))
      {
        return Miss;
      }
      var pods, fine := AuditPods(r.found.job, action);
      if !fine {
        return if pods.None? then Unanswered else Miss;
      }
      r := Hit(r.found.(pods := pods.value));
    }

    /** `ensureJob`: find or create the Job of an action and bind it. */
    method EnsureJob(action: string, phase: Phase, e: Evidence) returns (ok: bool)
      requires Reading() && run.status.job == read.status.job
      requires forall f :: Bindable(config, read.approval, f, action) ==>
        Update(config, read, run.status.(phase := phase, job := Some(JobRef(f.job.name, f.job.uid, action))),
            e.(bound := Some(f)))
      requires run.status.job.Some? ==> run.status.job.value.action != action
      modifies this`api, this`trace, this`updates, this`run
      ensures Good() && old(trace) <= trace && updates <= old(updates) + 1
      ensures Done(ok) && run.approval == old(run.approval)
      ensures calm && ok ==> Ensured(config, run.approval, cluster, action, old(run.status), phase, run.status)
      ensures calm && !ok ==> Silent(config, cluster, action)
    {
      hide Run, Update, Bindable, Shows, Honest, Silent;
      var found := FindJob(action);
      if found.Unanswered? {
        return false;
      }
      if found.Miss? {
        ok := Block();
        return;
      }
      if calm {
        ShownOnce(config, run.approval, cluster, action, found.found);
      }
      run := run.(status := run.status.(phase := phase,
          job := Some(JobRef(found.found.job.name, found.found.job.uid, action))));
      ok := PersistStatus(e.(bound := Some(found.found)));
    }

    /** `acceptStepResult` */
    method AcceptStepResult(a: Accepted) returns (ok: bool)
      requires Reading() && Inv(config, read) && run.status == read.status.(specSha := run.status.specSha)
      requires Rank(read.status) == 1 || Rank(read.status) == 3 || Rank(read.status) == 4
      requires config.specSha.Some? && read.status.job.Some?
      requires ValidResult(config, a, read.approval, read.status.job, read.status.job.value.action)
      modifies this`api, this`trace, this`updates, this`run
      ensures Good() && old(trace) <= trace && updates <= old(updates) + 1 && Done(ok)
      ensures calm && ok ==>
        Advances(config, read.approval, cluster, read.status.job.value.action, a.result, old(run.status), run.status)
      ensures calm && !ok ==> Silent(config, cluster, VERIFY)
    {
      hide Run, Inv, Proven, Holds, Bindable, Honest, Silent, Ensured;
      var action := run.status.job.value.action;
      var result := a.result;
      var e := Evidence(None, Some(a), None);
      ResultRank(config, read);
      ActionsDiffer();
      if action == START && result.outcome == AWAITING {
        run := run.(status := run.status.(runId := result.runId, decision := result.decision, bundle := "",
            phase := AwaitingApproval));
        ok := PersistStatus(e);
      } else if action == START && result.outcome == COMPLETED {
        run := run.(status := run.status.(runId := result.runId, bundle := result.bundle));
        ok := EnsureJob(VERIFY, Verifying, e);
      } else if action == RESUME && result.outcome == COMPLETED && result.decision == run.approval &&
          result.runId == run.status.runId {
        run := run.(status := run.status.(bundle := result.bundle));
        ok := EnsureJob(VERIFY, Verifying, e);
      } else if action == VERIFY && result.outcome == VERIFIED && result.runId == run.status.runId &&
          result.bundle == run.status.bundle {
        run := run.(status := run.status.(phase := Succeeded));
        ok := PersistStatus(e);
      } else {
        ok := Block();
      }
    }

    /** What `reconcileActiveJob` finds out about the bound Job. */
    method Examine(action: string) returns (x: Examined)
      requires Good() && config.specSha.Some?
      modifies this`api, this`trace
      ensures Good() && old(trace) <= trace && (old(Reading()) ==> Reading()) && (calm ==> api == old(api))
      ensures x.Ended? ==> ValidResult(config, x.accepted, run.approval, run.status.job, action)
      ensures calm && x.Unknown? ==> Silent(config, cluster, action)
      ensures calm && !x.Unknown? ==> Examination(config, run.approval, run.status.job, cluster, action, x)
    {
      hide Run, Honest, Proven, Holds, Reports;
      var h, answered := LoadHeld(action);
      if !answered {
        return Unknown;
      }
      if h.None? {
        return Bad;
      }
      HeldIsBacked(config, run.approval, h.value, run.status.job, action);
      if calm {
        HeldOnce(config, run.approval, run.status.job, cluster, action, h.value);
      }
      hide ShowsHeld;
      if h.value.job.failed {
        return Bad;
      }
      if !h.value.job.complete {
        return Active(h.value.job);
      }
      var step := ReadSingleStepResult(h.value, action);
      if step.Unread? {
        return Unknown;
      }
      x := if step.Ambiguous? then Bad else Ended(Accepted(h.value, step.pod, step.result));
    }

    /** `reconcileActiveJob` */
    method ReconcileActiveJob() returns (ok: bool)
      requires Reading() && config.specSha.Some? && Inv(config, read)
      requires run.status == read.status.(specSha := run.status.specSha)
      requires Rank(read.status) == 1 || Rank(read.status) == 3 || Rank(read.status) == 4
      requires read.status.job.Some?
      modifies this`api, this`trace, this`updates, this`run
      ensures Good() && old(trace) <= trace && updates <= old(updates) + 1 && Done(ok)
      ensures calm && ok ==> ActiveOutcome(config, read.approval, cluster, old(run.status), run.status)
      ensures calm && !ok ==> Silent(config, cluster, read.status.job.value.action) || Silent(config, cluster, VERIFY)
    {
      hide Run, Inv, Update, ActiveOutcome, Examination, Advances, ValidResult, Honest, Silent;
      var action := run.status.job.value.action;
      if !ValidAction(action) {
        ok := Block();
        InvalidActiveAction(config, read.approval, cluster, old(run.status), run.status);
        return;
      }
      var found := Examine(action);
      match found {
        case Unknown =>
          return false;
        case Bad =>
          ok := Block();
        case Active(job) =>
          PhaseByAction(config, read);
          run := run.(status := run.status.(phase := if action == VERIFY then Verifying else Running));
          StayingIsUpdate(config, read, run.status);
          ok := PersistStatus(NO_EVIDENCE);
        case Ended(a) =>
          ok := AcceptStepResult(a);
      }
      if calm && ok {
        ExaminedOutcome(config, read.approval, cluster, found, old(run.status), run.status);
      }
    }

    /** `reconcileApproval` */
    method ReconcileApproval() returns (ok: bool)
      requires Reading() && config.specSha.Some? && Inv(config, read)
      requires run.status == read.status.(specSha := run.status.specSha)
      requires Rank(read.status) == 2
      modifies this`api, this`trace, this`updates, this`run
      ensures Good() && old(trace) <= trace && updates <= old(updates) + 1 && Done(ok)
      ensures calm && ok ==> ApprovalOutcome(config, read.approval, cluster, old(run.status), run.status)
      ensures calm && !ok ==> Silent(config, cluster, START) || Silent(config, cluster, RESUME)
    {
      hide Run, Inv, Holds, Bindable, Honest, Silent, ShowsHeld, Ensured, Update;
      if run.status.job.None? || run.status.job.value.action != START {
        ok := Block();
        MissingStartJob(config, read.approval, cluster, old(run.status));
        return;
      }
      var h, answered := LoadHeld(START);
      if !answered {
        return false;
      }
      if h.None? {
        ok := Block();
        return;
      }
      if run.approval == "" {
        StayingIsUpdate(config, read, run.status);
        ok := PersistStatus(NO_EVIDENCE);
      } else if run.approval != run.status.decision {
        ok := Block();
      } else {
        ActionsDiffer();
        ResumeIsUpdate(config, read, run.status, h.value);
        ok := EnsureJob(RESUME, Running, Evidence(h, None, None));
      }
    }

    /** Read the object afresh. */
    method Fetch()
      requires Good()
      modifies this`api, this`trace, this`run, this`snapshot, this`read
      ensures Reading() && old(trace) <= trace && run == read && Inv(config, read) && (calm ==> read == old(api))
    {
      hide Run, Inv, Honest;
      Others();
      run, snapshot, read := api, api.status, api;
      RunInv(config, trace, |trace| - 1);
    }

    /** `Reconcile`: one pass gets at most one update accepted, and only one the table of updates allows. When
        nothing disturbs it, it stores the status that the stored object and the cluster call for, or it returns
        an error, stores nothing, and some answer was missing. */
    method Reconcile(k: Cluster, quiet: bool) returns (ok: bool)
      requires Good() && Honest(config, k)
      modifies this
      ensures Good() && old(trace) <= trace && updates <= old(updates) + 1
      ensures read.version < |trace| && trace[read.version] == read
      ensures quiet && ok ==> Outcome(config, old(api), k, api.status)
      ensures quiet && !ok ==>
        api == old(api) && (Silent(config, k, START) || Silent(config, k, RESUME) || Silent(config, k, VERIFY))
    {
      hide Run, Inv, Outcome, Honest, Silent;
      cluster, calm := k, quiet;
      Fetch();
      ok := Handle();
    }

    /** The checks of `Reconcile` that come before the phase switch. */
    method Handle() returns (ok: bool)
      requires Reading() && run == read && Inv(config, read)
      modifies this`api, this`trace, this`updates, this`run
      ensures Good() && old(trace) <= trace && updates <= old(updates) + 1 && Done(ok)
      ensures calm && ok ==> Outcome(config, read, cluster, run.status)
      ensures calm && !ok ==>
        Silent(config, cluster, START) || Silent(config, cluster, RESUME) || Silent(config, cluster, VERIFY)
    {
      hide Run, Inv, Update, Outcome, Rank, Refused, Honest, Silent;
      NotRefused(config, run);
      var refused := Refused(config, run);
      if config.specSha.Some? && config.specOk(run.approval) &&
          (run.status.specSha == "" || Some(run.status.specSha) == config.specSha) {
        run := run.(status := run.status.(specSha := config.specSha.value));
      }
      if refused {
        ok := Block();
        RefusedOutcome(config, read, cluster, run.status);
      } else {
        ok := Dispatch();
      }
    }

    /** The phase switch of `Reconcile`. */
    method Dispatch() returns (ok: bool)
      requires Reading() && config.specSha.Some? && Inv(config, read)
      requires run.status == read.status.(specSha := config.specSha.value)
      requires !Refused(config, read)
      modifies this`api, this`trace, this`updates, this`run
      ensures Good() && old(trace) <= trace && updates <= old(updates) + 1 && Done(ok)
      ensures calm && ok ==> Outcome(config, read, cluster, run.status)
      ensures calm && !ok ==>
        Silent(config, cluster, START) || Silent(config, cluster, RESUME) || Silent(config, cluster, VERIFY)
    {
      hide Run, Inv, Update, ActiveOutcome, ApprovalOutcome, Ensured, Honest, Silent;
      var phase := run.status.phase;
      FitsRank(config, read);
      if phase == Blocked || phase == Succeeded {
        StayingIsUpdate(config, read, run.status);
        ok := PersistStatus(NO_EVIDENCE);
      } else if phase == AwaitingApproval {
        ok := ReconcileApproval();
      } else if run.status.job.None? {
        StartIsUpdate(config, read, run.status);
        ok := EnsureJob(START, Running, NO_EVIDENCE);
      } else {
        ResultRank(config, read);
        ok := ReconcileActiveJob();
      }
    }
  }

  // ---------------------------------------------------------------- what an examination tells

  /** What examining the bound Job tells about a cluster. */
  ghost predicate Examination(c: Config, approval: string, ref: Option<JobRef>, k: Cluster, action: string, x: Examined)
  {
    || (x.Bad? && forall h :: !ShowsHeld(c, approval, ref, k, action, h))
    || (exists h ::
          && ShowsHeld(c, approval, ref, k, action, h)
          && (forall g :: ShowsHeld(c, approval, ref, k, action, g) ==> g == h)
          && match x
             case Bad => h.job.failed || (h.job.complete && forall result :: !Reports(c, k, action, h.job, result))
             case Active(job) => !h.job.failed && !h.job.complete
             case Ended(a) => !h.job.failed && h.job.complete && Reports(c, k, action, h.job, a.result)
             case Unknown => false)
  }

  lemma ReportsOnce(c: Config, k: Cluster, action: string, job: Job, result: StepResult, other: StepResult)
    requires Reports(c, k, action, job, result) && Reports(c, k, action, job, other)
    ensures result == other
  {
    hide Parse, ValidFor;
  }

  lemma ShownOnce(c: Config, approval: string, k: Cluster, action: string, f: Found)
    requires Shows(c, approval, k, action, f)
    ensures forall g :: Shows(c, approval, k, action, g) ==> g == f
  {
    hide ValidJob, IsUid, Buildable, OnlyOwned;
    forall g | Shows(c, approval, k, action, g) ensures g == f {
      assert [f.listed][0] == [g.listed][0];
    }
  }

  lemma HeldOnce(c: Config, approval: string, ref: Option<JobRef>, k: Cluster, action: string, h: Held)
    requires ShowsHeld(c, approval, ref, k, action, h)
    ensures forall g :: ShowsHeld(c, approval, ref, k, action, g) ==> g == h
  {
    hide ValidJob, OnlyOwned;
    forall g | ShowsHeld(c, approval, ref, k, action, g) ensures g == h {
      assert [h.job][0] == [g.job][0];
    }
  }

  lemma HeldIsBacked(c: Config, approval: string, h: Held, ref: Option<JobRef>, action: string)
    requires Holds(c, approval, h, ref, action)
    ensures Backed(c, approval, h, action)
  {
  }

  lemma UidIsText()
    ensures !IsUid("")
  {
  }

  lemma ExaminedOutcome(c: Config, approval: string, k: Cluster, x: Examined, was: Status, s: Status)
    requires was.job.Some? && ValidAction(was.job.value.action)
    requires !x.Unknown? && Examination(c, approval, was.job, k, was.job.value.action, x)
    requires x.Bad? ==> s == was.(phase := Blocked)
    requires x.Active? ==> s == was
    requires x.Ended? ==> Advances(c, approval, k, was.job.value.action, x.accepted.result, was, s)
    ensures ActiveOutcome(c, approval, k, was, s)
  {
    hide ShowsHeld, Reports, Advances;
    if x.Ended? {
      forall h, result | ShowsHeld(c, approval, was.job, k, was.job.value.action, h) &&
          Reports(c, k, was.job.value.action, h.job, result)
        ensures result == x.accepted.result
      {
        ReportsOnce(c, k, was.job.value.action, h.job, result, x.accepted.result);
      }
    }
  }

  lemma InvalidActiveAction(c: Config, approval: string, k: Cluster, was: Status, s: Status)
    requires was.job.Some? && !ValidAction(was.job.value.action) && s == was.(phase := Blocked)
    ensures ActiveOutcome(c, approval, k, was, s)
  {
  }

  lemma MissingStartJob(c: Config, approval: string, k: Cluster, was: Status)
    requires was.job.None? || was.job.value.action != START
    ensures forall h :: !ShowsHeld(c, approval, was.job, k, START, h)
  {
  }

  // ---------------------------------------------------------------- why the candidates are allowed

  lemma SameVersion(c: Config, os: seq<AgentRun>, k: nat)
    requires Run(c, os) && k < |os| && os[|os| - 1].version == os[k].version
    ensures os[|os| - 1] == os[k]
  {
    hide Run, Inv;
    RunInv(c, os, k);
    RunInv(c, os, |os| - 1);
  }

  lemma AcceptIsNext(c: Config, o: AgentRun, s: Status, e: Evidence)
    requires Update(c, o, s, e)
    ensures Next(c, o, Updated(o, s, e))
  {
    hide Update;
    assert Does(c, o, Accept(s, e), Updated(o, s, e));
  }

  lemma ResultRank(c: Config, o: AgentRun)
    requires Inv(c, o) && o.status.job.Some?
    ensures Rank(o.status) == 1 ==> o.status.job.value.action == START
    ensures Rank(o.status) == 3 ==> o.status.job.value.action == RESUME
    ensures Rank(o.status) == 4 ==> o.status.job.value.action == VERIFY
  {
    hide StartEvidence, ResumeEvidence, DirectEvidence, Proven;
  }

  lemma PhaseByAction(c: Config, o: AgentRun)
    requires Inv(c, o) && o.status.job.Some? && (Rank(o.status) == 1 || Rank(o.status) == 3 || Rank(o.status) == 4)
    ensures o.status.phase == if o.status.job.value.action == VERIFY then Verifying else Running
  {
    hide StartEvidence, ResumeEvidence, DirectEvidence, Proven;
    ActionsDiffer();
  }

  lemma StayingIsUpdate(c: Config, o: AgentRun, s: Status)
    requires s == o.status.(specSha := s.specSha) && c.specSha.Some?
    requires (s.specSha == o.status.specSha || Some(s.specSha) == c.specSha)
    requires s.phase == Succeeded ==> o.approval == o.status.decision
    ensures Update(c, o, s, NO_EVIDENCE)
  {
  }

  lemma FitsRank(c: Config, o: AgentRun)
    requires Inv(c, o)
    ensures o.status.phase == AwaitingApproval ==> Rank(o.status) == 2
    ensures Rank(o.status) == 2 ==>
      o.status.job.Some? && o.status.job.value.action == START && o.status.phase == AwaitingApproval
    ensures o.status.phase != Blocked && o.status.phase != Succeeded && o.status.phase != AwaitingApproval ==>
      if o.status.job.None? then Rank(o.status) == 0 && (o.status.phase == NoPhase || o.status.phase == Pending)
      else Rank(o.status) == 1 || Rank(o.status) == 3 || Rank(o.status) == 4
  {
    hide StartEvidence, ResumeEvidence, DirectEvidence, Proven;
  }

  lemma StartIsUpdate(c: Config, o: AgentRun, s: Status)
    requires c.specSha.Some? && s == o.status.(specSha := c.specSha.value) && Rank(o.status) == 0 && o.approval == ""
    ensures forall f :: Bindable(c, o.approval, f, START) ==>
      Update(c, o, s.(phase := Running, job := Some(JobRef(f.job.name, f.job.uid, START))),
          NO_EVIDENCE.(bound := Some(f)))
  {
    hide Bindable;
    ActionsDiffer();
  }

  lemma ResumeIsUpdate(c: Config, o: AgentRun, s: Status, h: Held)
    requires c.specSha.Some? && s == o.status.(specSha := s.specSha) && Rank(o.status) == 2
    requires s.specSha == o.status.specSha || Some(s.specSha) == c.specSha
    requires o.approval != "" && o.approval == o.status.decision && Holds(c, o.approval, h, o.status.job, START)
    ensures forall f :: Bindable(c, o.approval, f, RESUME) ==>
      Update(c, o, s.(phase := Running, job := Some(JobRef(f.job.name, f.job.uid, RESUME))),
          Evidence(Some(h), None, Some(f)))
  {
    hide Bindable, Holds;
    ActionsDiffer();
  }

  lemma RefusedOutcome(c: Config, o: AgentRun, k: Cluster, s: Status)
    requires Refused(c, o) && s == o.status.(specSha := s.specSha, phase := Blocked)
    ensures Outcome(c, o, k, s)
  {
  }

  lemma NotRefused(c: Config, o: AgentRun)
    ensures !Refused(c, o) ==>
      c.specSha.Some? && c.specOk(o.approval) && (o.status.specSha == "" || Some(o.status.specSha) == c.specSha)
  {
  }
}
