/** The AgentRun object as the API server stores it, and the status updates that controllers get accepted. */
module AgentRuns {
  import opened Basics
  import opened Protocol

  datatype Phase = NoPhase | Pending | Running | AwaitingApproval | Verifying | Succeeded | Blocked

  datatype JobRef = JobRef(name: string, uid: string, action: string)

  datatype Status = Status(
    specSha: string, phase: Phase, runId: string, decision: string, bundle: string, job: Option<JobRef>)

  /** The arguments a Job passes to the step. */
  datatype Args = Args(action: string, uid: string, specSha: string, decision: Option<string>)

  datatype Job = Job(name: string, uid: string, args: Args, template: bool, failed: bool, complete: bool)

  datatype Pod = Pod(ownerName: string, ownerUid: string, message: string)

  /** An answer of the API server: the Jobs or the Pods labelled with an action, or the Job of a name. */
  datatype Answer =
    | Jobs(action: string, jobs: seq<Job>)
    | Named(name: string, job: Option<Job>)
    | Pods(action: string, pods: seq<Pod>)

  /** What the immutable execution spec and the object's metadata determine. `specSha` is None when the
      spec has no canonical digest, `specOk` judges the whole spec, `name` is the deterministic Job name.
      `shown` holds of the answers that the API server gives to any controller at any time. */
  datatype Config = Config(
    uid: string, specSha: Option<string>, specOk: string -> bool, buildable: bool, name: string -> string,
    unescape: string -> Option<string>, shown: Answer -> bool)

  /** A Job listed alone for its action, and the Pods listed for the action afterwards. */
  datatype Held = Held(job: Job, pods: seq<Pod>)

  /** A Job listed alone for its action and then read by name, and the Pods listed for the action afterwards. */
  datatype Found = Found(listed: Job, job: Job, pods: seq<Pod>)

  /** A step result read from the Pod of a held Job. */
  datatype Accepted = Accepted(held: Held, pod: Pod, result: StepResult)

  /** What an update rests on: the Job held so far, the result it ended with, and the Job found to be bound next. */
  datatype Evidence = Evidence(held: Option<Held>, result: Option<Accepted>, bound: Option<Found>)

  const NO_EVIDENCE := Evidence(None, None, None)

  /** The stored object. `version` is its resource version; `start`, `resume` and `verify` record the
      results that accepted updates rested on. */
  datatype AgentRun = AgentRun(
    approval: string, status: Status, version: nat,
    start: Option<Accepted>, resume: Option<Accepted>, verify: Option<Accepted>)

  // ---------------------------------------------------------------- Jobs and Pods

  function Expected(c: Config, approval: string, action: string): Args
    requires c.specSha.Some?
  {
    Args(action, c.uid, c.specSha.value, if action == RESUME then Some(approval) else None)
  }

  /** `ValidateJob` */
  predicate ValidJob(c: Config, approval: string, job: Job, action: string)
  {
    c.specSha.Some? && job.template && job.name == c.name(action) && job.args == Expected(c, approval, action)
  }

  predicate Binds(ref: JobRef, job: Job, action: string)
  {
    ref == JobRef(job.name, job.uid, action)
  }

  /** `podOwnedByJob` */
  predicate Owned(pod: Pod, job: Job) { pod.ownerName == job.name && pod.ownerUid == job.uid }

  /** No foreign Pod and no second one. */
  predicate OnlyOwned(pods: seq<Pod>, job: Job) { |pods| == 0 || (|pods| == 1 && Owned(pods[0], job)) }

  /** The API server showed `h`, and `ref` names its Job. */
  predicate Holds(c: Config, approval: string, h: Held, ref: Option<JobRef>, action: string)
  {
    && ref.Some? && Binds(ref.value, h.job, action) && Backed(c, approval, h, action)
  }

  predicate Backed(c: Config, approval: string, h: Held, action: string)
  {
    && ValidJob(c, approval, h.job, action)
    && c.shown(Jobs(action, [h.job])) && c.shown(Pods(action, h.pods)) && OnlyOwned(h.pods, h.job)
  }

  /** The API server showed `f`, list and named read agree on one uid, and its Pods passed the audit. */
  predicate Bindable(c: Config, approval: string, f: Found, action: string)
  {
    && ValidJob(c, approval, f.job, action) && IsUid(f.job.uid)
    && f.listed.name == c.name(action) && f.listed.uid == f.job.uid
    && c.shown(Jobs(action, [f.listed])) && c.shown(Named(c.name(action), Some(f.job)))
    && c.shown(Pods(action, f.pods)) && OnlyOwned(f.pods, f.job)
  }

  /** The result is the message of the only Pod shown for the action, owned by a completed Job shown for it. */
  predicate Proven(c: Config, approval: string, a: Accepted, action: string)
  {
    && Backed(c, approval, a.held, action) && a.held.job.complete && !a.held.job.failed
    && c.shown(Pods(action, [a.pod])) && Owned(a.pod, a.held.job)
    && Parse(c.unescape, a.pod.message) == Some(a.result)
    && c.specSha.Some? && ValidFor(a.result, c.uid, action, c.specSha.value)
  }

  predicate ValidResult(c: Config, a: Accepted, approval: string, ref: Option<JobRef>, action: string)
  {
    Holds(c, approval, a.held, ref, action) && Proven(c, approval, a, action)
  }

  // ---------------------------------------------------------------- ranks

  /** none, start running, awaiting approval, resume running, verifying, succeeded, blocked */
  function Rank(s: Status): nat
  {
    match s.phase
    case Blocked => 6
    case Succeeded => 5
    case Verifying => 4
    case AwaitingApproval => 2
    case Running =>
      if s.job.Some? && s.job.value.action == RESUME then 3 else if s.job.Some? && s.job.value.action == START
          then 1 else 0
    case _ => 0
  }

  /** The action whose Job a status of each rank is bound to. */
  predicate Fits(s: Status)
  {
    match Rank(s)
    case 0 => s.job.None? && (s.phase == NoPhase || s.phase == Pending)
    case 1 => s.job.Some? && s.job.value.action == START
    case 2 => s.job.Some? && s.job.value.action == START
    case 3 => s.job.Some? && s.job.value.action == RESUME
    case 6 => true
    case _ => s.job.Some? && s.job.value.action == VERIFY
  }

  // ---------------------------------------------------------------- accepted updates

  /** The table of status updates: what may follow what, and on which evidence. */
  predicate Update(c: Config, o: AgentRun, s: Status, e: Evidence)
  {
    var was := o.status;
    && (s.specSha == was.specSha || Some(s.specSha) == c.specSha)
    && (s.phase != Blocked ==> c.specSha.Some?)
    && match Rank(s)
       case 0 => s == was.(specSha := s.specSha)
       case 1 =>
         || s == was.(specSha := s.specSha)
         || (Rank(was) == 0 && o.approval == "" && BindsNew(c, o, s, e, START)
             && s == was.(specSha := s.specSha, phase := Running, job := s.job))
       case 2 =>
         || s == was.(specSha := s.specSha)
         || (Rank(was) == 1 && Rests(c, o, e, START) && e.result.value.result.outcome == AWAITING
             && s == was.(specSha := s.specSha, phase := AwaitingApproval, bundle := "",
                          runId := e.result.value.result.runId, decision := e.result.value.result.decision))
       case 3 =>
         || s == was.(specSha := s.specSha)
         || (Rank(was) == 2 && o.approval != "" && o.approval == was.decision
             && e.held.Some? && Holds(c, o.approval, e.held.value, was.job, START) && BindsNew(c, o, s, e, RESUME)
             && s == was.(specSha := s.specSha, phase := Running, job := s.job))
       case 4 =>
         || s == was.(specSha := s.specSha)
         || (Rank(was) == 1 && Rests(c, o, e, START) && e.result.value.result.outcome == COMPLETED
             && BindsNew(c, o, s, e, VERIFY)
             && s == was.(specSha := s.specSha, phase := Verifying, job := s.job,
                          runId := e.result.value.result.runId, bundle := e.result.value.result.bundle))
         || (Rank(was) == 3 && Rests(c, o, e, RESUME) && e.result.value.result.outcome == COMPLETED
             && BindsNew(c, o, s, e, VERIFY)
             && e.result.value.result.decision == o.approval && e.result.value.result.runId == was.runId
             && s == was.(specSha := s.specSha, phase := Verifying, job := s.job,
                   bundle := e.result.value.result.bundle))
       case 5 =>
         || (s == was.(specSha := s.specSha) && o.approval == was.decision)
         || (Rank(was) == 4 && Rests(c, o, e, VERIFY) && e.result.value.result.outcome == VERIFIED
             && e.result.value.result.runId == was.runId && e.result.value.result.bundle == was.bundle
             && s == was.(specSha := s.specSha, phase := Succeeded))
       case _ => s.job == was.job
  }

  predicate BindsNew(c: Config, o: AgentRun, s: Status, e: Evidence, action: string)
  {
    && s.job.Some? && e.bound.Some? && Binds(s.job.value, e.bound.value.job, action)
    && Bindable(c, o.approval, e.bound.value, action)
  }

  predicate Rests(c: Config, o: AgentRun, e: Evidence, action: string)
  {
    e.result.Some? && ValidResult(c, e.result.value, o.approval, o.status.job, action)
  }

  /** The stored object after an accepted update. */
  function Updated(o: AgentRun, s: Status, e: Evidence): AgentRun
  {
    o.(status := s, version := o.version + 1,
       start := if Rank(o.status) == 1 && (Rank(s) == 2 || Rank(s) == 4) then e.result else o.start,
       resume := if Rank(o.status) == 3 && Rank(s) == 4 then e.result else o.resume,
       verify := if Rank(o.status) == 4 && Rank(s) == 5 then e.result else o.verify)
  }

  datatype Act = Accept(status: Status, evidence: Evidence) | Approve(decision: string)

  /** Controllers get updates accepted; a user may set the approval once, to the published decision. */
  predicate Does(c: Config, o: AgentRun, act: Act, o': AgentRun)
  {
    match act
    case Accept(s, e) => Update(c, o, s, e) && o' == Updated(o, s, e)
    case Approve(d) =>
      && o.approval == "" && d != "" && o.status.phase == AwaitingApproval && d == o.status.decision
      && o' == o.(approval := d, version := o.version + 1)
  }

  ghost predicate Next(c: Config, o: AgentRun, o': AgentRun)
  {
    exists act :: Does(c, o, act, o')
  }

  ghost predicate Init(o: AgentRun)
  {
    o.status == Status("", NoPhase, "", "", "", None) && o.version == 0 && o.start.None? && o.resume.None? &&
        o.verify.None?
  }

  ghost predicate Run(c: Config, os: seq<AgentRun>)
  {
    os != [] && Init(os[0]) && forall k :: 0 <= k < |os| - 1 ==> Next(c, os[k], os[k + 1])
  }

  // ---------------------------------------------------------------- what every stored object satisfies

  /** The result a start published or completed. */
  ghost predicate StartEvidence(c: Config, o: AgentRun)
  {
    && o.start.Some? && Proven(c, o.approval, o.start.value, START)
    && o.start.value.result.runId == o.status.runId
  }

  /** The approval is the decision that start published, that the resume Job was given and that it echoes. */
  ghost predicate ResumeEvidence(c: Config, o: AgentRun)
    requires o.start.Some?
  {
    && o.resume.Some? && Proven(c, o.approval, o.resume.value, RESUME) && o.resume.value.result.outcome == COMPLETED
    && o.resume.value.held.job.args.decision == Some(o.approval) && o.resume.value.result.decision == o.approval
    && o.resume.value.result.runId == o.status.runId && o.resume.value.result.bundle == o.status.bundle
    && o.start.value.result.outcome == AWAITING && o.start.value.result.decision == o.approval == o.status.decision
  }

  ghost predicate DirectEvidence(o: AgentRun)
    requires o.start.Some?
  {
    && o.resume.None? && o.start.value.result.outcome == COMPLETED && o.start.value.result.bundle == o.status.bundle
    && o.approval == "" && o.status.decision == ""
  }

  ghost predicate Inv(c: Config, o: AgentRun)
  {
    && Fits(o.status)
    && (Rank(o.status) != 6 ==>
          && (Rank(o.status) == 0 ==>
                o.start.None? && o.status.runId == "" && o.status.decision == "" && o.status.bundle == "")
          && (Rank(o.status) == 1 ==> o.start.None? && o.approval == "" && o.status.decision == "")
          && (Rank(o.status) <= 3 ==> o.resume.None?)
          && (Rank(o.status) == 2 || Rank(o.status) == 3 ==>
                && StartEvidence(c, o) && o.start.value.result.outcome == AWAITING
                && o.start.value.result.decision == o.status.decision
                && (o.approval == "" || o.approval == o.status.decision))
          && (Rank(o.status) == 3 ==> o.approval == o.status.decision)
          && (Rank(o.status) == 4 || Rank(o.status) == 5 ==>
                StartEvidence(c, o) && (ResumeEvidence(c, o) || DirectEvidence(o)))
          && (Rank(o.status) == 5 ==>
                && o.verify.Some? && Proven(c, o.approval, o.verify.value, VERIFY)
                && Binds(o.status.job.value, o.verify.value.held.job, VERIFY)
                && o.verify.value.result.outcome == VERIFIED
                && o.verify.value.result.runId == o.status.runId && o.verify.value.result.bundle == o.status.bundle))
  }

  lemma InitInv(c: Config, o: AgentRun)
    requires Init(o)
    ensures Inv(c, o)
  {
  }

  lemma ActionsDiffer()
    ensures START != RESUME && RESUME != VERIFY && START != VERIFY
    ensures COMPLETED != AWAITING && AWAITING != VERIFIED && COMPLETED != VERIFIED
  {
    assert RESUME[0] == 'r' && VERIFY[0] == 'v' && |START| == 5 && |RESUME| == 6;
  }

  /** Only a resume Job depends on the approval. */
  lemma ProvenAlike(c: Config, approval: string, a: Accepted, action: string, later: string)
    requires Proven(c, approval, a, action) && action != RESUME
    ensures Proven(c, later, a, action)
  {
    hide ValidFor, Parse;
  }

  lemma ApproveKeeps(c: Config, o: AgentRun, d: string, o': AgentRun)
    requires Inv(c, o) && Does(c, o, Approve(d), o')
    ensures Inv(c, o')
  {
    hide Proven, ResumeEvidence, DirectEvidence;
    ActionsDiffer();
    if Rank(o.status) == 2 {
      ProvenAlike(c, o.approval, o.start.value, START, d);
    }
  }

  lemma StayKeeps(c: Config, o: AgentRun, s: Status, e: Evidence)
    requires Inv(c, o) && s == o.status.(specSha := s.specSha)
    ensures Rank(s) == Rank(o.status) && Inv(c, Updated(o, s, e))
  {
    hide Proven;
  }

  lemma ResumeRanOnApproval(c: Config, o: AgentRun, a: Accepted)
    requires Proven(c, o.approval, a, RESUME)
    ensures a.held.job.args.decision == Some(o.approval)
  {
    hide ValidFor, Parse;
  }

  /** An update that moves on raises the rank and leaves the evidence of the new one. */
  lemma AcceptKeeps(c: Config, o: AgentRun, s: Status, e: Evidence)
    requires Inv(c, o) && Update(c, o, s, e) && s != o.status.(specSha := s.specSha)
    ensures Inv(c, Updated(o, s, e)) && (Rank(s) > Rank(o.status) || Rank(s) == 6)
  {
    hide Proven, Bindable, ValidFor, Parse;
    ActionsDiffer();
    if Rank(o.status) == 3 && Rank(s) == 4 {
      ResumeRanOnApproval(c, o, e.result.value);
    }
  }

  lemma StepInv(c: Config, o: AgentRun, act: Act, o': AgentRun)
    requires Inv(c, o) && Does(c, o, act, o')
    ensures Inv(c, o') && o'.version == o.version + 1
  {
    hide Inv, Update;
    match act
    case Approve(d) => ApproveKeeps(c, o, d, o');
    case Accept(s, e) =>
      if s == o.status.(specSha := s.specSha) {
        StayKeeps(c, o, s, e);
      } else {
        AcceptKeeps(c, o, s, e);
      }
  }

  // ---------------------------------------------------------------- over every run

  lemma {:induction false} RunInv(c: Config, os: seq<AgentRun>, k: nat)
    requires Run(c, os) && k < |os|
    ensures Inv(c, os[k]) && os[k].version == k
  {
    hide Inv, Does;
    if k == 0 {
      InitInv(c, os[0]);
    } else {
      RunInv(c, os, k - 1);
      assert Next(c, os[k - 1], os[k - 1 + 1]);
      var act :| Does(c, os[k - 1], act, os[k]);
      StepInv(c, os[k - 1], act, os[k]);
    }
  }

  /** Each accepted update stays put or moves to a strictly higher rank; blocked stays blocked. */
  lemma StepRank(c: Config, o: AgentRun, act: Act, o': AgentRun)
    requires Inv(c, o) && Does(c, o, act, o')
    ensures Rank(o.status) < Rank(o'.status)
         || (Rank(o.status) == Rank(o'.status) == 6 && o'.status.job == o.status.job)
         || o'.status == o.status.(specSha := o'.status.specSha)
  {
    hide Inv, Update;
    if act.Accept? {
      if act.status == o.status.(specSha := act.status.specSha) {
        StayKeeps(c, o, act.status, act.evidence);
      } else {
        AcceptKeeps(c, o, act.status, act.evidence);
        BlockKeepsJob(c, o, act.status, act.evidence);
      }
    }
  }

  lemma BlockKeepsJob(c: Config, o: AgentRun, s: Status, e: Evidence)
    requires Update(c, o, s, e)
    ensures Rank(s) == 6 ==> s.job == o.status.job
    ensures Rank(s) <= 6 && Rank(o.status) <= 6
  {
    hide Holds, Proven, Bindable;
  }

  lemma {:induction false} RankNeverDrops(c: Config, os: seq<AgentRun>, j: nat, k: nat)
    requires Run(c, os) && j <= k < |os|
    ensures Rank(os[j].status) <= Rank(os[k].status)
    ensures os[j].status.phase == Blocked ==> os[k].status.phase == Blocked && os[k].status.job == os[j].status.job
    decreases k
  {
    hide Inv, Does;
    if j < k {
      RankNeverDrops(c, os, j, k - 1);
      RunInv(c, os, k - 1);
      assert Next(c, os[k - 1], os[k - 1 + 1]);
      var act :| Does(c, os[k - 1], act, os[k]);
      StepRank(c, os[k - 1], act, os[k]);
    }
  }

  function Order(job: Option<JobRef>): nat
  {
    if job.None? then 0 else if job.value.action == START then 1 else if job.value.action == RESUME then 2 else 3
  }

  lemma StepJob(c: Config, o: AgentRun, act: Act, o': AgentRun)
    requires Inv(c, o) && Does(c, o, act, o')
    ensures o'.status.job == o.status.job || Order(o.status.job) < Order(o'.status.job)
  {
    hide Holds, Proven, Bindable, StartEvidence, ResumeEvidence, DirectEvidence;
    ActionsDiffer();
  }

  lemma {:induction false} JobsOnlyAdvance(c: Config, os: seq<AgentRun>, j: nat, k: nat)
    requires Run(c, os) && j <= k < |os|
    ensures os[k].status.job == os[j].status.job || Order(os[j].status.job) < Order(os[k].status.job)
    decreases k
  {
    hide Inv, Does;
    if j < k {
      JobsOnlyAdvance(c, os, j, k - 1);
      RunInv(c, os, k - 1);
      assert Next(c, os[k - 1], os[k - 1 + 1]);
      var act :| Does(c, os[k - 1], act, os[k]);
      StepJob(c, os[k - 1], act, os[k]);
    }
  }

  /** A Job bound for an action is never replaced by another Job for that action. */
  lemma JobNeverReplaced(c: Config, os: seq<AgentRun>, j: nat, k: nat)
    requires Run(c, os) && j < |os| && k < |os| && os[j].status.job.Some? && os[k].status.job.Some?
    requires os[j].status.job.value.action == os[k].status.job.value.action
    ensures os[j].status.job == os[k].status.job
  {
    hide Run;
    JobsOnlyAdvance(c, os, if j <= k then j else k, if j <= k then k else j);
  }

  /** A succeeded run has an evidence chain. The bound verify Job completed and its only Pod reported the
      run and the bundle; they are those that the Pod of a completed start or resume Job reported; and a resume
      ran on exactly the decision that the Pod of the start Job published. */
  lemma SucceededHasEvidence(c: Config, os: seq<AgentRun>, k: nat)
    requires Run(c, os) && k < |os| && os[k].status.phase == Succeeded
    ensures os[k].verify.Some? && os[k].start.Some? && os[k].status.job.Some?
    ensures Proven(c, os[k].approval, os[k].verify.value, VERIFY)
    ensures Binds(os[k].status.job.value, os[k].verify.value.held.job, VERIFY)
    ensures os[k].verify.value.result.outcome == VERIFIED
    ensures os[k].verify.value.result.runId == os[k].status.runId
    ensures os[k].verify.value.result.bundle == os[k].status.bundle
    ensures Proven(c, os[k].approval, os[k].start.value, START)
    ensures os[k].verify.value.result.runId == os[k].start.value.result.runId
    ensures if os[k].resume.Some? then
        && Proven(c, os[k].approval, os[k].resume.value, RESUME) && os[k].resume.value.result.outcome == COMPLETED
        && os[k].verify.value.result.runId == os[k].resume.value.result.runId
        && os[k].verify.value.result.bundle == os[k].resume.value.result.bundle
        && os[k].start.value.result.outcome == AWAITING
        && Some(os[k].start.value.result.decision) == os[k].resume.value.held.job.args.decision
        && os[k].resume.value.result.decision == os[k].start.value.result.decision == os[k].approval
      else
        && os[k].start.value.result.outcome == COMPLETED
        && os[k].verify.value.result.bundle == os[k].start.value.result.bundle
  {
    hide Run, Proven;
    RunInv(c, os, k);
  }

  /** What a proven result comes from. */
  lemma ProvenMeans(c: Config, approval: string, a: Accepted, action: string)
    requires Proven(c, approval, a, action)
    ensures c.shown(Jobs(action, [a.held.job])) && a.held.job.complete && !a.held.job.failed
    ensures c.shown(Pods(action, [a.pod])) && a.pod.ownerName == a.held.job.name && a.pod.ownerUid == a.held.job.uid
    ensures exists fields :: Decoded(c.unescape, a.pod.message) == Some(fields) && fields.Keys == KEYS
              && fields["run_id"] == a.result.runId && fields["bundle_sha256"] == a.result.bundle
              && fields["resume_decision_sha256"] == a.result.decision && fields["outcome"] == a.result.outcome
              && fields["action"] == action && fields["agent_run_uid"] == c.uid
  {
    hide Decoded, Intrinsic;
    assert Decoded(c.unescape, a.pod.message).Some?;
  }
}
