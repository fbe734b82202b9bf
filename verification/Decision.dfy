/** The resume decision: a read-only view of a run that a bound resume must find again. */
module Decision {
  import opened Basics
  import opened Events
  import opened EventLog
  import opened WorkspaceTree
  import opened RunState
  import opened Lifecycle
  import opened World
  import opened Invariants
  import opened ValidUpdates
  import opened KeepWorkspace
  import opened Load
  import opened QuarantineRecovery
  import opened Readiness
  import opened Inputs
  import opened Sealing

  datatype Action = AlreadyComplete | SealCompletedRun | RecoverAndResume | ResumeNext

  datatype NextTask = NextTask(
    task: nat, status: TaskStatus, attempt: nat, inputs: map<Path, Content>,
    outputs: seq<(Path, Option<Content>)>, candidates: seq<(QName, Option<Content>)>)

  /** The digest of a decision is represented by the decision. */
  datatype Decision = Decision(
    action: Action, prefix: nat, completed: seq<OutputRecord>, next: Option<NextTask>,
    evidence: map<ArtifactPath, Stored>, bundle: Option<Bundle>, workspace: Option<Tree>)

  // ---------------------------------------------------------------- the parts of a decision

  predicate PrefixVerified(p: Plan, w: World)
    requires |w.state.tasks| == |p.tasks|
  {
    forall o :: o in FinalOutputs(p, w.state.tasks, Prefix(w.state.tasks)) ==>
        o.path in w.files && w.files[o.path] == File(o.id)
  }

  predicate FilesOrAbsent(w: World, outputs: seq<Path>)
  {
    forall q :: q in outputs && q in w.files ==> w.files[q].File?
  }

  function OutputViews(w: World, outputs: seq<Path>): seq<(Path, Option<Content>)>
    requires FilesOrAbsent(w, outputs)
  {
    seq(|outputs|, k requires 0 <= k < |outputs| =>
      (outputs[k], if outputs[k] in w.files then Some(w.files[outputs[k]].id) else None))
  }

  function Candidates(w: World, i: nat, n: nat, outputs: seq<Path>): seq<(QName, Option<Content>)>
  {
    seq(|outputs|, k requires 0 <= k < |outputs| =>
      var name := QName(i, n, outputs[k]);
      (name, if name in w.quarantine then Some(w.quarantine[name]) else None))
  }

  /** What the inputs of the next task must be; partial when the evidence names none. */
  predicate InputsVerified(p: Plan, w: World, i: nat)
    requires |w.state.tasks| == |p.tasks| && i < |p.tasks|
  {
    forall q :: q in p.tasks[i].inputs ==>
      Source(p, w.state, q).Some? && q in w.files && w.files[q] == File(Source(p, w.state, q).value)
  }

  function InputsOf(p: Plan, w: World, i: nat): map<Path, Content>
    requires |w.state.tasks| == |p.tasks| && i < |p.tasks| && InputsVerified(p, w, i)
  {
    map q | q in p.tasks[i].inputs :: Source(p, w.state, q).value
  }

  predicate NextReady(p: Plan, w: World, i: nat)
    requires |w.state.tasks| == |p.tasks| && i < |p.tasks|
  {
    && |w.state.tasks[i].attempts| < MAX_ATTEMPTS_PER_TASK && TotalAttempts(w.state.tasks) < MAX_TOTAL_ATTEMPTS
    && InputsVerified(p, w, i)
    && FilesOrAbsent(w, p.tasks[i].outputs)
    && (InRecoveryStatus(w.state.tasks[i]) ==> w.state.tasks[i].attempts != [] && SplitOutputs(p, w, i))
  }

  function NextOf(p: Plan, w: World, i: nat): NextTask
    requires |w.state.tasks| == |p.tasks| && i < |p.tasks| && NextReady(p, w, i)
  {
    var t, outputs := w.state.tasks[i], p.tasks[i].outputs;
    NextTask(i, t.status, |t.attempts| + 1, InputsOf(p, w, i), OutputViews(w, outputs),
             if InRecoveryStatus(t) then Candidates(w, i, |t.attempts|, outputs) else [])
  }

  function Evidence(w: World): map<ArtifactPath, Stored>
  {
    map a | a in Artifacts(w) && ArtifactExists(w, a) :: ArtifactId(w, a)
  }

  /** What `_build_resume_decision` demands, apart from the liveness of recorded children. */
  ghost predicate CanDecide(p: Plan, w: World)
  {
    var n := Prefix(w.state.tasks);
    && |w.state.tasks| == |p.tasks|
    && LogStatus(p.codec, p.Head(), w.log, w.state.eventLog, w.state.pending) == Some(Stable)
    && PrefixVerified(p, w)
    && CurrentObservable(p, w)
    && (w.bundle.Some? || n == |p.tasks| ==> n == |p.tasks| && w.state.status == RunCompleted)
    && (n < |p.tasks| ==> NextReady(p, w, n))
  }

  ghost function DecisionOf(p: Plan, w: World): Decision
    requires CanDecide(p, w)
  {
    var n := Prefix(w.state.tasks);
    Decision(
      if w.bundle.Some? then AlreadyComplete
      else if n == |p.tasks| then SealCompletedRun
      else if InRecoveryStatus(w.state.tasks[n]) then RecoverAndResume else ResumeNext,
      n,
      FinalOutputs(p, w.state.tasks, n),
      if n == |p.tasks| then None else Some(NextOf(p, w, n)),
      Evidence(w), w.bundle,
      if p.version == 3 then Some(w.files) else None)
  }

  // ---------------------------------------------------------------- building it

  method CompletedPrefix(tasks: seq<TaskState>) returns (n: nat)
    ensures n == Prefix(tasks)
  {
    n := 0;
    while n < |tasks| && tasks[n].status == Completed
      invariant n <= |tasks| && forall j :: 0 <= j < n ==> tasks[j].status == Completed
    {
      n := n + 1;
    }
    ghost var k := Prefix(tasks);
  }

  /** No record is pending, the run is recorded completed once all its tasks are, and the next task has
      attempts left. Before version 3, when loading observes no tree, also the completed outputs and the next
      inputs are intact and no next output is a directory. */
  ghost predicate Decidable(p: Plan, w: World)
  {
    var n := Prefix(w.state.tasks);
    && |w.state.tasks| == |p.tasks|
    && w.state.pending.None?
    && (AllCompleted(w.state) ==> w.state.status == RunCompleted)
    && (n < |p.tasks| ==> |w.state.tasks[n].attempts| < MAX_ATTEMPTS_PER_TASK)
    && (p.version != 3 ==>
          && PrefixVerified(p, w)
          && (n < |p.tasks| ==> InputsVerified(p, w, n) && FilesOrAbsent(w, p.tasks[n].outputs)))
  }

  /** `_build_resume_decision`: for a reachable run that loads it refuses only outside `Decidable`. */
  method BuildResumeDecision(p: Plan, w: World) returns (r: Option<Decision>)
    requires Lawful(p.codec)
    ensures r.Some? <==> CanDecide(p, w)
    ensures r.Some? ==> r.value == DecisionOf(p, w)
    ensures PlanOk(p) && Inv(p, w) && LoadOk(p, w) ==> (r.Some? <==> Decidable(p, w))
  {
    hide PlanOk, Inv, LoadOk, Decidable;
    if PlanOk(p) && Inv(p, w) && LoadOk(p, w) {
      DecideExactly(p, w);
    }
    hide Lawful, LogStatus, CurrentObservable, FinalOutputs, NextReady, NextOf, Evidence;
    if |w.state.tasks| != |p.tasks| {
      return None;
    }
    var status := EventTransitionStatus(p.codec, p.Head(), w.log, w.state.eventLog, w.state.pending);
    if status != Some(Stable) {
      return None;
    }
    var n := CompletedPrefix(w.state.tasks);
    var completed := FinalOutputs(p, w.state.tasks, n);
    var verified := CheckOutputs(w, completed);
    if !verified || !CurrentObservable(p, w) {
      return None;
    }
    var action: Action;
    if w.bundle.Some? {
      if n < |p.tasks| || w.state.status != RunCompleted {
        return None;
      }
      action := AlreadyComplete;
    } else if n == |p.tasks| {
      if w.state.status != RunCompleted {
        return None;
      }
      action := SealCompletedRun;
    } else {
      action := if InRecoveryStatus(w.state.tasks[n]) then RecoverAndResume else ResumeNext;
    }
    var next: Option<NextTask> := None;
    if n < |p.tasks| {
      if !NextReady(p, w, n) {
        return None;
      }
      next := Some(NextOf(p, w, n));
    }
    r := Some(Decision(action, n, completed, next, Evidence(w), w.bundle, if p.version == 3 then Some(w.files)
        else None));
  }

  // ---------------------------------------------------------------- what a decision pins down

  lemma EvidenceIsExact(w: World, w': World)
    requires Evidence(w) == Evidence(w')
    ensures w.state == w'.state && w.log == w'.log && w.logs == w'.logs && w.quarantine == w'.quarantine
  {
    SameEvidence(w, w', StateFile);
    SameEvidence(w, w', EventsFile);
    hide Evidence, Artifacts;
    forall key ensures (key in w.logs <==> key in w'.logs) && (key in w.logs ==> w.logs[key] == w'.logs[key]) {
      SameEvidence(w, w', LogFile(key));
    }
    forall name ensures (name in w.quarantine <==> name in w'.quarantine) &&
        (name in w.quarantine ==> w.quarantine[name] == w'.quarantine[name]) {
      SameEvidence(w, w', QuarantineFile(name));
    }
  }

  lemma SameEvidence(w: World, w': World, a: ArtifactPath)
    requires Evidence(w) == Evidence(w')
    ensures ArtifactExists(w, a) <==> ArtifactExists(w', a)
    ensures ArtifactExists(w, a) ==> ArtifactId(w, a) == ArtifactId(w', a)
  {
    hide ArtifactId, ArtifactExists, Artifacts;
    ArtifactsExist(w, a);
    ArtifactsExist(w', a);
    assert a in Evidence(w) <==> ArtifactExists(w, a);
    assert a in Evidence(w') <==> ArtifactExists(w', a);
  }

  predicate SameFile(w: World, w': World, q: Path)
  {
    (q in w.files <==> q in w'.files) && (q in w.files ==> w.files[q] == w'.files[q])
  }

  /** Equal decisions mean equal evidence, and equal inputs, outputs and quarantine of every task they mention. */
  lemma DecisionPinsEvidence(p: Plan, w: World, w': World)
    requires CanDecide(p, w) && CanDecide(p, w') && DecisionOf(p, w) == DecisionOf(p, w')
    ensures w.state == w'.state && w.log == w'.log && w.logs == w'.logs
    ensures w.quarantine == w'.quarantine && w.bundle == w'.bundle
    ensures forall o :: o in FinalOutputs(p, w.state.tasks, Prefix(w.state.tasks)) ==> SameFile(w, w', o.path)
    ensures var n := Prefix(w.state.tasks);
      n < |p.tasks| ==> forall q :: q in p.tasks[n].inputs || q in p.tasks[n].outputs ==> SameFile(w, w', q)
    ensures p.version == 3 ==> w.files == w'.files
  {
    hide LogStatus, CurrentObservable, FinalOutputs, Evidence;
    EvidenceIsExact(w, w');
    var n := Prefix(w.state.tasks);
    if n < |p.tasks| {
      forall q | q in p.tasks[n].outputs ensures SameFile(w, w', q) {
        var k :| 0 <= k < |p.tasks[n].outputs| && p.tasks[n].outputs[k] == q;
        assert OutputViews(w, p.tasks[n].outputs)[k] == OutputViews(w', p.tasks[n].outputs)[k];
      }
    }
  }

  // ---------------------------------------------------------------- when a reachable run can be decided

  lemma StableIsNotPending(p: Plan, w: World)
    requires PlanOk(p) && Inv(p, w)
    ensures LogStatus(p.codec, p.Head(), w.log, w.state.eventLog, w.state.pending) == Some(Stable)
       <==> w.state.pending.None?
  {
    hide PlanOk, StateOk, ReplayInv, LeaderInv, QuarantineInv, MovedInv, LogFilesInv, WorkspaceInv, InputsInv;
    hide BundleInv, LogStatus;
    PlanIsLawful(p);
    StatusAlwaysKnown(p, w);
    StablePosition(p, w);
  }

  lemma StablePosition(p: Plan, w: World)
    requires LogInv(p, w)
    ensures Position(Records(p, w), w.state.eventLog.count, w.state.pending) == Some(Stable) <==> w.state.pending.None?
  {
  }

  /** Of what the next task needs, the global budget and the place of its outputs are never the reason. */
  lemma NextNeeds(p: Plan, w: World, n: nat)
    requires PlanOk(p) && Inv(p, w) && |w.state.tasks| == |p.tasks| && n == Prefix(w.state.tasks) < |p.tasks|
    ensures NextReady(p, w, n) <==>
      && |w.state.tasks[n].attempts| < MAX_ATTEMPTS_PER_TASK
      && InputsVerified(p, w, n) && FilesOrAbsent(w, p.tasks[n].outputs)
  {
    hide LogInv, ReplayInv, LeaderInv, QuarantineInv, LogFilesInv, WorkspaceInv, InputsInv, BundleInv, TaskOk;
    hide InputsVerified, FilesOrAbsent;
    Attempted(p, w.state, n);
    if |w.state.tasks[n].attempts| < MAX_ATTEMPTS_PER_TASK {
      GlobalBudgetNeverBinds(p, w.state, n);
    }
    if InRecoveryStatus(w.state.tasks[n]) {
      OutputsAreSplit(p, w, n);
    }
  }

  lemma OutputsAreSplit(p: Plan, w: World, i: nat)
    requires i < |p.tasks| && i < |w.state.tasks| && MovedInv(w)
    requires w.state.tasks[i].attempts != [] && InRecoveryStatus(w.state.tasks[i])
    ensures SplitOutputs(p, w, i)
  {
    forall q | q in p.tasks[i].outputs && QName(i, |w.state.tasks[i].attempts|, q) in w.quarantine
        ensures q !in w.files {
      assert Recovering(w, QName(i, |w.state.tasks[i].attempts|, q));
    }
  }

  lemma SealedIsCompleted(p: Plan, w: World)
    requires Inv(p, w) && w.bundle.Some?
    ensures AllCompleted(w.state) && w.state.status == RunCompleted
  {
    hide LogInv, ReplayInv, LeaderInv, QuarantineInv, MovedInv, LogFilesInv, WorkspaceInv, InputsInv, TasksOk;
    hide BundleFor;
  }

  /** At every crash point a decision can be built if and only if no record is pending, the run is recorded
      completed once all its tasks are, the next task has attempts left, and the files are as recorded. */
  lemma DecideNeeds(p: Plan, w: World)
    requires PlanOk(p) && Inv(p, w)
    ensures |w.state.tasks| == |p.tasks|
    ensures CanDecide(p, w) <==>
      var n := Prefix(w.state.tasks);
      && w.state.pending.None? && PrefixVerified(p, w) && CurrentObservable(p, w)
      && (AllCompleted(w.state) ==> w.state.status == RunCompleted)
      && (n < |p.tasks| ==>
            && |w.state.tasks[n].attempts| < MAX_ATTEMPTS_PER_TASK
            && InputsVerified(p, w, n) && FilesOrAbsent(w, p.tasks[n].outputs))
  {
    hide PlanOk, Inv, PrefixVerified, CurrentObservable, InputsVerified, FilesOrAbsent, NextReady, LogStatus;
    hide AllCompleted;
    var n := Prefix(w.state.tasks);
    InvState(p, w);
    StableIsNotPending(p, w);
    PrefixIsFirst(w.state, n);
    if n < |p.tasks| {
      NextNeeds(p, w, n);
    }
    if w.bundle.Some? {
      SealedIsCompleted(p, w);
    }
  }

  /** Every record of a final output is a sealed content. */
  lemma {:induction false} FinalIsSealed(p: Plan, tasks: seq<TaskState>, i: nat, o: OutputRecord)
    requires PlanOk(p) && TasksOk(p, tasks) && i <= |tasks| && o in FinalOutputs(p, tasks, i)
    requires forall j :: 0 <= j < i ==> tasks[j].status == Completed
    ensures o.path in Sealed(tasks, i) && Sealed(tasks, i)[o.path] == o.id
    decreases i
  {
    hide PlanOk, TaskOk, Sealed;
    if o in FinalOutputs(p, tasks, i - 1) {
      FinalIsSealed(p, tasks, i - 1, o);
      FinalOutputSource(p, tasks, i - 1, o);
      SealedLookup(p, tasks, i, o.task, o.path);
      SealedLookup(p, tasks, i - 1, o.task, o.path);
    } else {
      FinalOutputsSource(i - 1, p.tasks[i - 1].outputs, tasks[i - 1].outputs, o);
      SealedLookup(p, tasks, i, i - 1, o.path);
    }
  }

  lemma {:induction false} FinalOutputsSource(i: nat, outputs: seq<Path>, ids: map<Path, Content>, o: OutputRecord)
    requires o in FinalOutputsOf(i, outputs, ids)
    ensures o.task == i && o.path in outputs && o.path in ids && ids[o.path] == o.id
  {
    if o in FinalOutputsOf(i, outputs[..|outputs| - 1], ids) {
      FinalOutputsSource(i, outputs[..|outputs| - 1], ids, o);
    }
  }

  lemma {:induction false} FinalOutputSource(p: Plan, tasks: seq<TaskState>, i: nat, o: OutputRecord)
    requires i <= |tasks| && i <= |p.tasks| && o in FinalOutputs(p, tasks, i)
    ensures o.task < i && o.path in p.tasks[o.task].outputs
  {
    if o in FinalOutputs(p, tasks, i - 1) {
      FinalOutputSource(p, tasks, i - 1, o);
    } else {
      FinalOutputsSource(i - 1, p.tasks[i - 1].outputs, tasks[i - 1].outputs, o);
    }
  }

  lemma MatchedHolds(observed: Tree, baseline: Tree, completed: map<Path, Content>, volatile: seq<Path>, q: Path)
    requires VerifyWorkspace(observed, baseline, completed, volatile).Matched?
    ensures q in completed ==> q in observed && observed[q] == File(completed[q])
    ensures q !in completed && q !in baseline && q in observed ==> observed[q].File?
  {
    assert q in completed ==> q in AsFiles(completed) && q in baseline + AsFiles(completed);
  }

  /** An intact tree of version 3 holds the sealed outputs, the inputs of the next task, and no directory in
      place of one of its outputs. */
  lemma IntactHolds(p: Plan, w: World)
    requires PlanOk(p) && Inv(p, w) && p.version == 3 && TreeIntact(p, w)
    requires SeedsMatch(p, w) && |w.state.tasks| == |p.tasks|
    ensures PrefixVerified(p, w)
    ensures var n := Prefix(w.state.tasks); n < |p.tasks| ==>
        InputsVerified(p, w, n) && FilesOrAbsent(w, p.tasks[n].outputs)
  {
    hide LogInv, ReplayInv, LeaderInv, QuarantineInv, MovedInv, LogFilesInv, WorkspaceInv, InputsInv, BundleInv, TaskOk;
    hide PlanOk, VerifyWorkspace, Sealed, FinalOutputs, Leftovers, Source, ExpectedInput, FirstIncomplete;
    var n, tasks := Prefix(w.state.tasks), w.state.tasks;
    var sealed, leftovers := Sealed(tasks, |tasks|), Leftovers(p, tasks);
    PrefixIsFirst(w.state, n);
    SealedPrefix(p, w.state);
    forall o | o in FinalOutputs(p, tasks, n) ensures o.path in w.files && w.files[o.path] == File(o.id) {
      FinalIsSealed(p, tasks, n, o);
      MatchedHolds(w.files, p.baseline, sealed, leftovers, o.path);
    }
    if n < |p.tasks| {
      forall q | q in p.tasks[n].inputs
        ensures Source(p, w.state, q).Some? && q in w.files && w.files[q] == File(Source(p, w.state, q).value)
      {
        ProducersComplete(p, w.state, n, q);
        MatchedHolds(w.files, p.baseline, sealed, leftovers, q);
        InputSource(p, w.state, n, q);
      }
      forall q | q in p.tasks[n].outputs && q in w.files ensures w.files[q].File? {
        OutputsAreNew(p, w.state, n, q);
        MatchedHolds(w.files, p.baseline, sealed, leftovers, q);
      }
    }
  }

  lemma InputSource(p: Plan, s: State, i: nat, q: Path)
    requires i <= |s.tasks| && ExpectedInput(p, s, i, q).Some?
    ensures (q in p.seeds && ExpectedInput(p, s, i, q).value == p.seeds[q])
         || (q in Sealed(s.tasks, i) && ExpectedInput(p, s, i, q).value == Sealed(s.tasks, i)[q])
  {
  }

  lemma SealedPrefix(p: Plan, s: State)
    requires StateOk(p, s)
    ensures Sealed(s.tasks, |s.tasks|) == Sealed(s.tasks, Prefix(s.tasks))
  {
    hide StateOk, Sealed;
    PrefixIsFirst(s, Prefix(s.tasks));
    if Prefix(s.tasks) < |s.tasks| {
      SealedBeforeFirst(p, s, Prefix(s.tasks));
    }
  }

  /** For a run that loads, these conditions decide whether a decision can be built. */
  lemma DecideExactly(p: Plan, w: World)
    requires PlanOk(p) && Inv(p, w) && LoadOk(p, w)
    ensures CanDecide(p, w) <==> Decidable(p, w)
  {
    hide PlanOk, Inv, PrefixVerified, InputsVerified, FilesOrAbsent, LoadOk, TreeIntact, SeedsMatch;
    hide CurrentObservable, CanDecide, AllCompleted;
    InvState(p, w);
    DecideNeeds(p, w);
    LoadRefusesOnlyDrift(p, w);
    CurrentIsTree(p, w, w.files);
    assert w.(files := w.files) == w;
    if p.version == 3 {
      IntactHolds(p, w);
    }
  }

  /** Between the last completion and the completion of the run, no decision can be built, whatever the files
      are; a resume without a decision is not refused for that: it loads exactly when the files are intact, and
      its first transition needs no more than a record that fits and no live leader. */
  lemma DecisionWindow(p: Plan, w: World)
    requires PlanOk(p) && Inv(p, w) && AllCompleted(w.state) && w.state.status != RunCompleted
    ensures !CanDecide(p, w)
    ensures LoadOk(p, w) <==> SeedsMatch(p, w) && TreeIntact(p, w) && (p.version == 3 ==> w.torn == {})
    ensures CanIntend(p, w, RunResumed(w.state.status)) && NoLeader(w) ==>
      Does(p, w, Resume, Intend(p, w, Resumed(w.state), RunResumed(w.state.status)))
  {
    hide PlanOk, Inv, LoadOk, TreeIntact, SeedsMatch, CurrentObservable, CanDecide, PrefixVerified;
    hide InputsVerified, FilesOrAbsent, CanIntend;
    DecideNeeds(p, w);
    LoadRefusesOnlyDrift(p, w);
    CompletedHasNoGuard(p, w);
  }

  lemma CompletedHasNoGuard(p: Plan, w: World)
    requires Inv(p, w) && AllCompleted(w.state)
    ensures forall i :: 0 <= i < |w.state.tasks| && w.state.tasks[i].attempts != [] ==> !Latest(w.state.tasks[i]).guard
  {
    hide LogInv, ReplayInv, LeaderInv, QuarantineInv, MovedInv, LogFilesInv, WorkspaceInv, InputsInv, BundleInv;
    forall i | 0 <= i < |w.state.tasks| && w.state.tasks[i].attempts != [] ensures !Latest(w.state.tasks[i]).guard {
      assert TaskOk(p, i, w.state.tasks[i]);
      assert AttemptOk(p, i, |w.state.tasks[i].attempts| - 1, Latest(w.state.tasks[i]));
    }
  }
}
