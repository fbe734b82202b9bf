/** Quarantine files and attempt logs stay exactly those the recorded attempts account for. */
module KeepFiles {
  import opened Basics
  import opened Events
  import opened WorkspaceTree
  import opened RunState
  import opened Lifecycle
  import opened World
  import opened Invariants

  lemma {:induction false} QuarantinedFrame(outputs: seq<Path>, i: nat, n: nat, quarantine: map<QName, Content>,
      name: QName, id: Content)
    requires name.task != i || name.attempt != n
    ensures Quarantined(outputs, i, n, quarantine[name := id]) == Quarantined(outputs, i, n, quarantine)
  {
    if outputs != [] {
      QuarantinedFrame(outputs[..|outputs| - 1], i, n, quarantine, name, id);
    }
  }

  /** What the validator says about the latest attempt and its quarantine record. */
  lemma LatestRecord(p: Plan, s: State, i: nat)
    requires StateOk(p, s) && i < |s.tasks|
    ensures s.tasks[i].status != Pending ==> s.tasks[i].attempts != []
    ensures s.tasks[i].attempts != [] ==> (Latest(s.tasks[i]).quarantined.Some? <==> s.tasks[i].status == Pending)
    ensures |s.tasks| == |p.tasks|
  {
    assert TaskOk(p, i, s.tasks[i]);
    assert s.tasks[i].attempts != [] ==> AttemptOk(p, i, |s.tasks[i].attempts| - 1, Latest(s.tasks[i]));
  }

  // ---------------------------------------------------------------- quarantine

  lemma SameAttemptsKeepQuarantine(p: Plan, w: World, w': World)
    requires QuarantineInv(p, w) && w'.quarantine == w.quarantine && w'.state.tasks == w.state.tasks
    ensures QuarantineInv(p, w')
  {
    forall name | name in w'.quarantine ensures KnownName(p, w', name) {
      assert KnownName(p, w, name);
    }
  }

  lemma MovedNameIsKnown(p: Plan, w: World, i: nat, q: Path, id: Content)
    requires |w.state.tasks| == |p.tasks| && i < |p.tasks| && q in p.tasks[i].outputs && w.state.tasks[i].attempts != []
    requires w.state.tasks[i].status == Running || w.state.tasks[i].status == Failed
    requires Latest(w.state.tasks[i]).quarantined.None?
    requires RecordedQuarantine(p, w.state.tasks, w.quarantine)
    ensures KnownName(p, w, QName(i, |w.state.tasks[i].attempts|, q))
    ensures RecordedQuarantine(p, w.state.tasks, w.quarantine[QName(i, |w.state.tasks[i].attempts|, q) := id])
  {
    hide Quarantined;
    var tasks, n := w.state.tasks, |w.state.tasks[i].attempts|;
    var quarantine' := w.quarantine[QName(i, n, q) := id];
    forall j, k | 0 <= j < |tasks| && 0 <= k < |tasks[j].attempts| && tasks[j].attempts[k].quarantined.Some?
      ensures tasks[j].attempts[k].quarantined.value == Quarantined(p.tasks[j].outputs, j, k + 1, quarantine')
    {
      QuarantinedFrame(p.tasks[j].outputs, j, k + 1, w.quarantine, QName(i, n, q), id);
    }
  }

  lemma MoveKeepsQuarantine(p: Plan, w: World, i: nat, q: Path, w': World)
    requires StateOk(p, w.state) && QuarantineInv(p, w) && Does(p, w, Move(i, q), w')
    ensures QuarantineInv(p, w')
  {
    hide StateOk, Quarantined, RecordedQuarantine;
    LatestRecord(p, w.state, i);
    MovedNameIsKnown(p, w, i, q, w.files[q].id);
    forall x | x in w'.quarantine ensures KnownName(p, w', x) {
      assert KnownName(p, w, x);
    }
  }

  /** A fresh attempt has no quarantine record, and its recovered predecessors keep theirs. */
  lemma NewAttemptKeepsQuarantine(p: Plan, w: World, i: nat, t: TaskState, w': World)
    requires QuarantineInv(p, w) && i < |w.state.tasks|
    requires w'.quarantine == w.quarantine && w'.state.tasks == w.state.tasks[i := t]
    requires w.state.tasks[i].attempts == [] || Latest(w.state.tasks[i]).quarantined.Some?
    requires w.state.tasks[i].status == Pending
    requires |t.attempts| == |w.state.tasks[i].attempts| + 1
    requires t.attempts[..|w.state.tasks[i].attempts|] == w.state.tasks[i].attempts
    requires Latest(t).quarantined.None?
    ensures QuarantineInv(p, w')
  {
    hide Quarantined;
    forall k | 0 <= k < |w.state.tasks[i].attempts| ensures t.attempts[k] == w.state.tasks[i].attempts[k] {
      assert t.attempts[k] == t.attempts[..|w.state.tasks[i].attempts|][k];
    }
    forall x | x in w'.quarantine ensures KnownName(p, w', x) {
      assert KnownName(p, w, x);
    }
  }

  lemma StartKeepsQuarantine(p: Plan, w: World, a: Act, w': World)
    requires StateOk(p, w.state) && QuarantineInv(p, w) && a.Start? && Does(p, w, a, w')
    ensures QuarantineInv(p, w')
  {
    hide StateOk, QuarantineInv, InputsMatch, VerifyWorkspace, CanIntend;
    LatestRecord(p, w.state, a.task);
    NewAttemptKeepsQuarantine(p, w, a.task, w'.state.tasks[a.task], w');
  }

  /** A change to the latest attempt of a task keeps the quarantine accounted for. */
  lemma LatestKeepsQuarantine(p: Plan, w: World, i: nat, t: TaskState, w': World)
    requires QuarantineInv(p, w) && i < |w.state.tasks| && w.state.tasks[i].attempts != []
    requires w'.state.tasks == w.state.tasks[i := t] && w'.quarantine == w.quarantine
    requires |t.attempts| == |w.state.tasks[i].attempts|
    requires forall k :: 0 <= k < |t.attempts| - 1 ==> t.attempts[k] == w.state.tasks[i].attempts[k]
    requires Latest(t).quarantined.Some? ==>
      Latest(t).quarantined.value == Quarantined(p.tasks[i].outputs, i, |t.attempts|, w.quarantine)
    requires Latest(t).quarantined.Some? || t.status == Running || t.status == Failed
             || forall name :: name in w.quarantine ==> !(name.task == i && name.attempt == |t.attempts|)
    ensures QuarantineInv(p, w')
  {
    hide Quarantined, KnownName, RecordedQuarantine;
    LatestKeepsRecords(p, w.state.tasks, i, t, w.quarantine);
    forall x | x in w'.quarantine ensures KnownName(p, w', x) {
      LatestKeepsName(p, w, i, t, w', x);
    }
  }

  lemma LatestKeepsRecords(p: Plan, tasks: seq<TaskState>, i: nat, t: TaskState, quarantine: map<QName, Content>)
    requires |tasks| == |p.tasks| && i < |tasks| && tasks[i].attempts != [] && |t.attempts| == |tasks[i].attempts|
    requires RecordedQuarantine(p, tasks, quarantine)
    requires forall k :: 0 <= k < |t.attempts| - 1 ==> t.attempts[k] == tasks[i].attempts[k]
    requires Latest(t).quarantined.Some? ==>
      Latest(t).quarantined.value == Quarantined(p.tasks[i].outputs, i, |t.attempts|, quarantine)
    ensures RecordedQuarantine(p, tasks[i := t], quarantine)
  {
    hide Quarantined;
  }

  lemma LatestKeepsName(p: Plan, w: World, i: nat, t: TaskState, w': World, x: QName)
    requires i < |w.state.tasks| && w.state.tasks[i].attempts != [] && KnownName(p, w, x) && x in w.quarantine
    requires w'.state.tasks == w.state.tasks[i := t] && |t.attempts| == |w.state.tasks[i].attempts|
    requires forall k :: 0 <= k < |t.attempts| - 1 ==> t.attempts[k] == w.state.tasks[i].attempts[k]
    requires Latest(t).quarantined.Some? || t.status == Running || t.status == Failed
             || forall name :: name in w.quarantine ==> !(name.task == i && name.attempt == |t.attempts|)
    ensures KnownName(p, w', x)
  {
  }

  lemma EndFacts(p: Plan, w: World, a: Act, w': World)
    requires StateOk(p, w.state) && Does(p, w, a, w') && (a.Fail? || a.Complete? || a.Recover?)
    ensures var i := a.task;
      && i < |w.state.tasks| == |w'.state.tasks| && w.state.tasks[i].attempts != [] && i < |p.tasks|
      && w'.quarantine == w.quarantine
      && var t := w'.state.tasks[i];
         && w'.state.tasks == w.state.tasks[i := t] && |t.attempts| == |w.state.tasks[i].attempts|
         && (forall k :: 0 <= k < |t.attempts| - 1 ==> t.attempts[k] == w.state.tasks[i].attempts[k])
         && (Latest(t).quarantined.Some? ==>
               Latest(t).quarantined.value == Quarantined(p.tasks[i].outputs, i, |t.attempts|, w.quarantine))
         && (Latest(t).quarantined.Some? || t.status == Running || t.status == Failed
             || forall name :: name in w.quarantine ==> !(name.task == i && name.attempt == |t.attempts|))
  {
    hide StateOk, Quarantined, EndingOk, VerifyWorkspace, CanIntend, AfterRecovery;
    LatestRecord(p, w.state, a.task);
  }

  /** Fail, Complete and Recover change the latest attempt only. */
  lemma EndKeepsQuarantine(p: Plan, w: World, a: Act, w': World)
    requires StateOk(p, w.state) && QuarantineInv(p, w) && Does(p, w, a, w')
    requires a.Fail? || a.Complete? || a.Recover?
    ensures QuarantineInv(p, w')
  {
    hide StateOk, Quarantined, QuarantineInv, Does;
    EndFacts(p, w, a, w');
    QuarantineShape(p, w);
    LatestKeepsQuarantine(p, w, a.task, w'.state.tasks[a.task], w');
  }

  lemma QuarantineShape(p: Plan, w: World)
    requires QuarantineInv(p, w)
    ensures |w.state.tasks| == |p.tasks|
  {
  }

  lemma IdentifyKeepsQuarantine(p: Plan, w: World, a: Act, w': World)
    requires StateOk(p, w.state) && QuarantineInv(p, w) && a.Identify? && Does(p, w, a, w')
    ensures QuarantineInv(p, w')
  {
    hide StateOk, Quarantined;
    forall x | x in w'.quarantine ensures KnownName(p, w', x) {
      assert KnownName(p, w, x);
    }
  }

  lemma OtherKeepsFiles(p: Plan, w: World, a: Act, w': World)
    requires Does(p, w, a, w')
    requires !a.Start? && !a.Fail? && !a.Complete? && !a.Recover? && !a.Identify? && !a.Move?
    ensures w'.state.tasks == w.state.tasks && w'.quarantine == w.quarantine
    ensures a.MakeLog? || a.Environment? || w'.logs == w.logs
  {
    hide CanIntend, BundleFor, VerifyWorkspace;
  }

  lemma StepKeepsQuarantine(p: Plan, w: World, a: Act, w': World)
    requires StateOk(p, w.state) && QuarantineInv(p, w) && Does(p, w, a, w')
    ensures QuarantineInv(p, w')
  {
    hide *;
    match a
    case Move(i, q) => MoveKeepsQuarantine(p, w, i, q, w');
    case Start(_, _, _) => StartKeepsQuarantine(p, w, a, w');
    case Fail(_, _) => EndKeepsQuarantine(p, w, a, w');
    case Complete(_, _) => EndKeepsQuarantine(p, w, a, w');
    case Recover(_, _) => EndKeepsQuarantine(p, w, a, w');
    case Identify(_, _, _) => IdentifyKeepsQuarantine(p, w, a, w');
    case _ =>
      OtherKeepsFiles(p, w, a, w');
      SameAttemptsKeepQuarantine(p, w, w');
  }

  // ---------------------------------------------------------------- attempt logs

  lemma SameTasksKeepLogFiles(w: World, w': World)
    requires LogFilesInv(w) && w'.state.tasks == w.state.tasks && w'.logs.Keys == w.logs.Keys
    requires forall key :: key in w.logs && w.logs[key] != w'.logs[key] ==>
               key.task < |w.state.tasks| && key.attempt <= |w.state.tasks[key.task].attempts|
    ensures LogFilesInv(w')
  {
    forall i, n | 0 <= i < |w'.state.tasks| && 1 <= n <= |w'.state.tasks[i].attempts| ensures HasLogs(w', i, n) {
      assert HasLogs(w, i, n);
    }
    forall key | key in w'.logs ensures KnownLog(w', key) {
      assert KnownLog(w, key);
    }
  }

  /** An update of the first incomplete task that leaves no next-attempt logs unaccounted for. */
  lemma UpdateKeepsLogFiles(w: World, w': World, i: nat)
    requires LogFilesInv(w) && FirstIncomplete(w.state, i) && w'.logs == w.logs
    requires |w'.state.tasks| == |w.state.tasks|
    requires forall j :: 0 <= j < |w.state.tasks| && j != i ==> w'.state.tasks[j] == w.state.tasks[j]
    requires w.state.tasks[i].status != Pending
    requires |w'.state.tasks[i].attempts| == |w.state.tasks[i].attempts|
    ensures LogFilesInv(w')
  {
    forall j, n | 0 <= j < |w'.state.tasks| && 1 <= n <= |w'.state.tasks[j].attempts| ensures HasLogs(w', j, n) {
      assert HasLogs(w, j, n);
    }
    forall key | key in w'.logs ensures KnownLog(w', key) {
      assert KnownLog(w, key);
    }
  }

  lemma StartKeepsLogFiles(p: Plan, w: World, a: Act, w': World)
    requires StateOk(p, w.state) && LogFilesInv(w) && a.Start? && Does(p, w, a, w')
    ensures LogFilesInv(w')
  {
    hide StateOk, InputsMatch, VerifyWorkspace, CanIntend, Launching;
    forall j, n | 0 <= j < |w'.state.tasks| && 1 <= n <= |w'.state.tasks[j].attempts| ensures HasLogs(w', j, n) {
      assert n <= |w.state.tasks[j].attempts| ==> HasLogs(w, j, n);
    }
    forall key | key in w'.logs ensures KnownLog(w', key) {
      assert KnownLog(w, key);
    }
  }

  lemma MakeLogKeepsLogFiles(p: Plan, w: World, key: LogKey, w': World)
    requires LogFilesInv(w) && Does(p, w, MakeLog(key), w')
    ensures LogFilesInv(w')
  {
    forall j, n | 0 <= j < |w'.state.tasks| && 1 <= n <= |w'.state.tasks[j].attempts| ensures HasLogs(w', j, n) {
      assert HasLogs(w, j, n);
    }
    forall x | x in w'.logs ensures KnownLog(w', x) {
      assert x != key ==> KnownLog(w, x);
    }
  }

  lemma EnvironmentKeepsLogFiles(p: Plan, w: World, w': World)
    requires LeaderInv(w) && LogFilesInv(w) && EnvironmentStep(w, w')
    ensures LogFilesInv(w')
  {
    forall key | key in w.logs && w.logs[key] != w'.logs[key]
      ensures key.task < |w.state.tasks| && key.attempt <= |w.state.tasks[key.task].attempts|
    {
      var x :| x in w.procs && w.procs[x].owner == Some((key.task, key.attempt));
      assert Covers(w, x, w.procs[x]);
    }
    hide LeaderInv;
    SameTasksKeepLogFiles(w, w');
  }

  lemma TaskKeepsLogFiles(p: Plan, w: World, a: Act, w': World)
    requires LogFilesInv(w) && Does(p, w, a, w')
    requires a.Fail? || a.Complete? || a.Recover? || a.Identify?
    ensures LogFilesInv(w')
  {
    hide LogFilesInv, EndingOk, VerifyWorkspace, CanIntend, AfterRecovery, Quarantined;
    UpdateKeepsLogFiles(w, w', a.task);
  }

  lemma MoveKeepsLogFiles(p: Plan, w: World, a: Act, w': World)
    requires LogFilesInv(w) && a.Move? && Does(p, w, a, w')
    ensures LogFilesInv(w')
  {
    hide LogFilesInv, Recoverable;
    SameTasksKeepLogFiles(w, w');
  }

  lemma StepKeepsLogFiles(p: Plan, w: World, a: Act, w': World)
    requires StateOk(p, w.state) && LeaderInv(w) && LogFilesInv(w) && Does(p, w, a, w')
    ensures LogFilesInv(w')
  {
    hide *;
    match a
    case Start(_, _, _) => StartKeepsLogFiles(p, w, a, w');
    case Fail(_, _) => TaskKeepsLogFiles(p, w, a, w');
    case Complete(_, _) => TaskKeepsLogFiles(p, w, a, w');
    case Recover(_, _) => TaskKeepsLogFiles(p, w, a, w');
    case Identify(_, _, _) => TaskKeepsLogFiles(p, w, a, w');
    case Move(_, _) => MoveKeepsLogFiles(p, w, a, w');
    case MakeLog(key) => MakeLogKeepsLogFiles(p, w, key, w');
    case Environment =>
      EnvironmentOnly(p, w, w');
      EnvironmentKeepsLogFiles(p, w, w');
    case _ =>
      OtherKeepsFiles(p, w, a, w');
      SameTasksKeepLogFiles(w, w');
  }

  lemma EnvironmentOnly(p: Plan, w: World, w': World)
    requires Does(p, w, Environment, w')
    ensures EnvironmentStep(w, w')
  {
  }

  // ---------------------------------------------------------------- files under recovery

  lemma FrameKeepsMoved(w: World, w': World)
    requires MovedInv(w) && w'.state.tasks == w.state.tasks && w'.quarantine == w.quarantine
    requires NoLeader(w) ==> w'.files == w.files && NoLeader(w')
    ensures MovedInv(w')
  {
    forall name | name in w'.quarantine && Recovering(w', name)
      ensures name.source !in w'.files && NoLeader(w') && !Latest(w'.state.tasks[name.task]).guard
    {
      assert Recovering(w, name);
    }
  }

  /** A launch guard means that nothing of the attempt has been moved. */
  lemma GuardedIsUnmoved(p: Plan, w: World, i: nat)
    requires StateOk(p, w.state) && MovedInv(w) && FirstIncomplete(w.state, i) && w.state.tasks[i].attempts != []
    requires w.state.tasks[i].status == Running && Latest(w.state.tasks[i]).guard
    ensures forall name :: name in w.quarantine ==> !Recovering(w, name)
  {
    hide StateOk;
    UntouchedAfter(p, w.state, i);
  }

  lemma GuardStepKeepsMoved(p: Plan, w: World, a: Act, w': World)
    requires StateOk(p, w.state) && MovedInv(w) && Does(p, w, a, w') && (a.Spawn? || a.Identify?)
    ensures MovedInv(w')
  {
    hide StateOk;
    GuardedIsUnmoved(p, w, a.task);
    hide MovedInv;
    forall name | name in w'.quarantine ensures !Recovering(w', name) {
      assert !Recovering(w, name);
    }
    EmptyMoved(w');
  }

  lemma EmptyMoved(w: World)
    requires forall name :: name in w.quarantine ==> !Recovering(w, name)
    ensures MovedInv(w)
  {
  }

  lemma TaskKeepsMoved(p: Plan, w: World, a: Act, w': World)
    requires StateOk(p, w.state) && QuarantineInv(p, w) && Does(p, w, a, w')
    requires a.Start? || a.Fail? || a.Complete? || a.Recover?
    ensures MovedInv(w')
  {
    hide StateOk, RecordedQuarantine, CanIntend, VerifyWorkspace, InputsMatch, EndingOk, AfterRecovery, Quarantined;
    UntouchedAfter(p, w.state, a.task);
    forall name | name in w'.quarantine ensures !Recovering(w', name) {
      assert KnownName(p, w, name);
    }
    EmptyMoved(w');
  }

  lemma UntouchedAfter(p: Plan, s: State, i: nat)
    requires StateOk(p, s) && (i < |s.tasks| && s.tasks[i].status != Completed)
    ensures forall j :: i < j < |s.tasks| ==> Untouched(s.tasks[j])
  {
    hide TaskOk;
  }

  lemma MoveKeepsMoved(p: Plan, w: World, i: nat, q: Path, w': World)
    requires MovedInv(w) && Does(p, w, Move(i, q), w')
    ensures MovedInv(w')
  {
    forall name | name in w'.quarantine && Recovering(w', name)
      ensures name.source !in w'.files && NoLeader(w') && !Latest(w'.state.tasks[name.task]).guard
    {
      if name in w.quarantine {
        assert Recovering(w, name);
      } else {
        assert name == QName(i, |w.state.tasks[i].attempts|, q);
      }
    }
  }

  lemma EnvironmentIsQuiet(w: World, w': World)
    requires EnvironmentStep(w, w')
    ensures w'.state == w.state && w'.quarantine == w.quarantine
    ensures NoLeader(w) ==> NoLeader(w') && w'.files == w.files && w'.logs == w.logs
  {
    if NoLeader(w) {
      forall key | key in w.logs ensures w'.logs[key] == w.logs[key] {}
    }
  }

  lemma OtherKeepsMoved(p: Plan, w: World, a: Act, w': World)
    requires Does(p, w, a, w')
    requires !a.Start? && !a.Fail? && !a.Complete? && !a.Recover?
    requires !a.Identify? && !a.Move? && !a.Spawn? && !a.Environment?
    ensures w'.state.tasks == w.state.tasks && w'.quarantine == w.quarantine
    ensures w'.files == w.files && w'.procs == w.procs
  {
    hide CanIntend, BundleFor, VerifyWorkspace;
  }

  lemma StepKeepsMoved(p: Plan, w: World, a: Act, w': World)
    requires StateOk(p, w.state) && QuarantineInv(p, w) && MovedInv(w) && Does(p, w, a, w')
    ensures MovedInv(w')
  {
    hide StateOk, QuarantineInv, MovedInv, Does;
    match a
    case Spawn(_, _, _) => GuardStepKeepsMoved(p, w, a, w');
    case Identify(_, _, _) => GuardStepKeepsMoved(p, w, a, w');
    case Move(i, q) => MoveKeepsMoved(p, w, i, q, w');
    case Start(_, _, _) => TaskKeepsMoved(p, w, a, w');
    case Fail(_, _) => TaskKeepsMoved(p, w, a, w');
    case Complete(_, _) => TaskKeepsMoved(p, w, a, w');
    case Recover(_, _) => TaskKeepsMoved(p, w, a, w');
    case Environment =>
      EnvironmentOnly(p, w, w');
      EnvironmentIsQuiet(w, w');
      FrameKeepsMoved(w, w');
    case _ =>
      OtherKeepsMoved(p, w, a, w');
      FrameKeepsMoved(w, w');
  }
}
