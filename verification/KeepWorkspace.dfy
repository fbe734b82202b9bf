/** Version 3 histories stay derivable, and attempts only ever ran on sealed inputs. */
module KeepWorkspace {
  import opened Basics
  import opened Events
  import opened EventLog
  import opened WorkspaceTree
  import opened RunState
  import opened Lifecycle
  import opened World
  import opened Invariants
  import opened KeepLeader
  import opened KeepFiles

  // ---------------------------------------------------------------- sealed outputs

  lemma {:induction false} SealedFrame(tasks: seq<TaskState>, tasks': seq<TaskState>, i: nat)
    requires i <= |tasks| && i <= |tasks'| && forall j :: 0 <= j < i ==> tasks[j] == tasks'[j]
    ensures Sealed(tasks, i) == Sealed(tasks', i)
    decreases i
  {
    if i > 0 {
      SealedFrame(tasks, tasks', i - 1);
    }
  }

  lemma {:induction false} SealedTail(tasks: seq<TaskState>, i: nat, k: nat)
    requires i <= k <= |tasks| && forall j :: i <= j < k ==> tasks[j].status != Completed
    ensures Sealed(tasks, k) == Sealed(tasks, i)
    decreases k
  {
    if i < k {
      SealedTail(tasks, i, k - 1);
    }
  }

  lemma {:induction false} SealedSource(p: Plan, tasks: seq<TaskState>, i: nat, q: Path)
    requires TasksOk(p, tasks) && i <= |tasks| && q in Sealed(tasks, i)
    ensures exists j :: 0 <= j < i && q in p.tasks[j].outputs
    decreases i
  {
    hide AttemptOk, LatestOk;
    assert TaskOk(p, i - 1, tasks[i - 1]);
    if tasks[i - 1].status == Completed && q in tasks[i - 1].outputs {
      assert q in p.tasks[i - 1].outputs;
    } else {
      SealedSource(p, tasks, i - 1, q);
    }
  }

  /** All sealed outputs are those sealed before the first incomplete task. */
  lemma SealedBeforeFirst(p: Plan, s: State, i: nat)
    requires StateOk(p, s) && FirstIncomplete(s, i)
    ensures Sealed(s.tasks, |s.tasks|) == Sealed(s.tasks, i)
  {
    hide TaskOk;
    forall j | i <= j < |s.tasks| ensures s.tasks[j].status != Completed {
      assert j > i ==> Untouched(s.tasks[j]);
    }
    SealedTail(s.tasks, i, |s.tasks|);
  }

  /** Outputs of the first incomplete task are neither sealed nor in the baseline. */
  lemma OutputsAreNew(p: Plan, s: State, i: nat, q: Path)
    requires PlanOk(p) && StateOk(p, s) && i < |p.tasks| && q in p.tasks[i].outputs
    ensures q !in Sealed(s.tasks, i) && (p.version == 3 ==> q !in p.baseline)
  {
    hide TaskOk;
    if q in Sealed(s.tasks, i) {
      SealedSource(p, s.tasks, i, q);
      assert false;
    }
  }

  /** A clean verification before task `i` observed exactly the clean tree. */
  lemma CleanObservation(p: Plan, w: World, i: nat)
    requires StateOk(p, w.state) && FirstIncomplete(w.state, i)
    requires VerifyWorkspace(w.files, p.baseline, Sealed(w.state.tasks, |w.state.tasks|), []).Matched?
    ensures w.files == CleanTree(p, w.state.tasks, i)
  {
    hide StateOk, FirstIncomplete;
    SealedBeforeFirst(p, w.state, i);
    VerifyClean(w.files, p.baseline, Sealed(w.state.tasks, |w.state.tasks|));
  }

  // ---------------------------------------------------------------- quarantine records as a map

  lemma {:induction false} RecordsAreMoved(outputs: seq<Path>, i: nat, n: nat, quarantine: map<QName, Content>)
    requires NoRepeat(outputs)
    ensures RecordMap(Quarantined(outputs, i, n, quarantine)) == Moved(outputs, i, n, quarantine)
    decreases |outputs|
  {
    if outputs == [] {
      assert Moved(outputs, i, n, quarantine) == map[];
    } else {
      var front, q := outputs[..|outputs| - 1], outputs[|outputs| - 1];
      RecordsAreMoved(front, i, n, quarantine);
      var rs := Quarantined(front, i, n, quarantine);
      assert q !in front;
      if QName(i, n, q) in quarantine {
        var r := QRecord(q, QName(i, n, q), quarantine[QName(i, n, q)]);
        assert (rs + [r])[..|rs|] == rs;
        assert Moved(outputs, i, n, quarantine) == Moved(front, i, n, quarantine)[q := r.id];
      } else {
        assert Moved(outputs, i, n, quarantine) == Moved(front, i, n, quarantine);
      }
    }
  }

  lemma AsFilesInjective(a: map<Path, Content>, b: map<Path, Content>)
    requires AsFiles(a) == AsFiles(b)
    ensures a == b
  {
    assert a.Keys == AsFiles(a).Keys == AsFiles(b).Keys == b.Keys;
    forall q | q in a ensures a[q] == b[q] {
      assert AsFiles(a)[q] == AsFiles(b)[q];
    }
  }

  /** Adding the files of `m` to a tree without them, and recovering them again. */
  lemma AddedFiles(tree: Tree, m: map<Path, Content>, m': map<Path, Content>)
    requires m.Keys !! tree.Keys && m'.Keys !! tree.Keys
    ensures tree + AsFiles(m) == tree + AsFiles(m') <==> m == m'
  {
    if tree + AsFiles(m) == tree + AsFiles(m') {
      assert AsFiles(m) == (tree + AsFiles(m)) - tree.Keys;
      assert AsFiles(m') == (tree + AsFiles(m')) - tree.Keys;
      AsFilesInjective(m, m');
    }
  }

  lemma AsFilesPlus(tree: Tree, a: map<Path, Content>, b: map<Path, Content>)
    ensures (tree + AsFiles(a)) + AsFiles(b) == tree + AsFiles(a + b)
  {
    assert AsFiles(a) + AsFiles(b) == AsFiles(a + b);
  }

  // ---------------------------------------------------------------- histories

  lemma DerivableFrame(p: Plan, tasks: seq<TaskState>, tasks': seq<TaskState>, i: nat, a: Attempt)
    requires i <= |tasks| && i <= |tasks'| && forall j :: 0 <= j < i ==> tasks[j] == tasks'[j]
    ensures Derivable(p, tasks, i, a) == Derivable(p, tasks', i, a)
  {
    SealedFrame(tasks, tasks', i);
  }

  /** Changing the first incomplete task: only its own latest attempt has to be checked. */
  lemma HistoryUpdated(p: Plan, s: State, i: nat, t: TaskState, torn: set<(nat, nat)>, torn': set<(nat, nat)>)
    requires StateOk(p, s) && FirstIncomplete(s, i) && HistoryInv(p, s.tasks, torn)
    requires t.attempts != [] && |t.attempts| - 1 <= |s.tasks[i].attempts|
    requires forall k :: 0 <= k < |t.attempts| - 1 ==> t.attempts[k] == s.tasks[i].attempts[k]
    requires Derivable(p, s.tasks, i, Latest(t)) <==> (i, |t.attempts|) !in torn'
    requires forall o :: o != (i, |t.attempts|) ==> (o in torn <==> o in torn')
    ensures HistoryInv(p, s.tasks[i := t], torn')
  {
    hide StateOk, Derivable;
    UntouchedAfter(p, s, i);
    var tasks' := s.tasks[i := t];
    forall j: nat, k: nat | j < |tasks'| && k < |tasks'[j].attempts|
      ensures Derivable(p, tasks', j, tasks'[j].attempts[k]) <==> (j, k + 1) !in torn'
    {
      DerivableFrame(p, s.tasks, tasks', j, tasks'[j].attempts[k]);
      if j != i || k < |t.attempts| - 1 {
        assert tasks'[j].attempts[k] == s.tasks[j].attempts[k];
        assert (j, k + 1) != (i, |t.attempts|);
      }
    }
  }

  /** The latest attempt of a task that still runs or has just failed is not torn. */
  lemma LatestIsWhole(p: Plan, w: World, i: nat)
    requires StateOk(p, w.state) && TornInv(w) && i < |w.state.tasks| && w.state.tasks[i].status != Pending
    ensures w.state.tasks[i].attempts != [] && (i, |w.state.tasks[i].attempts|) !in w.torn
  {
    hide StateOk;
    LatestRecord(p, w.state, i);
  }

  lemma StartKeepsHistory(p: Plan, w: World, a: Act, w': World)
    requires PlanOk(p) && p.version == 3 && StateOk(p, w.state) && TornInv(w) && HistoryInv(p, w.state.tasks, w.torn)
    requires a.Start? && Does(p, w, a, w')
    ensures HistoryInv(p, w'.state.tasks, w'.torn)
  {
    hide PlanOk, StateOk, HistoryInv, InputsMatch, VerifyWorkspace, CanIntend;
    var i := a.task;
    CleanObservation(p, w, i);
    HistoryUpdated(p, w.state, i, w'.state.tasks[i], w.torn, w'.torn);
  }

  /** Ending or identifying an attempt without outputs or quarantine keeps it derivable. */
  lemma EndedKeepsHistory(p: Plan, w: World, i: nat, a: Attempt, t: TaskState)
    requires StateOk(p, w.state) && TornInv(w) && HistoryInv(p, w.state.tasks, w.torn)
    requires FirstIncomplete(w.state, i) && w.state.tasks[i].status == Running && w.state.tasks[i].attempts != []
    requires a.before == Latest(w.state.tasks[i]).before && a.quarantined.None? && a.status != ACompleted
    requires t.attempts == w.state.tasks[i].attempts[|w.state.tasks[i].attempts| - 1 := a]
    ensures HistoryInv(p, w.state.tasks[i := t], w.torn)
  {
    hide StateOk, TornInv;
    LatestIsWhole(p, w, i);
    assert Derivable(p, w.state.tasks, i, w.state.tasks[i].attempts[|w.state.tasks[i].attempts| - 1]);
    HistoryUpdated(p, w.state, i, t, w.torn, w.torn);
  }

  lemma FailKeepsHistory(p: Plan, w: World, a: Act, w': World)
    requires PlanOk(p) && p.version == 3 && StateOk(p, w.state) && TornInv(w) && HistoryInv(p, w.state.tasks, w.torn)
    requires (a.Fail? || a.Identify?) && Does(p, w, a, w')
    ensures HistoryInv(p, w'.state.tasks, w'.torn)
  {
    hide PlanOk, StateOk, CanIntend, TornInv, HistoryInv;
    var i := a.task;
    LatestRecord(p, w.state, i);
    RunningStatus(p, w, i);
    EndedKeepsHistory(p, w, i, Latest(w'.state.tasks[i]), w'.state.tasks[i]);
  }

  lemma RunningStatus(p: Plan, w: World, i: nat)
    requires StateOk(p, w.state) && i < |w.state.tasks|
    requires w.state.tasks[i].status == Running && w.state.tasks[i].attempts != []
    ensures Latest(w.state.tasks[i]).status == ARunning && Latest(w.state.tasks[i]).after.None?
  {
    assert TaskOk(p, i, w.state.tasks[i]);
    assert AttemptOk(p, i, |w.state.tasks[i].attempts| - 1, Latest(w.state.tasks[i]));
  }

  lemma SealedOutputsDerivable(p: Plan, w: World, i: nat, outputs: map<Path, Content>, a: Attempt, t: TaskState)
    requires StateOk(p, w.state) && TornInv(w) && HistoryInv(p, w.state.tasks, w.torn)
    requires FirstIncomplete(w.state, i) && w.state.tasks[i].status == Running && w.state.tasks[i].attempts != []
    requires a.before == Latest(w.state.tasks[i]).before && a.status == ACompleted && a.outputs == Some(outputs)
    requires a.after == Some(w.files)
    requires VerifyWorkspace(w.files, p.baseline, Sealed(w.state.tasks, |w.state.tasks|) + outputs, []).Matched?
    requires t.attempts == w.state.tasks[i].attempts[|w.state.tasks[i].attempts| - 1 := a]
    ensures HistoryInv(p, w.state.tasks[i := t], w.torn)
  {
    hide StateOk, TornInv, VerifyWorkspace;
    LatestIsWhole(p, w, i);
    SealedBeforeFirst(p, w.state, i);
    VerifyClean(w.files, p.baseline, Sealed(w.state.tasks, |w.state.tasks|) + outputs);
    assert Derivable(p, w.state.tasks, i, w.state.tasks[i].attempts[|w.state.tasks[i].attempts| - 1]);
    HistoryUpdated(p, w.state, i, t, w.torn, w.torn);
  }

  lemma CompleteKeepsHistory(p: Plan, w: World, a: Act, w': World)
    requires PlanOk(p) && p.version == 3 && StateOk(p, w.state) && TornInv(w) && HistoryInv(p, w.state.tasks, w.torn)
    requires a.Complete? && Does(p, w, a, w')
    ensures HistoryInv(p, w'.state.tasks, w'.torn)
  {
    hide PlanOk, StateOk, CanIntend, TornInv, HistoryInv, VerifyWorkspace, Sealed;
    var i := a.task;
    SealedOutputsDerivable(p, w, i, a.outputs, Latest(w'.state.tasks[i]), w'.state.tasks[i]);
  }

  /** The tree a recovery records agrees with the quarantine exactly when it does not tear. */
  lemma RecoveredTree(p: Plan, w: World, i: nat, seen: map<Path, Content>)
    requires PlanOk(p) && p.version == 3 && StateOk(p, w.state) && FailedInv(p, w) && CanRecover(p, w, i, seen)
    ensures w.files == CleanTree(p, w.state.tasks, i)
    ensures AfterRecovery(p, w, i, seen)
         == Some(p.baseline + AsFiles(Sealed(w.state.tasks, i) +
             RecordMap(Quarantined(p.tasks[i].outputs, i, |w.state.tasks[i].attempts|, w.quarantine))))
       <==> !Tears(p, w, i, seen)
  {
    var outputs, n := p.tasks[i].outputs, |w.state.tasks[i].attempts|;
    var moved := Moved(outputs, i, n, w.quarantine);
    assert NoRepeat(outputs);
    assert moved.Keys !! w.files.Keys && seen.Keys !! w.files.Keys;
    var t := w.state.tasks[i];
    hide PlanOk, StateOk, VerifyWorkspace, Moved, Quarantined;
    CleanObservation(p, w, i);
    RecordsAreMoved(outputs, i, n, w.quarantine);
    AsFilesPlus(p.baseline, Sealed(w.state.tasks, i), moved);
    AddedFiles(w.files, seen, moved);
    if t.status == Running {
      RunningStatus(p, w, i);
    }
  }

  lemma RecoverKeepsHistory(p: Plan, w: World, a: Act, w': World)
    requires PlanOk(p) && p.version == 3 && StateOk(p, w.state) && WorkspaceInv(p, w)
    requires a.Recover? && Does(p, w, a, w')
    ensures HistoryInv(p, w'.state.tasks, w'.torn)
  {
    hide PlanOk, StateOk, CanIntend, FailedInv, TornInv, CanRecover, AfterRecovery, Quarantined, Tears;
    hide CleanTree, RecordMap, Sealed;
    var i := a.task;
    RecoverContext(p, w, i, a.seen, w');
    LatestIsWhole(p, w, i);
    RecoveredTree(p, w, i, a.seen);
    assert Derivable(p, w.state.tasks, i, w.state.tasks[i].attempts[|w.state.tasks[i].attempts| - 1]);
    HistoryUpdated(p, w.state, i, w'.state.tasks[i], w.torn, w'.torn);
  }

  lemma RecoverContext(p: Plan, w: World, i: nat, seen: map<Path, Content>, w': World)
    requires StateOk(p, w.state) && Does(p, w, Recover(i, seen), w')
    ensures FirstIncomplete(w.state, i) && i < |p.tasks| && CanRecover(p, w, i, seen)
    ensures w.state.tasks[i].status == Running || w.state.tasks[i].status == Failed
    ensures Interrupted(p, Latest(w.state.tasks[i])).status != ACompleted
  {
    hide CanIntend, VerifyWorkspace, Moved, Quarantined, AfterRecovery;
    assert TaskOk(p, i, w.state.tasks[i]);
  }

  lemma StepKeepsHistory(p: Plan, w: World, a: Act, w': World)
    requires PlanOk(p) && p.version == 3 && StateOk(p, w.state) && WorkspaceInv(p, w) && Does(p, w, a, w')
    ensures HistoryInv(p, w'.state.tasks, w'.torn)
  {
    hide PlanOk, StateOk, TornInv, HistoryInv, FailedInv, Does;
    match a
    case Start(_, _, _) => StartKeepsHistory(p, w, a, w');
    case Fail(_, _) => FailKeepsHistory(p, w, a, w');
    case Identify(_, _, _) => FailKeepsHistory(p, w, a, w');
    case Complete(_, _) => CompleteKeepsHistory(p, w, a, w');
    case Recover(_, _) => RecoverKeepsHistory(p, w, a, w');
    case _ => OtherKeepsTasks(p, w, a, w');
  }

  lemma OtherKeepsTasks(p: Plan, w: World, a: Act, w': World)
    requires Does(p, w, a, w')
    requires !a.Start? && !a.Fail? && !a.Complete? && !a.Recover? && !a.Identify?
    ensures w'.state.tasks == w.state.tasks && w'.torn == w.torn
    ensures a.Move? || a.Environment? || (w'.files == w.files && w'.quarantine == w.quarantine)
  {
    hide CanIntend, BundleFor, VerifyWorkspace, Recoverable;
  }

  // ---------------------------------------------------------------- torn attempts

  lemma TaskKeepsTorn(p: Plan, w: World, a: Act, w': World)
    requires StateOk(p, w.state) && TornInv(w) && Does(p, w, a, w')
    requires a.Start? || a.Fail? || a.Complete? || a.Recover? || a.Identify?
    ensures TornInv(w')
  {
    hide StateOk, CanIntend, VerifyWorkspace, InputsMatch, EndingOk, AfterRecovery, Quarantined, Tears, Moved, HasLogs;
    LatestRecord(p, w.state, a.task);
  }

  lemma StepKeepsTorn(p: Plan, w: World, a: Act, w': World)
    requires StateOk(p, w.state) && TornInv(w) && Does(p, w, a, w')
    ensures TornInv(w')
  {
    hide StateOk, Does;
    if a.Start? || a.Fail? || a.Complete? || a.Recover? || a.Identify? {
      hide TornInv;
      TaskKeepsTorn(p, w, a, w');
    } else {
      OtherKeepsTasks(p, w, a, w');
    }
  }

  // ---------------------------------------------------------------- failed attempts

  lemma MovedAfter(outputs: seq<Path>, i: nat, n: nat, quarantine: map<QName, Content>, q: Path, id: Content)
    requires q in outputs
    ensures Moved(outputs, i, n, quarantine[QName(i, n, q) := id]) == Moved(outputs, i, n, quarantine)[q := id]
  {
    var quarantine' := quarantine[QName(i, n, q) := id];
    forall r | r in outputs ensures QName(i, n, r) in quarantine' <==> r == q || QName(i, n, r) in quarantine {
    }
  }

  lemma SwapFile(tree: Tree, m: map<Path, Content>, q: Path)
    requires q in tree && tree[q].File? && q !in m
    ensures (tree - {q}) + AsFiles(m[q := tree[q].id]) == tree + AsFiles(m)
  {
    assert AsFiles(m[q := tree[q].id]) == AsFiles(m)[q := tree[q]];
  }

  lemma MoveKeepsView(tree: Tree, outputs: seq<Path>, i: nat, n: nat, quarantine: map<QName, Content>, q: Path)
    requires q in outputs && q in tree && tree[q].File? && QName(i, n, q) !in quarantine
    ensures (tree - {q}) + AsFiles(Moved(outputs, i, n, quarantine[QName(i, n, q) := tree[q].id]))
         == tree + AsFiles(Moved(outputs, i, n, quarantine))
  {
    var m := Moved(outputs, i, n, quarantine);
    assert q !in m;
    hide Moved;
    MovedAfter(outputs, i, n, quarantine, q, tree[q].id);
    SwapFile(tree, m, q);
  }

  lemma MoveKeepsFailed(p: Plan, w: World, i: nat, q: Path, w': World)
    requires FailedInv(p, w) && Does(p, w, Move(i, q), w')
    ensures FailedInv(p, w')
  {
    hide Moved;
    MoveKeepsView(w.files, p.tasks[i].outputs, i, |w.state.tasks[i].attempts|, w.quarantine, q);
  }

  lemma FailKeepsFailed(p: Plan, w: World, i: nat, e: Ending, w': World)
    requires p.version == 3 && Does(p, w, Fail(i, e), w')
    ensures FailedInv(p, w')
  {
    hide CanIntend, EndingOk;
    assert Moved(p.tasks[i].outputs, i, |w.state.tasks[i].attempts|, w.quarantine) == map[];
    assert w.files + AsFiles(map[]) == w.files;
    forall j: nat | FirstIncomplete(w'.state, j) ensures j == i {
      assert w'.state.tasks[i].status != Completed;
    }
  }

  lemma EnvironmentKeepsFailed(p: Plan, w: World, w': World)
    requires StateOk(p, w.state) && LeaderInv(w) && FailedInv(p, w) && EnvironmentStep(w, w')
    ensures FailedInv(p, w')
  {
    hide StateOk, LeaderInv, Moved;
    forall i: nat | FirstIncomplete(w.state, i) && w.state.tasks[i].status == Failed ensures w'.files == w.files {
      NoLeaderUnlessRunning(p, w, i);
    }
  }

  /** After a start, completion, recovery or identification no task is failed. */
  lemma NoneFailed(p: Plan, w: World, a: Act, w': World)
    requires StateOk(p, w.state) && Does(p, w, a, w')
    requires a.Start? || a.Complete? || a.Recover? || a.Identify?
    ensures FailedInv(p, w')
  {
    hide CanIntend, VerifyWorkspace, InputsMatch, AfterRecovery, Quarantined, TaskOk;
    UntouchedAfter(p, w.state, a.task);
    assert forall j: nat :: FirstIncomplete(w'.state, j) ==> w'.state.tasks[j].status != Failed;
  }

  lemma StepKeepsFailed(p: Plan, w: World, a: Act, w': World)
    requires p.version == 3 && StateOk(p, w.state) && LeaderInv(w) && FailedInv(p, w) && Does(p, w, a, w')
    ensures FailedInv(p, w')
  {
    hide StateOk, LeaderInv, FailedInv, Does;
    match a
    case Move(i, q) => MoveKeepsFailed(p, w, i, q, w');
    case Fail(i, e) => FailKeepsFailed(p, w, i, e, w');
    case Environment =>
      EnvironmentOnly(p, w, w');
      EnvironmentKeepsFailed(p, w, w');
    case Start(_, _, _) => NoneFailed(p, w, a, w');
    case Complete(_, _) => NoneFailed(p, w, a, w');
    case Recover(_, _) => NoneFailed(p, w, a, w');
    case Identify(_, _, _) => NoneFailed(p, w, a, w');
    case _ =>
      OtherKeepsTasks(p, w, a, w');
      FailedFrame(p, w, w');
  }

  lemma FailedFrame(p: Plan, w: World, w': World)
    requires FailedInv(p, w) && w'.state.tasks == w.state.tasks && w'.files == w.files && w'.quarantine == w.quarantine
    ensures FailedInv(p, w')
  {
    hide Moved;
    forall i: nat | FirstIncomplete(w'.state, i) ensures FirstIncomplete(w.state, i) {}
  }

  lemma StepKeepsWorkspace(p: Plan, w: World, a: Act, w': World)
    requires PlanOk(p) && StateOk(p, w.state) && LeaderInv(w) && WorkspaceInv(p, w) && Does(p, w, a, w')
    ensures WorkspaceInv(p, w')
  {
    hide PlanOk, StateOk, LeaderInv, FailedInv, TornInv, HistoryInv, Does;
    StepKeepsTorn(p, w, a, w');
    if p.version == 3 {
      StepKeepsHistory(p, w, a, w');
      StepKeepsFailed(p, w, a, w');
    }
  }

  // ---------------------------------------------------------------- inputs

  lemma ExpectedFrame(p: Plan, s: State, s': State, i: nat, q: Path)
    requires i <= |s.tasks| && i <= |s'.tasks| && forall j :: 0 <= j < i ==> s.tasks[j] == s'.tasks[j]
    ensures ExpectedInput(p, s, i, q) == ExpectedInput(p, s', i, q)
  {
    SealedFrame(s.tasks, s'.tasks, i);
  }

  lemma UpdateKeepsInputs(p: Plan, w: World, i: nat, t: TaskState, w': World)
    requires StateOk(p, w.state) && InputsInv(p, w) && FirstIncomplete(w.state, i)
    requires w'.state.tasks == w.state.tasks[i := t]
    requires forall k :: 0 <= k < |t.attempts| ==>
      || (k < |w.state.tasks[i].attempts| && t.attempts[k].inputs == w.state.tasks[i].attempts[k].inputs)
      || forall q :: q in t.attempts[k].inputs ==> ExpectedInput(p, w.state, i, q) == Some(t.attempts[k].inputs[q])
    ensures InputsInv(p, w')
  {
    hide StateOk, ExpectedInput;
    UntouchedAfter(p, w.state, i);
    forall j, k, q | 0 <= j < |w'.state.tasks| && 0 <= k < |w'.state.tasks[j].attempts| &&
        q in w'.state.tasks[j].attempts[k].inputs
      ensures ExpectedInput(p, w'.state, j, q) == Some(w'.state.tasks[j].attempts[k].inputs[q])
    {
      ExpectedFrame(p, w.state, w'.state, j, q);
    }
  }

  lemma TaskKeepsInputs(p: Plan, w: World, a: Act, w': World)
    requires StateOk(p, w.state) && InputsInv(p, w) && Does(p, w, a, w')
    requires a.Start? || a.Fail? || a.Complete? || a.Recover? || a.Identify?
    ensures InputsInv(p, w')
  {
    hide StateOk, InputsInv, CanIntend, VerifyWorkspace, EndingOk, AfterRecovery, Quarantined, ExpectedInput;
    UpdateKeepsInputs(p, w, a.task, w'.state.tasks[a.task], w');
  }

  lemma StepKeepsInputs(p: Plan, w: World, a: Act, w': World)
    requires StateOk(p, w.state) && InputsInv(p, w) && Does(p, w, a, w')
    ensures InputsInv(p, w')
  {
    hide StateOk, Does;
    if a.Start? || a.Fail? || a.Complete? || a.Recover? || a.Identify? {
      hide InputsInv;
      TaskKeepsInputs(p, w, a, w');
    } else {
      OtherKeepsTasks(p, w, a, w');
    }
  }

  // ---------------------------------------------------------------- bundles

  lemma StepKeepsBundle(p: Plan, w: World, a: Act, w': World)
    requires StateOk(p, w.state) && LeaderInv(w) && BundleInv(p, w) && Does(p, w, a, w')
    ensures BundleInv(p, w')
  {
    hide TaskOk, LeaderInv, BundleFor, CanIntend, VerifyWorkspace, EndingOk, InputsMatch, AfterRecovery, Quarantined;
    if w.bundle.Some? {
      NoLeaderWhenDone(p, w);
      SealedIsFinal(p, w, a, w');
      BundleFrame(p, w, w', w.bundle.value);
    } else if a.Seal? {
      BundleFrame(p, w, w', a.bundle);
    }
  }

  lemma BundleFrame(p: Plan, w: World, w': World, b: Bundle)
    requires |w.state.tasks| == |p.tasks| && BundleFor(p, w, b)
    requires w'.state == w.state && w'.log == w.log && w'.logs == w.logs
    requires w'.quarantine == w.quarantine && w'.files == w.files
    ensures BundleFor(p, w', b)
  {
    forall a | ArtifactExists(w', a) ensures exists k :: 0 <= k < |b.artifacts| && b.artifacts[k].path == a {
      assert ArtifactExists(w, a);
    }
  }

  /** Nothing but unrelated processes changes once a run is sealed. */
  lemma SealedIsFinal(p: Plan, w: World, a: Act, w': World)
    requires AllCompleted(w.state) && NoLeader(w) && w.bundle.Some? && w.state.pending.None? && Does(p, w, a, w')
    ensures w' == w.(procs := w'.procs)
  {
    hide BundleFor, RecordOk, VerifyWorkspace, EndingOk, InputsMatch, AfterRecovery, Quarantined;
    if a.Environment? {
      assert w'.logs == w.logs;
    }
  }
}
