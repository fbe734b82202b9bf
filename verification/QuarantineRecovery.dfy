/** Quarantine recovery: conservation, crash idempotence and the one history it can tear. */
module QuarantineRecovery {
  import opened Basics
  import opened Events
  import opened EventLog
  import opened WorkspaceTree
  import opened RunState
  import opened Lifecycle
  import opened World
  import opened Invariants
  import opened KeepLog
  import opened KeepFiles
  import opened KeepWorkspace
  import opened Runs
  import opened Load

  /** The quarantine records of the partial outputs `view`, in output order. */
  function ListOf(outputs: seq<Path>, i: nat, n: nat, view: map<Path, Content>): seq<QRecord>
  {
    if outputs == [] then []
    else
      var q := outputs[|outputs| - 1];
      ListOf(outputs[..|outputs| - 1], i, n, view) + (if q in view then [QRecord(q, QName(i, n, q), view[q])] else [])
  }

  lemma {:induction false} ListDependsOnView(outputs: seq<Path>, all: seq<Path>, i: nat, n: nat, quarantine: map<QName,
      Content>)
    requires forall q :: q in outputs ==> q in all
    ensures Quarantined(outputs, i, n, quarantine) == ListOf(outputs, i, n, Moved(all, i, n, quarantine))
  {
    if outputs != [] {
      ListDependsOnView(outputs[..|outputs| - 1], all, i, n, quarantine);
    }
  }

  /** The latest attempt `n` of task `i` awaits recovery and its child is gone. */
  ghost predicate InRecovery(p: Plan, w: World, i: nat, n: nat)
  {
    && i < |p.tasks| && FirstIncomplete(w.state, i)
    && (w.state.tasks[i].status == Running || w.state.tasks[i].status == Failed)
    && w.state.tasks[i].attempts != [] && |w.state.tasks[i].attempts| == n
    && !Latest(w.state.tasks[i]).guard
    && NoLeader(w)
  }

  lemma ViewFrame(outputs: seq<Path>, files: Tree, q: Path, m: map<Path, Content>)
    requires q in outputs && q in files && files[q].File? && q !in m
    ensures m[q := files[q].id] + Present(files - {q}, outputs) == m + Present(files, outputs)
  {
    var x, y := m[q := files[q].id] + Present(files - {q}, outputs), m + Present(files, outputs);
    assert x.Keys == y.Keys;
    assert forall r :: r in x ==> x[r] == y[r];
  }

  lemma MovePreservesView(p: Plan, w: World, i: nat, q: Path, w': World)
    requires i < |p.tasks| && Does(p, w, Move(i, q), w')
    ensures i < |w.state.tasks| && w'.state == w.state && View(p, w', i) == View(p, w, i)
  {
    hide Moved, Present;
    var outputs, n := p.tasks[i].outputs, |w.state.tasks[i].attempts|;
    MovedAfter(outputs, i, n, w.quarantine, q, w.files[q].id);
    NotMoved(outputs, i, n, w.quarantine, q);
    ViewFrame(outputs, w.files, q, Moved(outputs, i, n, w.quarantine));
  }

  lemma NotMoved(outputs: seq<Path>, i: nat, n: nat, quarantine: map<QName, Content>, q: Path)
    ensures q in Moved(outputs, i, n, quarantine) <==> q in outputs && QName(i, n, q) in quarantine
  {
  }

  /** While the attempt awaits recovery, no step of any session changes its partial outputs. */
  lemma StepKeepsView(p: Plan, w: World, a: Act, w': World, i: nat, n: nat)
    requires StateOk(p, w.state) && LeaderInv(w) && InRecovery(p, w, i, n) && Does(p, w, a, w')
    requires i < |w'.state.tasks| && |w'.state.tasks[i].attempts| == n
    requires w'.state.tasks[i].status == Running || w'.state.tasks[i].status == Failed
    ensures InRecovery(p, w', i, n) && View(p, w', i) == View(p, w, i)
  {
    hide StateOk, LeaderInv, CanIntend, BundleFor, VerifyWorkspace, EndingOk, InputsMatch, AfterRecovery;
    hide Quarantined, Moved, Present;
    RecoveryActs(p, w, a, w', i);
    if a.Move? {
      MovePreservesView(p, w, i, a.source, w');
    } else if a.Environment? {
      EnvironmentIsQuiet(w, w');
    }
  }

  lemma RecoveryActs(p: Plan, w: World, a: Act, w': World, i: nat)
    requires i < |w.state.tasks| && w.state.tasks[i].attempts != []
    requires !Latest(w.state.tasks[i]).guard && NoLeader(w) && FirstIncomplete(w.state, i)
    requires w.state.tasks[i].status == Running || w.state.tasks[i].status == Failed
    requires Does(p, w, a, w') && i < |w'.state.tasks|
    requires (w'.state.tasks[i].status == Running || w'.state.tasks[i].status == Failed)
    ensures !a.Start? && !a.Complete? && !a.Recover? && !a.Spawn? && !a.Identify? && !a.MakeLog?
    ensures (a.Fail? || a.Move?) ==> a.task == i
  {
    hide CanIntend, BundleFor, VerifyWorkspace, EndingOk, InputsMatch, AfterRecovery, Quarantined;
    match a
    case Start(j, _, _) => OneFirst(w.state, i, j);
    case Complete(j, _) => OneFirst(w.state, i, j);
    case Recover(j, _) => OneFirst(w.state, i, j);
    case Spawn(j, _, _) => OneFirst(w.state, i, j);
    case Identify(j, _, _) => OneFirst(w.state, i, j);
    case MakeLog(key) => OneFirst(w.state, i, key.task);
    case Fail(j, _) => OneFirst(w.state, i, j);
    case Move(j, _) => OneFirst(w.state, i, j);
    case _ =>
  }

  lemma OneFirst(s: State, i: nat, j: nat)
    ensures FirstIncomplete(s, i) && FirstIncomplete(s, j) ==> i == j
  {
  }

  lemma {:induction false} RunKeepsView(p: Plan, ws: seq<World>, j: nat, k: nat, i: nat, n: nat)
    requires PlanOk(p) && Run(p, ws) && j <= k < |ws| && InRecovery(p, ws[j], i, n)
    requires forall m :: j <= m <= k ==> i < |ws[m].state.tasks| && |ws[m].state.tasks[i].attempts| == n
                                         && (ws[m].state.tasks[i].status == Running ||
                                               ws[m].state.tasks[i].status == Failed)
    ensures InRecovery(p, ws[k], i, n) && View(p, ws[k], i) == View(p, ws[j], i)
    decreases k
  {
    hide PlanOk, StateOk, LogInv, ReplayInv, LeaderInv, QuarantineInv, MovedInv, LogFilesInv, WorkspaceInv;
    hide InputsInv, BundleInv, Does, Init, View, InRecovery;
    if j < k {
      RunKeepsView(p, ws, j, k - 1, i, n);
      RunInv(p, ws, k - 1);
      assert Next(p, ws[k - 1], ws[k - 1 + 1]);
      var a :| Does(p, ws[k - 1], a, ws[k]);
      StepKeepsView(p, ws[k - 1], a, ws[k], i, n);
    }
    BothViews(p, ws[j], ws[k], i, n);
  }

  lemma BothViews(p: Plan, w: World, w': World, i: nat, n: nat)
    requires InRecovery(p, w, i, n) && InRecovery(p, w', i, n)
    ensures i < |p.tasks| && i < |w.state.tasks| && i < |w'.state.tasks|
  {
  }

  /** A recovery, however often it was interrupted and rerun since world `j`, records exactly the
      partial outputs of world `j`: the list an uninterrupted recovery would have recorded. */
  lemma RecoveryIsCrashIdempotent(p: Plan, ws: seq<World>, j: nat, k: nat, i: nat, n: nat, seen: map<Path, Content>)
    requires PlanOk(p) && Run(p, ws) && j <= k && k + 1 < |ws| && InRecovery(p, ws[j], i, n)
    requires forall m :: j <= m <= k ==> i < |ws[m].state.tasks| && |ws[m].state.tasks[i].attempts| == n
                                         && (ws[m].state.tasks[i].status == Running ||
                                               ws[m].state.tasks[i].status == Failed)
    requires Does(p, ws[k], Recover(i, seen), ws[k + 1])
    ensures i < |ws[k + 1].state.tasks| && ws[k + 1].state.tasks[i].attempts != []
    ensures Latest(ws[k + 1].state.tasks[i]).quarantined == Some(ListOf(p.tasks[i].outputs, i, n, View(p, ws[j], i)))
    ensures forall q :: q in View(p, ws[j], i) ==>
      QName(i, n, q) in ws[k + 1].quarantine && ws[k + 1].quarantine[QName(i, n, q)] == View(p, ws[j], i)[q]
  {
    hide PlanOk, Run, ListOf;
    RunKeepsView(p, ws, j, k, i, n);
    RecoverRecords(p, ws[k], i, seen, ws[k + 1]);
  }

  lemma RecoverRecords(p: Plan, w: World, i: nat, seen: map<Path, Content>, w': World)
    requires Does(p, w, Recover(i, seen), w') && i < |p.tasks|
    ensures i < |w.state.tasks| == |w'.state.tasks| && w'.state.tasks[i].attempts != [] && w'.quarantine == w.quarantine
    ensures View(p, w, i) == Moved(p.tasks[i].outputs, i, |w.state.tasks[i].attempts|, w.quarantine)
    ensures Latest(w'.state.tasks[i]).quarantined ==
        Some(ListOf(p.tasks[i].outputs, i, |w.state.tasks[i].attempts|, View(p, w, i)))
  {
    hide CanIntend, VerifyWorkspace, AfterRecovery, Tears, ListOf, Quarantined;
    var outputs, n := p.tasks[i].outputs, |w.state.tasks[i].attempts|;
    assert Present(w.files, outputs) == map[];
    assert Moved(outputs, i, n, w.quarantine) + map[] == Moved(outputs, i, n, w.quarantine);
    ListDependsOnView(outputs, outputs, i, n, w.quarantine);
  }

  // ---------------------------------------------------------------- a rerun accepts the half-moved tree

  lemma VerifyWithout(files: Tree, baseline: Tree, completed: map<Path, Content>, volatile: seq<Path>, q: Path)
    requires q in volatile && q in files && files[q].File?
    ensures VerifyWorkspace(files - {q}, baseline, completed, volatile).Matched?
       <==> VerifyWorkspace(files, baseline, completed, volatile).Matched?
  {
    var rest := files - {q};
    var expected := baseline + AsFiles(completed);
    assert expected.Keys <= rest.Keys && q !in expected ==> expected.Keys <= files.Keys;
    assert q !in expected ==> (expected.Keys <= files.Keys ==> forall r :: r in expected ==> r in rest.Keys);
  }

  /** Whatever has been moved so far, the observation a recovery starts from is accepted again. */
  lemma MoveKeepsObservable(p: Plan, w: World, i: nat, q: Path, w': World)
    requires i < |p.tasks| && Does(p, w, Move(i, q), w')
    ensures i < |w.state.tasks| && w'.state == w.state && w.state.tasks[i].attempts != []
    ensures RecoveryObservable(p, w, i) ==> RecoveryObservable(p, w', i)
  {
    hide View, VerifyWorkspace, SplitOutputs, Project, Does, Sealed;
    MoveFacts(p, w, i, q, w');
    MovePreservesView(p, w, i, q, w');
    VerifyWithout(w.files, p.baseline, Sealed(w.state.tasks, |w.state.tasks|), p.tasks[i].outputs, q);
  }

  lemma MoveFacts(p: Plan, w: World, i: nat, q: Path, w': World)
    requires i < |p.tasks| && Does(p, w, Move(i, q), w')
    ensures i < |w.state.tasks| && w.state.tasks[i].attempts != [] && w'.state == w.state
    ensures q in p.tasks[i].outputs && q in w.files && w.files[q].File? && w'.files == w.files - {q}
    ensures SplitOutputs(p, w, i) ==> SplitOutputs(p, w', i)
  {
  }

  lemma ViewIsDisjoint(p: Plan, w: World, i: nat)
    requires i < |p.tasks| && i < |w.state.tasks| && MovedInv(w)
    requires w.state.tasks[i].status == Failed && w.state.tasks[i].attempts != []
    ensures SplitOutputs(p, w, i)
    ensures Moved(p.tasks[i].outputs, i, |w.state.tasks[i].attempts|, w.quarantine).Keys !! Present(w.files,
        p.tasks[i].outputs).Keys
  {
    forall q | q in p.tasks[i].outputs && QName(i, |w.state.tasks[i].attempts|, q) in w.quarantine
        ensures q !in w.files {
      assert Recovering(w, QName(i, |w.state.tasks[i].attempts|, q));
    }
  }

  lemma AsFilesSum(a: map<Path, Content>, b: map<Path, Content>)
    ensures AsFiles(a + b) == AsFiles(a) + AsFiles(b)
  {
    assert AsFiles(a + b).Keys == (AsFiles(a) + AsFiles(b)).Keys;
  }

  lemma SumSwap(a: map<Path, Content>, b: map<Path, Content>, c: map<Path, Content>)
    requires b.Keys !! c.Keys
    ensures a + (b + c) == (a + c) + b
  {
    assert (a + (b + c)).Keys == ((a + c) + b).Keys;
  }

  lemma SumAssoc(a: Tree, b: Tree, c: Tree)
    ensures a + (b + c) == (a + b) + c
  {
    assert (a + (b + c)).Keys == ((a + b) + c).Keys;
  }

  lemma ProjectBack(baseline: Tree, sealed: map<Path, Content>, present: map<Path, Content>, moved: map<Path, Content>)
    requires Project(baseline, sealed + present).Some?
    requires moved.Keys !! present.Keys && moved.Keys !! baseline.Keys
    ensures Project(baseline, sealed + (moved + present)) ==
        Some(Project(baseline, sealed + present).value + AsFiles(moved))
  {
    hide AsFiles;
    var y := sealed + present;
    SumSwap(sealed, moved, present);
    AsFilesSum(y, moved);
    SumAssoc(baseline, AsFiles(y), AsFiles(moved));
    assert (y + moved).Keys == y.Keys + moved.Keys;
  }

  /** For a recorded observation the rerun reconstructs exactly the recorded tree, however many files
      were moved before: it is accepted if and only if nothing but partial outputs drifted. */
  lemma RecordedIsReconstructed(p: Plan, w: World, i: nat)
    requires PlanOk(p) && Inv(p, w) && p.version == 3 && i < |p.tasks|
    requires FirstIncomplete(w.state, i) && w.state.tasks[i].status == Failed && w.state.tasks[i].attempts != []
    ensures RecoveryObservable(p, w, i)
       <==> VerifyWorkspace(w.files, p.baseline, Sealed(w.state.tasks, |w.state.tasks|), p.tasks[i].outputs).Matched?
  {
    hide PlanOk, StateOk, LogInv, ReplayInv, LeaderInv, QuarantineInv, MovedInv, LogFilesInv, HistoryInv;
    hide TornInv, InputsInv, BundleInv;
    hide VerifyWorkspace, Sealed, Moved, Present, Project, SplitOutputs, AsFiles;
    var sealed, outputs := Sealed(w.state.tasks, |w.state.tasks|), p.tasks[i].outputs;
    var n := |w.state.tasks[i].attempts|;
    var moved := Moved(outputs, i, n, w.quarantine);
    ViewIsDisjoint(p, w, i);
    if VerifyWorkspace(w.files, p.baseline, sealed, outputs).Matched? {
      MatchedIsProjection(w.files, p.baseline, sealed, outputs);
      MovedIsApart(p, w, i);
      ProjectBack(p.baseline, sealed, Present(w.files, outputs), moved);
      LatestEnded(p, w.state, i);
    }
  }

  lemma LatestEnded(p: Plan, s: State, i: nat)
    requires StateOk(p, s) && i < |s.tasks| && s.tasks[i].status == Failed && s.tasks[i].attempts != []
    ensures Latest(s.tasks[i]).status != ARunning
  {
    assert TaskOk(p, i, s.tasks[i]);
  }

  /** The outputs of an incomplete task collide with neither the baseline nor the sealed outputs. */
  lemma MovedIsApart(p: Plan, w: World, i: nat)
    requires PlanOk(p) && p.version == 3 && StateOk(p, w.state) && i < |p.tasks| && FirstIncomplete(w.state, i)
    ensures var moved := Moved(p.tasks[i].outputs, i, |w.state.tasks[i].attempts|, w.quarantine);
      moved.Keys !! Sealed(w.state.tasks, |w.state.tasks|).Keys && moved.Keys !! p.baseline.Keys
  {
    hide Sealed, TaskOk;
    SealedBeforeFirst(p, w.state, i);
    forall q | q in p.tasks[i].outputs ensures q !in Sealed(w.state.tasks, i) {
      if q in Sealed(w.state.tasks, i) {
        SealedSource(p, w.state.tasks, i, q);
      }
    }
  }

  // ---------------------------------------------------------------- the recovery that tears a history

  /** A recovery session that starts at world `j` observes the tree of that world. With no recorded
      observation it leaves an underivable history if and only if part of the attempt already sat in
      quarantine when the session started. */
  lemma SessionTears(p: Plan, ws: seq<World>, j: nat, k: nat, i: nat, n: nat)
    requires PlanOk(p) && Run(p, ws) && j <= k && k + 1 < |ws| && InRecovery(p, ws[j], i, n) && p.version == 3
    requires forall m :: j <= m <= k ==> i < |ws[m].state.tasks| && |ws[m].state.tasks[i].attempts| == n
                                         && (ws[m].state.tasks[i].status == Running ||
                                               ws[m].state.tasks[i].status == Failed)
    requires ws[k].state.tasks[i].status == Running
    requires Does(p, ws[k], Recover(i, Present(ws[j].files, p.tasks[i].outputs)), ws[k + 1])
    ensures (i, n) in ws[k + 1].torn <==> Moved(p.tasks[i].outputs, i, n, ws[j].quarantine) != map[]
  {
    hide PlanOk, Run, StateOk, LogInv, ReplayInv, LeaderInv, QuarantineInv, LogFilesInv, WorkspaceInv;
    hide InputsInv, BundleInv;
    hide Moved, Present, ListOf, Does, MovedInv;
    var outputs := p.tasks[i].outputs;
    var seen := Present(ws[j].files, outputs);
    RunInv(p, ws, j);
    RunInv(p, ws, k);
    RunKeepsView(p, ws, j, k, i, n);
    RecoverRecords(p, ws[k], i, seen, ws[k + 1]);
    MovedIsGone(p, ws[j], i);
    DisjointSum(Moved(outputs, i, n, ws[j].quarantine), seen);
    RecoverTears(p, ws[k], i, seen, ws[k + 1]);
  }

  lemma DisjointSum(a: map<Path, Content>, b: map<Path, Content>)
    requires a.Keys !! b.Keys
    ensures a + b == b <==> a == map[]
  {
    if a + b == b {
      assert (a + b).Keys == a.Keys + b.Keys;
      assert a.Keys == {};
    } else {
      assert a == map[] ==> a + b == b;
    }
  }

  lemma MovedIsGone(p: Plan, w: World, i: nat)
    requires i < |p.tasks| && i < |w.state.tasks| && MovedInv(w) && w.state.tasks[i].attempts != []
    requires w.state.tasks[i].status == Running || w.state.tasks[i].status == Failed
    ensures Moved(p.tasks[i].outputs, i, |w.state.tasks[i].attempts|, w.quarantine).Keys !! Present(w.files,
        p.tasks[i].outputs).Keys
  {
    forall q | q in p.tasks[i].outputs && QName(i, |w.state.tasks[i].attempts|, q) in w.quarantine
        ensures q !in w.files {
      assert Recovering(w, QName(i, |w.state.tasks[i].attempts|, q));
    }
  }

  lemma RecoverTears(p: Plan, w: World, i: nat, seen: map<Path, Content>, w': World)
    requires StateOk(p, w.state) && WorkspaceInv(p, w) && i < |p.tasks| && Does(p, w, Recover(i, seen), w')
    requires p.version == 3 && w.state.tasks[i].status == Running
    ensures (i, |w.state.tasks[i].attempts|) in w'.torn
       <==> seen != Moved(p.tasks[i].outputs, i, |w.state.tasks[i].attempts|, w.quarantine)
  {
    hide CanIntend, VerifyWorkspace, Moved, Quarantined, HistoryInv, FailedInv, Recovery;
    assert TaskOk(p, i, w.state.tasks[i]);
    assert AttemptOk(p, i, |w.state.tasks[i].attempts| - 1, Latest(w.state.tasks[i]));
  }

  lemma TornGrows(p: Plan, w: World, a: Act, w': World)
    requires Does(p, w, a, w')
    ensures w.torn <= w'.torn
  {
    hide CanIntend, BundleFor, VerifyWorkspace, EndingOk, InputsMatch, AfterRecovery, Quarantined, Started;
    hide FailedBy, CompletedWith, Recovery;
  }

  /** A torn history is never loaded again. */
  lemma {:induction false} TornNeverLoads(p: Plan, ws: seq<World>, j: nat, k: nat)
    requires PlanOk(p) && Run(p, ws) && j <= k < |ws| && p.version == 3 && ws[j].torn != {}
    ensures ws[j].torn <= ws[k].torn && !LoadOk(p, ws[k])
    decreases k
  {
    hide PlanOk, Inv, Init, Does, LoadOk, SeedsMatch, CurrentObservable;
    RunInv(p, ws, k);
    if j < k {
      TornNeverLoads(p, ws, j, k - 1);
      assert Next(p, ws[k - 1], ws[k - 1 + 1]);
      var a :| Does(p, ws[k - 1], a, ws[k]);
      TornGrows(p, ws[k - 1], a, ws[k]);
    }
    LoadNeeds(p, ws[k], ws[k].files);
  }

  // ---------------------------------------------------------------- a run that tears

  /** The world after one move, and then after a fresh session has committed its resume. */
  function AfterMove(w: World, i: nat, q: Path): World
    requires i < |w.state.tasks| && q in w.files && w.files[q].File?
  {
    w.(files := w.files - {q}, quarantine := w.quarantine[QName(i, |w.state.tasks[i].attempts|, q) := w.files[q].id])
  }

  function AfterResume(p: Plan, w: World): World
  {
    var e := MakeEvent(p, w.state, RunResumed(w.state.status));
    var log := w.log + p.codec.enc(e);
    w.(log := log, state := Resumed(w.state).(
         eventLog := Observation(p.codec.sha(log), |log|, w.state.eventLog.count + 1)))
  }

  /** Task `i` has one output, its running attempt left it behind, and the log has room for the
      records of a resume and of a recovery. */
  ghost predicate AboutToTear(p: Plan, w: World, i: nat, n: nat, q: Path)
  {
    && p.version == 3 && InRecovery(p, w, i, n) && w.state.tasks[i].status == Running
    && p.tasks[i].outputs == [q] && q in w.files && w.files[q].File?
    && QName(i, n, q) !in w.quarantine
    && w.state.pending.None? && w.bundle.None?
    && (forall j :: 0 <= j < |w.state.tasks| && w.state.tasks[j].attempts != [] ==> !Latest(w.state.tasks[j]).guard)
    && CanIntend(p, w, RunResumed(w.state.status))
    && CanIntend(p, AfterResume(p, AfterMove(w, i, q)), TaskRecovered(i, Running, n, 1))
    && VerifyWorkspace(w.files - {q}, p.baseline, Sealed(w.state.tasks, |w.state.tasks|), []).Matched?
  }

  lemma ResumeSteps(p: Plan, w: World) returns (w1: World, w2: World)
    requires Lawful(p.codec) && NoLeader(w) && |w.log| == w.state.eventLog.size && w.state.pending.None?
    requires CanIntend(p, w, RunResumed(w.state.status))
    requires forall j :: 0 <= j < |w.state.tasks| && w.state.tasks[j].attempts != [] ==> !Latest(w.state.tasks[j]).guard
    ensures Next(p, w, w1) && Next(p, w1, w2) && Next(p, w2, AfterResume(p, w))
  {
    hide CanIntend;
    var e := MakeEvent(p, w.state, RunResumed(w.state.status));
    assert IsLine(p.codec.enc(e));
    w1 := Intend(p, w, Resumed(w.state), RunResumed(w.state.status));
    assert Does(p, w, Resume, w1);
    w2 := w1.(log := w1.log + p.codec.enc(e));
    assert Does(p, w1, Append, w2);
    assert Does(p, w2, Acknowledge, AfterResume(p, w));
  }

  lemma ResumeAfterMove(p: Plan, w: World, i: nat, n: nat, q: Path) returns (w2: World, w3: World)
    requires PlanOk(p) && Inv(p, w) && AboutToTear(p, w, i, n, q)
    ensures i < |w.state.tasks| && q in w.files && w.files[q].File?
    ensures var w1 := AfterMove(w, i, q);
      Next(p, w, w1) && Inv(p, w1) && Next(p, w1, w2) && Next(p, w2, w3) && Next(p, w3, AfterResume(p, w1)) &&
          Inv(p, AfterResume(p, w1))
  {
    hide PlanOk, Inv, VerifyWorkspace, CanIntend, Does, AfterResume, Sealed, Latest;
    var w1 := AfterMove(w, i, q);
    FirstMove(p, w, i, n, q);
    StepInv(p, w, Move(i, q), w1);
    PlanIsLawful(p);
    StableSize(p, w1);
    CanStillResume(p, w, i, q);
    w2, w3 := ResumeSteps(p, w1);
    NextKeepsInv(p, w1, w2);
    NextKeepsInv(p, w2, w3);
    NextKeepsInv(p, w3, AfterResume(p, w1));
  }

  /** A crash between the move and the record, then a fresh session: the tree is accepted, and after the
      recovery the run can no longer be loaded. */
  lemma TornWitness(p: Plan, w: World, i: nat, n: nat, q: Path) returns (ws: seq<World>)
    requires PlanOk(p) && Inv(p, w) && AboutToTear(p, w, i, n, q) && w.state.tasks[i].attempts != []
    ensures |ws| == 6 && ws[0] == w && forall k :: 0 <= k < 5 ==> Next(p, ws[k], ws[k + 1])
    ensures ws[1].state == w.state && (RecoveryObservable(p, w, i) ==> RecoveryObservable(p, ws[1], i))
    ensures ws[5].torn != {} && !LoadOk(p, ws[5])
  {
    hide PlanOk, Inv, AboutToTear, LoadOk, Does, RecoveryObservable, AfterMove, AfterResume, Next;
    var w2, w3 := ResumeAfterMove(p, w, i, n, q);
    var w1 := AfterMove(w, i, q);
    FirstMove(p, w, i, n, q);
    MoveKeepsObservable(p, w, i, q, w1);
    InvState(p, w);
    var w4 := AfterResume(p, w1);
    var w5 := LateRecovery(p, w, i, n, q);
    NextKeepsInv(p, w4, w5);
    LoadNeeds(p, w5, w5.files);
    ws := [w, w1, w2, w3, w4, w5];
  }

  lemma InvState(p: Plan, w: World)
    requires Inv(p, w)
    ensures StateOk(p, w.state) && |w.state.tasks| == |p.tasks|
  {
    hide TaskOk;
  }

  lemma PlanIsLawful(p: Plan)
    requires PlanOk(p)
    ensures Lawful(p.codec)
  {
  }

  lemma NextKeepsInv(p: Plan, w: World, w': World)
    requires PlanOk(p) && Inv(p, w) && Next(p, w, w')
    ensures Inv(p, w')
  {
    hide PlanOk, Inv, Does;
    var a :| Does(p, w, a, w');
    StepInv(p, w, a, w');
  }

  lemma StableSize(p: Plan, w: World)
    requires Lawful(p.codec) && Inv(p, w) && w.state.pending.None?
    ensures |w.log| == w.state.eventLog.size
  {
    hide StateOk, ReplayInv, LeaderInv, QuarantineInv, MovedInv, LogFilesInv, WorkspaceInv, InputsInv;
    hide BundleInv, Lawful;
    SizeTellsPosition(p, w);
  }

  lemma FirstMove(p: Plan, w: World, i: nat, n: nat, q: Path)
    requires AboutToTear(p, w, i, n, q)
    ensures i < |p.tasks|
    ensures Does(p, w, Move(i, q), AfterMove(w, i, q)) && Next(p, w, AfterMove(w, i, q))
  {
    hide VerifyWorkspace, CanIntend;
    assert Does(p, w, Move(i, q), AfterMove(w, i, q));
  }

  lemma CanStillResume(p: Plan, w: World, i: nat, q: Path)
    requires i < |w.state.tasks| && q in w.files && w.files[q].File? && CanIntend(p, w, RunResumed(w.state.status))
    ensures CanIntend(p, AfterMove(w, i, q), RunResumed(w.state.status))
  {
  }

  lemma LateRecovery(p: Plan, w: World, i: nat, n: nat, q: Path) returns (w5: World)
    requires AboutToTear(p, w, i, n, q) && StateOk(p, w.state)
    ensures p.version == 3 && Next(p, AfterResume(p, AfterMove(w, i, q)), w5) && w5.torn != {}
  {
    hide VerifyWorkspace, CanIntend, Sealed, AfterRecovery, Recovery, StateOk, CanRecover, Quarantined, Moved;
    LatestIsRunning(p, w.state, i);
    var w4 := AfterResume(p, AfterMove(w, i, q));
    OneMoved(w4, i, n, q);
    LateRecoverable(p, w, i, n, q);
    w5 := Intend(p, w4, Recovery(p, w4, i, map[]), TaskRecovered(i, Running, n, 1)).(torn := w4.torn + {(i, n)});
    assert Does(p, w4, Recover(i, map[]), w5);
    assert (i, n) in w5.torn;
  }

  lemma LatestIsRunning(p: Plan, s: State, i: nat)
    requires StateOk(p, s) && i < |s.tasks| && s.tasks[i].status == Running && s.tasks[i].attempts != []
    ensures Latest(s.tasks[i]).after.None?
  {
    assert TaskOk(p, i, s.tasks[i]);
    assert AttemptOk(p, i, |s.tasks[i].attempts| - 1, Latest(s.tasks[i]));
  }

  lemma OneMoved(w: World, i: nat, n: nat, q: Path)
    requires QName(i, n, q) in w.quarantine
    ensures |Quarantined([q], i, n, w.quarantine)| == 1 && Moved([q], i, n, w.quarantine) != map[]
  {
    assert Quarantined([], i, n, w.quarantine) == [];
    assert [q][..0] == [];
    assert q in Moved([q], i, n, w.quarantine);
  }

  lemma LateRecoverable(p: Plan, w: World, i: nat, n: nat, q: Path)
    requires AboutToTear(p, w, i, n, q)
    ensures CanRecover(p, AfterResume(p, AfterMove(w, i, q)), i, map[])
  {
    hide VerifyWorkspace, CanIntend, Sealed, Moved;
  }
}
