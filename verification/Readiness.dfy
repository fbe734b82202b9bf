/** When a run loads, for every tree in place of the workspace. Of the engine's own records only two ever stand in
    the way: a torn recovery, and a failed attempt that left more than its own outputs. */
module Readiness {
  import opened Basics
  import opened Events
  import opened WorkspaceTree
  import opened RunState
  import opened Lifecycle
  import opened World
  import opened Invariants
  import opened KeepWorkspace
  import opened Runs
  import opened Load
  import opened QuarantineRecovery

  /** The length of the completed prefix. */
  function Prefix(tasks: seq<TaskState>): (n: nat)
    ensures n <= |tasks| && (forall j :: 0 <= j < n ==> tasks[j].status == Completed)
    ensures n < |tasks| ==> tasks[n].status != Completed
  {
    if tasks == [] || tasks[0].status != Completed then 0
    else 1 + Prefix(tasks[1..])
  }

  predicate InRecoveryStatus(t: TaskState)
  {
    t.status == Running || t.status == Failed
  }

  /** The outputs that an unrecovered attempt may have left behind. */
  function Leftovers(p: Plan, tasks: seq<TaskState>): seq<Path>
  {
    var n := Prefix(tasks);
    if n < |tasks| && n < |p.tasks| && InRecoveryStatus(tasks[n]) then p.tasks[n].outputs else []
  }

  /** In version 3 the tree is the baseline with the sealed outputs, and with no more than files left behind
      by an unrecovered attempt. */
  predicate TreeIntact(p: Plan, w: World)
  {
    p.version == 3 ==>
      && p.scannable(w.files)
      && VerifyWorkspace(w.files, p.baseline, Sealed(w.state.tasks, |w.state.tasks|),
            Leftovers(p, w.state.tasks)).Matched?
  }

  lemma PrefixIsFirst(s: State, i: nat)
    ensures FirstIncomplete(s, i) <==> i < |s.tasks| && i == Prefix(s.tasks)
    ensures AllCompleted(s) <==> Prefix(s.tasks) == |s.tasks|
  {
  }

  /** An untorn recovery recorded the clean tree. */
  lemma RecoveredIsClean(p: Plan, w: World, i: nat)
    requires StateOk(p, w.state) && WorkspaceInv(p, w) && p.version == 3 && w.torn == {}
    requires FirstIncomplete(w.state, i) && w.state.tasks[i].status == Pending && w.state.tasks[i].attempts != []
    ensures Latest(w.state.tasks[i]).recovered == Some(p.baseline + AsFiles(Sealed(w.state.tasks, |w.state.tasks|)))
  {
    hide FailedInv, TornInv, Sealed;
    var k := |w.state.tasks[i].attempts| - 1;
    assert TaskOk(p, i, w.state.tasks[i]) && LatestOk(w.state.tasks[i]);
    assert Derivable(p, w.state.tasks, i, w.state.tasks[i].attempts[k]) <==> (i, k + 1) !in w.torn;
    SealedBeforeFirst(p, w.state, i);
  }

  lemma PendingObservable(p: Plan, w: World, files: Tree, i: nat)
    requires PlanOk(p) && Inv(p, w) && p.version == 3 && w.torn == {} && FirstIncomplete(w.state, i)
    requires w.state.tasks[i].status == Pending && w.state.tasks[i].attempts != []
    requires VerifyWorkspace(files, p.baseline, Sealed(w.state.tasks, |w.state.tasks|), []).Matched?
    ensures Latest(w.state.tasks[i]).recovered == Some(files)
  {
    hide PlanOk, StateOk, LogInv, ReplayInv, LeaderInv, QuarantineInv, MovedInv, LogFilesInv, WorkspaceInv;
    hide InputsInv, BundleInv;
    hide VerifyWorkspace, Sealed, AsFiles, Latest;
    RecoveredIsClean(p, w, i);
    VerifyClean(files, p.baseline, Sealed(w.state.tasks, |w.state.tasks|));
  }

  lemma RunningObservable(p: Plan, w: World, i: nat)
    requires StateOk(p, w.state) && i < |p.tasks| && i < |w.state.tasks|
    requires w.state.tasks[i].status == Running && w.state.tasks[i].attempts != []
    ensures RecoveryObservable(p, w, i)
       <==> VerifyWorkspace(w.files, p.baseline, Sealed(w.state.tasks, |w.state.tasks|), p.tasks[i].outputs).Matched?
  {
    hide VerifyWorkspace, Sealed;
    assert TaskOk(p, i, w.state.tasks[i]);
    assert AttemptOk(p, i, |w.state.tasks[i].attempts| - 1, Latest(w.state.tasks[i]));
  }

  lemma Attempted(p: Plan, s: State, i: nat)
    requires StateOk(p, s) && i < |s.tasks|
    ensures |s.tasks| == |p.tasks| && (InRecoveryStatus(s.tasks[i]) ==> s.tasks[i].attempts != [])
  {
    assert TaskOk(p, i, s.tasks[i]);
  }

  /** The tree of a failed attempt is pinned: with its recorded observation, no other tree is accepted. */
  lemma FailedObservable(p: Plan, w: World, files: Tree, i: nat)
    requires PlanOk(p) && Inv(p, w) && p.version == 3 && i < |p.tasks|
    requires FirstIncomplete(w.state, i) && w.state.tasks[i].status == Failed && w.state.tasks[i].attempts != []
    ensures RecoveryObservable(p, w.(files := files), i)
       <==> && files == w.files
            && VerifyWorkspace(files, p.baseline, Sealed(w.state.tasks, |w.state.tasks|), p.tasks[i].outputs).Matched?
  {
    hide PlanOk, Inv, VerifyWorkspace, Sealed, RecoveryObservable;
    if RecoveryObservable(p, w.(files := files), i) {
      OnlyRecordedTree(p, w, files, i);
    } else if files == w.files {
      assert w.(files := files) == w;
      RecordedIsReconstructed(p, w, i);
    }
  }

  lemma OnlyRecordedTree(p: Plan, w: World, files: Tree, i: nat)
    requires PlanOk(p) && Inv(p, w) && p.version == 3 && i < |p.tasks|
    requires FirstIncomplete(w.state, i) && w.state.tasks[i].status == Failed && w.state.tasks[i].attempts != []
    requires RecoveryObservable(p, w.(files := files), i)
    ensures files == w.files
    ensures VerifyWorkspace(files, p.baseline, Sealed(w.state.tasks, |w.state.tasks|), p.tasks[i].outputs).Matched?
  {
    hide PlanOk, StateOk, LogInv, ReplayInv, LeaderInv, QuarantineInv, LogFilesInv, HistoryInv, TornInv, InputsInv;
    hide BundleInv, MovedInv, VerifyWorkspace, Sealed, Present, Moved, Project, AsFiles;
    var w', sealed, outputs := w.(files := files), Sealed(w.state.tasks, |w.state.tasks|), p.tasks[i].outputs;
    var moved := Moved(outputs, i, |w.state.tasks[i].attempts|, w.quarantine);
    LatestEnded(p, w.state, i);
    ViewIsDisjoint(p, w, i);
    MovedIsApart(p, w, i);
    MovedIsAbsent(p, w, i);
    MovedIsAbsent(p, w', i);
    MatchedIsProjection(files, p.baseline, sealed, outputs);
    PresentIsThere(files, outputs);
    ProjectBack(p.baseline, sealed, Present(files, outputs), moved);
    SameRest(files, w.files, moved);
  }

  lemma PresentIsThere(tree: Tree, paths: seq<Path>)
    ensures Present(tree, paths).Keys <= tree.Keys
  {
  }

  lemma MovedIsAbsent(p: Plan, w: World, i: nat)
    requires i < |p.tasks| && i < |w.state.tasks| && SplitOutputs(p, w, i)
    ensures Moved(p.tasks[i].outputs, i, |w.state.tasks[i].attempts|, w.quarantine).Keys !! w.files.Keys
  {
  }

  lemma SameRest(a: Tree, b: Tree, moved: map<Path, Content>)
    requires moved.Keys !! a.Keys && moved.Keys !! b.Keys && a + AsFiles(moved) == b + AsFiles(moved)
    ensures a == b
  {
    assert AsFiles(moved).Keys == moved.Keys;
    assert a == (a + AsFiles(moved)) - moved.Keys && b == (b + AsFiles(moved)) - moved.Keys;
  }

  /** The tree that a failed attempt left has not been replaced. */
  predicate TreeKept(p: Plan, w: World, files: Tree)
  {
    var n := Prefix(w.state.tasks);
    p.version == 3 && n < |w.state.tasks| && w.state.tasks[n].status == Failed ==> files == w.files
  }

  /** For an untorn history the observation of a tree compares it with the engine's records, and what is compared
      always agrees, except that after a failed attempt no tree but the one it left agrees. */
  lemma CurrentIsTree(p: Plan, w: World, files: Tree)
    requires PlanOk(p) && Inv(p, w) && (p.version == 3 ==> w.torn == {})
    ensures CurrentObservable(p, w.(files := files)) <==> TreeIntact(p, w.(files := files)) && TreeKept(p, w, files)
  {
    hide PlanOk, StateOk, LogInv, ReplayInv, LeaderInv, QuarantineInv, MovedInv, LogFilesInv, WorkspaceInv;
    hide InputsInv, BundleInv;
    hide VerifyWorkspace, Sealed, RecoveryObservable, FirstIncomplete, AllCompleted;
    if p.version == 3 {
      var n := Prefix(w.state.tasks);
      InvState(p, w);
      forall i: nat ensures (FirstIncomplete(w.state, i) <==> i < |w.state.tasks| && i == n) {
        PrefixIsFirst(w.state, i);
      }
      PrefixIsFirst(w.state, n);
      assert w.(files := files).state == w.state;
      if n < |w.state.tasks| {
        Attempted(p, w.state, n);
        NextIsTree(p, w, files, n);
      }
    }
  }

  lemma NextIsTree(p: Plan, w: World, files: Tree, i: nat)
    requires PlanOk(p) && Inv(p, w) && p.version == 3 && w.torn == {} && FirstIncomplete(w.state, i) && i < |p.tasks|
    requires InRecoveryStatus(w.state.tasks[i]) ==> w.state.tasks[i].attempts != []
    ensures var sealed := Sealed(w.state.tasks, |w.state.tasks|);
      if InRecoveryStatus(w.state.tasks[i]) then
        (RecoveryObservable(p, w.(files := files), i)
         <==> && VerifyWorkspace(files, p.baseline, sealed, p.tasks[i].outputs).Matched?
              && (w.state.tasks[i].status == Failed ==> files == w.files))
      else
        VerifyWorkspace(files, p.baseline, sealed, []).Matched? ==>
          w.state.tasks[i].attempts != [] ==> Latest(w.state.tasks[i]).recovered == Some(files)
  {
    hide PlanOk, StateOk, LogInv, ReplayInv, LeaderInv, QuarantineInv, MovedInv, LogFilesInv, WorkspaceInv;
    hide InputsInv, BundleInv;
    hide VerifyWorkspace, Sealed, RecoveryObservable;
    var sealed := Sealed(w.state.tasks, |w.state.tasks|);
    if w.state.tasks[i].status == Failed {
      FailedObservable(p, w, files, i);
    } else if w.state.tasks[i].status == Running {
      RunningObservable(p, w.(files := files), i);
    } else if w.state.tasks[i].attempts != [] {
      if VerifyWorkspace(files, p.baseline, sealed, []).Matched? {
        PendingObservable(p, w, files, i);
      }
    }
  }

  /** At every crash point and for every tree put in place of the workspace, the run loads if and only if the
      seeds are in it and, in version 3, no recovery was torn, the tree is intact, and it is the very tree that
      the failed attempt left, if the next task is failed. */
  lemma TreesThatLoad(p: Plan, w: World, files: Tree)
    requires PlanOk(p) && Inv(p, w)
    ensures var w' := w.(files := files);
      LoadOk(p, w')
      <==> SeedsMatch(p, w') && TreeIntact(p, w') && TreeKept(p, w, files) && (p.version == 3 ==> w.torn == {})
  {
    hide PlanOk, Inv, LoadOk, SeedsMatch, CurrentObservable, TreeIntact, TreeKept;
    LoadNeeds(p, w, files);
    if p.version == 3 ==> w.torn == {} {
      CurrentIsTree(p, w, files);
    }
  }

  /** At every crash point a run loads with the tree it has if and only if the seeds are intact and, in version 3,
      no recovery was torn and the tree is intact. */
  lemma LoadRefusesOnlyDrift(p: Plan, w: World)
    requires PlanOk(p) && Inv(p, w)
    ensures LoadOk(p, w) <==> SeedsMatch(p, w) && TreeIntact(p, w) && (p.version == 3 ==> w.torn == {})
  {
    hide PlanOk, Inv, LoadOk, SeedsMatch, TreeIntact;
    TreesThatLoad(p, w, w.files);
    assert w.(files := w.files) == w;
  }

  // ---------------------------------------------------------------- a failed attempt that spoils its run

  /** After a failed attempt of version 3 some tree loads if and only if the tree it left does: it holds the seeds,
      can be observed, differs from the sealed workspace in outputs of the task only, and no recovery was torn. */
  lemma FailedLoadsExactly(p: Plan, w: World, i: nat)
    requires PlanOk(p) && Inv(p, w) && p.version == 3
    requires FirstIncomplete(w.state, i) && w.state.tasks[i].status == Failed
    ensures i < |p.tasks|
    ensures (exists files :: LoadOk(p, w.(files := files)))
       <==> && SeedsMatch(p, w) && p.scannable(w.files) && w.torn == {}
            && VerifyWorkspace(w.files, p.baseline, Sealed(w.state.tasks, |w.state.tasks|), p.tasks[i].outputs).Matched?
  {
    hide PlanOk, Inv, LoadOk, SeedsMatch, VerifyWorkspace, Sealed;
    InvState(p, w);
    PrefixIsFirst(w.state, i);
    assert w.(files := w.files) == w;
    TreesThatLoad(p, w, w.files);
    if files :| LoadOk(p, w.(files := files)) {
      TreesThatLoad(p, w, files);
    } else {
      assert !LoadOk(p, w.(files := w.files));
    }
  }

  /** The next task failed and left more than its own outputs. */
  ghost predicate Spoiled(p: Plan, w: World, i: nat)
  {
    && i < |p.tasks| && FirstIncomplete(w.state, i)
    && w.state.tasks[i].status == Failed && w.state.tasks[i].attempts != []
    && !VerifyWorkspace(w.files, p.baseline, Sealed(w.state.tasks, |w.state.tasks|), p.tasks[i].outputs).Matched?
  }

  lemma FailedIsQuiet(p: Plan, w: World, i: nat)
    requires Inv(p, w) && FirstIncomplete(w.state, i)
    requires w.state.tasks[i].status == Failed && w.state.tasks[i].attempts != []
    ensures NoLeader(w) && !Latest(w.state.tasks[i]).guard
  {
    hide LogInv, ReplayInv, QuarantineInv, MovedInv, LogFilesInv, WorkspaceInv, InputsInv, BundleInv;
    assert TaskOk(p, i, w.state.tasks[i]);
    assert AttemptOk(p, i, |w.state.tasks[i].attempts| - 1, Latest(w.state.tasks[i]));
    hide TaskOk;
    forall j | 0 <= j < |w.state.tasks| ensures w.state.tasks[j].status != Running {
      assert j > i ==> Untouched(w.state.tasks[j]);
    }
  }

  lemma MoreVolatile(files: Tree, baseline: Tree, completed: map<Path, Content>, volatile: seq<Path>)
    requires VerifyWorkspace(files, baseline, completed, []).Matched?
    requires forall q :: q in volatile ==> q !in files
    ensures VerifyWorkspace(files, baseline, completed, volatile).Matched?
  {
    hide VerifyWorkspace;
    MatchedMeans(files, baseline, completed, []);
    MeansMatched(files, baseline, completed, volatile);
  }

  lemma StepKeepsSpoiled(p: Plan, w: World, a: Act, w': World, i: nat)
    requires Inv(p, w) && p.version == 3 && Spoiled(p, w, i) && Does(p, w, a, w')
    ensures Spoiled(p, w', i)
  {
    hide Inv, CanIntend, BundleFor, VerifyWorkspace, EndingOk, InputsMatch, AfterRecovery, Quarantined, Moved, Sealed;
    hide HasLogs, Recovery;
    FailedIsQuiet(p, w, i);
    var sealed, outputs := Sealed(w.state.tasks, |w.state.tasks|), p.tasks[i].outputs;
    if a.Recover? {
      OneFirst(w.state, i, a.task);
      MoreVolatile(w.files, p.baseline, sealed, outputs);
    } else {
      SpoiledActs(p, w, a, w', i);
      if a.Move? {
        VerifyWithout(w.files, p.baseline, sealed, outputs, a.source);
      }
    }
  }

  lemma SpoiledActs(p: Plan, w: World, a: Act, w': World, i: nat)
    requires FirstIncomplete(w.state, i) && w.state.tasks[i].status == Failed && w.state.tasks[i].attempts != []
    requires NoLeader(w) && Does(p, w, a, w') && !a.Recover?
    ensures w'.state.tasks == w.state.tasks
    ensures if a.Move? then
        && a.task == i < |p.tasks| && a.source in p.tasks[i].outputs && a.source in w.files
        && w.files[a.source].File? && w'.files == w.files - {a.source}
      else w'.files == w.files
  {
    hide CanIntend, BundleFor, VerifyWorkspace, EndingOk, InputsMatch, Quarantined, Moved, Sealed, HasLogs;
    match a
    case Start(j, _, _) => OneFirst(w.state, i, j);
    case Complete(j, _) => OneFirst(w.state, i, j);
    case Spawn(j, _, _) => OneFirst(w.state, i, j);
    case Identify(j, _, _) => OneFirst(w.state, i, j);
    case MakeLog(key) => OneFirst(w.state, i, key.task);
    case Fail(j, _) => OneFirst(w.state, i, j);
    case Move(j, _) => OneFirst(w.state, i, j);
    case _ =>
  }

  /** Once an attempt of version 3 failed and left more than its own outputs, the run never loads again, with
      whatever tree: not with the spoiled one, and not with a repaired one. */
  lemma {:induction false} SpoiledNeverLoads(p: Plan, ws: seq<World>, j: nat, k: nat, i: nat)
    requires PlanOk(p) && Run(p, ws) && j <= k < |ws| && p.version == 3 && Spoiled(p, ws[j], i)
    ensures Spoiled(p, ws[k], i) && forall files :: !LoadOk(p, ws[k].(files := files))
    decreases k
  {
    hide PlanOk, Inv, Init, Does, LoadOk, Spoiled;
    if j < k {
      SpoiledNeverLoads(p, ws, j, k - 1, i);
      RunInv(p, ws, k - 1);
      assert Next(p, ws[k - 1], ws[k - 1 + 1]);
      var a :| Does(p, ws[k - 1], a, ws[k]);
      StepKeepsSpoiled(p, ws[k - 1], a, ws[k], i);
    }
    RunInv(p, ws, k);
    SpoiledLoadsNothing(p, ws[k], i);
  }

  lemma SpoiledLoadsNothing(p: Plan, w: World, i: nat)
    requires PlanOk(p) && Inv(p, w) && p.version == 3 && Spoiled(p, w, i)
    ensures forall files :: !LoadOk(p, w.(files := files))
  {
    hide PlanOk, Inv, LoadOk, VerifyWorkspace, Sealed, SeedsMatch;
    FailedLoadsExactly(p, w, i);
  }
}
