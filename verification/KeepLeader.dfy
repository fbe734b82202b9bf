/** At most one task leader is alive, and the durable state always covers it. */
module KeepLeader {
  import opened Basics
  import opened Events
  import opened WorkspaceTree
  import opened RunState
  import opened Lifecycle
  import opened World
  import opened Invariants

  /** A live leader belongs to the first incomplete task. */
  lemma LeaderRunsFirst(p: Plan, w: World, x: int, i: nat)
    requires StateOk(p, w.state) && LeaderInv(w) && FirstIncomplete(w.state, i)
    requires x in w.procs && w.procs[x].owner.Some?
    ensures w.state.tasks[i].status == Running && w.procs[x].owner == Some((i, |w.state.tasks[i].attempts|))
  {
    hide TaskOk;
    assert Covers(w, x, w.procs[x]);
    var j := w.procs[x].owner.value.0;
    TouchedBefore(w.state.tasks, i, j);
  }

  lemma TouchedBefore(tasks: seq<TaskState>, i: nat, j: nat)
    requires Ordered(tasks) && i < |tasks| && j < |tasks| && tasks[i].status != Completed && !Untouched(tasks[j])
    ensures j <= i
  {
  }

  lemma NoLeaderUnlessRunning(p: Plan, w: World, i: nat)
    requires StateOk(p, w.state) && LeaderInv(w) && FirstIncomplete(w.state, i) && w.state.tasks[i].status != Running
    ensures NoLeader(w)
  {
    hide StateOk, LeaderInv;
    forall x | x in w.procs ensures w.procs[x].owner.None? {
      if w.procs[x].owner.Some? {
        LeaderRunsFirst(p, w, x, i);
        assert false;
      }
    }
  }

  lemma NoLeaderWhenDone(p: Plan, w: World)
    requires LeaderInv(w) && AllCompleted(w.state)
    ensures NoLeader(w)
  {
    forall x | x in w.procs ensures w.procs[x].owner.None? {
      assert w.procs[x].owner.Some? ==> Covers(w, x, w.procs[x]);
    }
  }

  lemma SameTasksKeepLeader(w: World, w': World)
    requires LeaderInv(w) && w'.state.tasks == w.state.tasks && w'.launches == w.launches
    requires forall x :: x in w'.procs && w'.procs[x].owner.Some? ==> x in w.procs && w.procs[x] == w'.procs[x]
    ensures LeaderInv(w')
  {
    forall x | x in w'.procs && w'.procs[x].owner.Some? ensures Covers(w', x, w'.procs[x]) {
      assert Covers(w, x, w.procs[x]);
    }
  }

  /** With no leader alive, a task update only has to keep the attempt counts. */
  lemma UpdateKeepsLeader(w: World, w': World)
    requires LeaderInv(w) && NoLeader(w) && w'.procs == w.procs && w'.launches == w.launches
    requires |w'.state.tasks| == |w.state.tasks|
    requires forall i :: 0 <= i < |w.state.tasks| ==> |w.state.tasks[i].attempts| <= |w'.state.tasks[i].attempts|
    ensures LeaderInv(w')
  {
  }

  lemma SpawnKeepsLeader(p: Plan, w: World, i: nat, pid: int, token: string, w': World)
    requires StateOk(p, w.state) && LeaderInv(w) && Does(p, w, Spawn(i, pid, token), w')
    ensures LeaderInv(w') && NoLeader(w)
  {
    hide StateOk;
    forall x | x in w.procs ensures w.procs[x].owner.None? {
      if w.procs[x].owner.Some? {
        LeaderRunsFirst(p, w, x, i);
        assert false;
      }
    }
    assert Covers(w', pid, w'.procs[pid]);
  }

  lemma IdentifyKeepsLeader(p: Plan, w: World, i: nat, pid: int, token: string, w': World)
    requires StateOk(p, w.state) && LeaderInv(w) && Does(p, w, Identify(i, pid, token), w')
    ensures LeaderInv(w')
  {
    forall x | x in w'.procs && w'.procs[x].owner.Some? ensures Covers(w', x, w'.procs[x]) {
      hide LeaderInv;
      LeaderRunsFirst(p, w, x, i);
    }
    hide StateOk;
  }

  lemma TaskEventKeepsLeader(p: Plan, w: World, a: Act, w': World)
    requires StateOk(p, w.state) && LeaderInv(w) && Does(p, w, a, w')
    requires a.Start? || a.Fail? || a.Complete? || a.Recover?
    ensures LeaderInv(w') && NoLeader(w)
  {
    hide StateOk, LeaderInv, EndingOk, VerifyWorkspace, InputsMatch, CanIntend, Quarantined, AfterRecovery;
    if a.Start? {
      NoLeaderUnlessRunning(p, w, a.task);
    }
    UpdateKeepsLeader(w, w');
  }

  lemma OtherKeepsLeader(p: Plan, w: World, a: Act, w': World)
    requires LeaderInv(w) && Does(p, w, a, w')
    requires !a.Start? && !a.Fail? && !a.Complete? && !a.Recover? && !a.Spawn? && !a.Identify?
    ensures LeaderInv(w')
  {
    hide LeaderInv, CanIntend, BundleFor, VerifyWorkspace, NoLeader;
    SameTasksKeepLeader(w, w');
  }

  lemma StepKeepsLeader(p: Plan, w: World, a: Act, w': World)
    requires StateOk(p, w.state) && LeaderInv(w) && Does(p, w, a, w')
    ensures LeaderInv(w')
    ensures a.Spawn? || a.Start? || a.Fail? || a.Complete? || a.Recover? ==> NoLeader(w)
  {
    hide *;
    match a
    case Spawn(i, pid, token) => SpawnKeepsLeader(p, w, i, pid, token, w');
    case Identify(i, pid, token) => IdentifyKeepsLeader(p, w, i, pid, token, w');
    case Start(_, _, _) => TaskEventKeepsLeader(p, w, a, w');
    case Fail(_, _) => TaskEventKeepsLeader(p, w, a, w');
    case Complete(_, _) => TaskEventKeepsLeader(p, w, a, w');
    case Recover(_, _) => TaskEventKeepsLeader(p, w, a, w');
    case _ => OtherKeepsLeader(p, w, a, w');
  }
}
