/** The engine: one process that reads and writes the durable world step by step. Every method may
    stop early (an exception or a fault), and `trace` records the worlds a crash could leave behind. */
module Engine {
  import opened Basics
  import opened Events
  import opened EventLog
  import opened WorkspaceTree
  import opened RunState
  import opened Lifecycle
  import opened World
  import opened Invariants
  import opened Runs
  import opened Load
  import opened QuarantineRecovery
  import opened Inputs
  import opened Sealing
  import opened Decision
  import opened EngineSteps

  class Runner {
    const plan: Plan
    /** The return code with which the child of each task and attempt ends, when it is left to end by itself. */
    const exits: (nat, nat) -> int
    var disk: World
    var state: State
    ghost var trace: seq<World>
    /** Nothing disturbs the engine: no fault strikes, probes answer, and other processes come and go no more. */
    var calm: bool

    ghost predicate Good()
      reads this
    {
      PlanOk(plan) && trace != [] && Run(plan, trace) && trace[|trace| - 1] == disk
    }

    /** The in-memory state is the durable one and no transition or child is open. */
    ghost predicate Synced()
      reads this
    {
      Good() && state == disk.state && state.pending.None? && disk.bundle.None? && NoLeader(disk)
    }

    lemma GoodInv()
      requires Good()
      ensures Inv(plan, disk) && PlanOk(plan) && Lawful(plan.codec) && |disk.state.tasks| == |plan.tasks|
    {
      hide Run, Inv;
      RunInv(plan, trace, |trace| - 1);
      InvState(plan, disk);
      PlanIsLawful(plan);
    }

    /** A fresh engine process opens the world that some run, cut off anywhere, has left. */
    constructor (p: Plan, w: World, quiet: bool, codes: (nat, nat) -> int, ghost past: seq<World>)
      requires PlanOk(p) && Run(p, past) && past[|past| - 1] == w
      ensures Good() && plan == p && disk == w && trace == past && state == w.state && calm == quiet
      ensures exits == codes
    {
      plan, exits, disk, state, trace, calm := p, codes, w, w.state, past, quiet;
    }

    /** An operating system fault, an exception between two steps, or a context that changed. */
    method Fault() returns (strikes: bool)
      ensures calm ==> !strikes
    {
      strikes := *;
      strikes := strikes && !calm;
    }

    /** One atomic step on the world. */
    method Step(ghost a: Act, w: World)
      requires Good() && Does(plan, disk, a, w)
      modifies this`disk, this`trace
      ensures Good() && disk == w && trace == old(trace) + [w]
    {
      hide PlanOk, Init, Does;
      assert Next(plan, disk, w);
      ghost var longer := trace + [w];
      forall k | 0 <= k < |longer| - 1 ensures Next(plan, longer[k], longer[k + 1]) {
        assert k + 1 < |trace| ==> Next(plan, trace[k], trace[k + 1]);
      }
      disk, trace := w, longer;
    }

    /** Other processes run between any two steps of the engine. */
    method Elapse()
      requires Good()
      modifies this`disk, this`trace
      ensures Good() && old(trace) <= trace
      ensures SameEvidenceAs(old(disk), disk) && Settled(old(disk), disk) && disk.logs.Keys == old(disk.logs.Keys)
      ensures forall x :: x in disk.procs && disk.procs[x].owner.Some? ==>
        x in old(disk).procs && old(disk).procs[x] == disk.procs[x]
      ensures calm ==> disk.procs == old(disk.procs)
    {
      var w: World := *;
      if EnvironmentStep(disk, w) && (calm ==> w.procs == disk.procs) {
        assert NoLeader(disk) ==> forall key :: key in disk.logs ==> disk.logs[key] == w.logs[key];
        assert Does(plan, disk, Environment, w);
        hide PlanOk, Run, Does;
        Step(Environment, w);
      }
    }

    // ---------------------------------------------------------------- write-ahead transitions

    /** `_persist_state`: the validator accepts every state it is given, and the atomic write may
        raise before or after it takes effect. */
    method Persist(ghost a: Act, w: World) returns (accepted: bool, ok: bool)
      requires Good() && Does(plan, disk, a, w) && w.state == state
      modifies this`disk, this`trace
      ensures Good() && old(trace) <= trace
      ensures accepted && (calm ==> ok) && (ok ==> disk == w) && (!ok ==> disk == old(disk) || disk == w)
      ensures trace == old(trace) || trace == old(trace) + [w]
    {
      hide PlanOk, Run, Inv, Does;
      GoodInv();
      StepInv(plan, disk, a, w);
      InvState(plan, w);
      hide StateOk;
      accepted := ValidateStateShape(plan, state);
      var before := Fault();
      var after := Fault();
      if !accepted || before {
        ok := false;
      } else {
        Step(a, w);
        ok := !after;
      }
    }

    /** `_commit_transition`: the update of the task records becomes durable entirely or not at all, and
        without a fault it is refused only for the limits of the log. */
    method Commit(ghost a: Act, body: Body, torn: set<(nat, nat)>) returns (ok: bool)
      requires Good() && disk.state.pending.None? && disk.bundle.None? && NoLeader(disk)
      requires state.pending.None? && state.eventLog == disk.state.eventLog
      requires CanIntend(plan, disk, body) ==> Commits(plan, disk, a, Intend(plan, disk, state, body).(torn := torn))
      modifies this`disk, this`trace, this`state
      ensures Good() && old(trace) <= trace && NoLeader(disk)
      ensures disk.files == old(disk.files) && disk.quarantine == old(disk.quarantine) && disk.logs == old(disk.logs)
      ensures disk.bundle.None? && disk.launches == old(disk.launches)
      ensures ok ==>
        Synced() && SameTasks(old(state), state) && disk.torn == torn &&
            state.eventLog.count == old(state.eventLog.count) + 1
      ensures !ok ==>
        (disk.state == old(disk.state) && disk.torn == old(disk.torn)) ||
            (SameTasks(old(state), disk.state) && disk.torn == torn)
      ensures calm ==> (ok <==> CanIntend(plan, old(disk), body)) && (!ok ==> disk == old(disk))
      ensures |trace| > |old(trace)| ==> Does(plan, old(disk), a, trace[|old(trace)|])
    {
      hide PlanOk, Run, Inv, Does, Commits, Lawful, RecordOk, LogStatus;
      GoodInv();
      StableWhenAcknowledged(plan, disk);
      var status := EventTransitionStatus(plan.codec, plan.Head(), disk.log, state.eventLog, state.pending);
      if status != Some(Stable) {
        return false;
      }
      StableIsWhole(plan, disk, state.eventLog);
      if state.eventLog.count >= MAX_EVENT_COUNT {
        return false;
      }
      var e := MakeEvent(plan, state, body);
      if !RecordOk(plan.codec, plan.Head(), e, state.eventLog.count + 1, state.eventLog.sha) {
        return false;
      }
      var line := plan.codec.enc(e);
      if |disk.log| + |line| > MAX_EVENT_LOG_BYTES {
        return false;
      }
      state := state.(pending := Some(e));
      CommitsIsDoes(plan, disk, a, disk.(state := state, torn := torn));
      var accepted, written := Persist(a, disk.(state := state, torn := torn));
      if !written {
        state := state.(pending := None);
        return false;
      }
      ok := AppendAndAcknowledge();
    }

    /** The rest of a transition once its intent is durable. */
    method AppendAndAcknowledge() returns (ok: bool)
      requires Good() && state == disk.state && state.pending.Some? && |disk.log| == state.eventLog.size
      modifies this`disk, this`trace, this`state
      ensures Good() && old(trace) <= trace && Settled(old(disk), disk) && disk.logs.Keys == old(disk.logs.Keys)
      ensures disk.quarantine == old(disk.quarantine) && disk.bundle == old(disk.bundle)
      ensures disk.launches == old(disk.launches) && disk.torn == old(disk.torn) && SameTasks(old(state), disk.state)
      ensures forall x :: x in disk.procs && disk.procs[x].owner.Some? ==>
        x in old(disk).procs && old(disk).procs[x] == disk.procs[x]
      ensures ok ==> state == disk.state && state.pending.None? && state.eventLog.count == old(state.eventLog.count) + 1
      ensures calm ==> ok && disk.procs == old(disk.procs)
    {
      hide PlanOk, Run, Inv, Does, Lawful;
      Elapse();
      var before := Fault();
      var after := Fault();
      if before {
        return false;
      }
      GoodInv();
      AppendDoes(plan, disk);
      Step(Append, disk.(log := disk.log + plan.codec.enc(state.pending.value)));
      if after {
        return false;
      }
      Elapse();
      ok := Acknowledge();
    }

    method Acknowledge() returns (ok: bool)
      requires Good() && state == disk.state && state.pending.Some? && |disk.log| != state.eventLog.size
      modifies this`disk, this`trace, this`state
      ensures Good() && old(trace) <= trace
      ensures disk.(state := old(disk.state)) == old(disk) && SameTasks(old(state), disk.state)
      ensures ok ==> state == disk.state && state.pending.None? && state.eventLog.count == old(state.eventLog.count) + 1
      ensures calm ==> ok
    {
      hide PlanOk, Run, Inv, Does, Lawful;
      GoodInv();
      InvLog(plan, disk);
      var observed := ObserveLog(plan.codec, plan.Head(), disk.log);
      ghost var es := Records(plan, disk);
      AcknowledgedRecord(plan, disk, es);
      state := state.(eventLog := observed.value, pending := None);
      AcknowledgeDoes(plan, disk, disk.(state := state));
      var accepted, written := Persist(Act.Acknowledge, disk.(state := state));
      ok := written;
    }

    /** `_reconcile_pending_event`: evidence never diverges, only a fault can stop it, and reconciling twice
        changes nothing more. */
    method ReconcilePendingEvent() returns (diverged: bool, ok: bool)
      requires Good() && state == disk.state
      modifies this`disk, this`trace, this`state
      ensures Good() && old(trace) <= trace && !diverged
      ensures Settled(old(disk), disk) && disk.logs.Keys == old(disk.logs.Keys)
      ensures disk.quarantine == old(disk.quarantine) && disk.bundle == old(disk.bundle)
      ensures disk.launches == old(disk.launches) && disk.torn == old(disk.torn) && SameTasks(old(state), disk.state)
      ensures old(state.pending.None?) ==> ok && disk == old(disk) && state == old(state)
      ensures ok ==> state == disk.state && state.pending.None?
      ensures calm ==> ok && disk.procs == old(disk.procs)
    {
      hide PlanOk, Run, Inv, Does, Lawful, LogStatus, LogInv;
      GoodInv();
      InvLog(plan, disk);
      StatusTellsSize(plan, disk);
      var status := EventTransitionStatus(plan.codec, plan.Head(), disk.log, state.eventLog, state.pending);
      assert status.value.Stable? || status.value.PendingBeforeLog? || status.value.PendingAfterLog?;
      diverged := status.None?;
      ok := status == Some(Stable);
      if status == Some(PendingBeforeLog) {
        if |disk.log| + |plan.codec.enc(state.pending.value)| <= MAX_EVENT_LOG_BYTES {
          ok := AppendAndAcknowledge();
        }
      } else if status == Some(PendingAfterLog) {
        ok := Acknowledge();
      }
    }

    // ---------------------------------------------------------------- liveness of recorded children

    /** Probes are sound but may know nothing. */
    method ProcessStartToken(pid: int) returns (token: Option<string>)
      ensures token.Some? ==> pid in disk.procs && disk.procs[pid].token == token.value
      ensures calm && pid in disk.procs ==> token.Some?
    {
      var unknown := Fault();
      token := if !unknown && pid in disk.procs then Some(disk.procs[pid].token) else None;
    }

    method ProcessLiveness(pid: int) returns (r: Liveness)
      ensures r == Dead ==> pid !in disk.procs
      ensures r == Alive ==> pid in disk.procs
      ensures calm ==> r != Unknown
    {
      var unknown := Fault();
      r := if unknown then Unknown else if pid in disk.procs then Alive else Dead;
    }

    /** `_assert_recovery_liveness`: acceptance means that every leader ever launched is gone. Undisturbed, it
        accepts exactly when every running attempt has an identified child that is no longer there. */
    method AssertRecoveryLiveness() returns (ok: bool)
      requires Good() && state == disk.state
      modifies this`disk, this`trace
      ensures Good() && old(trace) <= trace && SameEvidenceAs(old(disk), disk) && Settled(old(disk), disk)
      ensures disk.logs.Keys == old(disk.logs.Keys)
      ensures ok ==> NoLeader(disk) && RunningUnguarded(state)
      ensures calm ==> (ok <==> AllGone(old(disk))) && disk.procs == old(disk.procs)
    {
      hide PlanOk, Run, Inv, Does, ChildGone;
      GoodInv();
      for i := 0 to |state.tasks|
        invariant Good() && old(trace) <= trace && SameEvidenceAs(old(disk), disk) && Settled(old(disk), disk)
        invariant disk.logs.Keys == old(disk.logs.Keys) && (calm ==> disk.procs == old(disk.procs))
        invariant forall j :: 0 <= j < i ==> Idle(disk, j)
        invariant calm ==> forall j :: 0 <= j < i ==> ChildGone(old(disk), j)
        invariant forall j :: 0 <= j < i && state.tasks[j].status == Running && state.tasks[j].attempts != [] ==>
          !Latest(state.tasks[j]).guard
      {
        var dead := AssertChildGone(i);
        if calm { GoneFrame(old(disk), disk, i); }
        if !dead {
          return false;
        }
        ghost var before := disk;
        Elapse();
        assert forall j :: 0 <= j <= i && Idle(before, j) ==> Idle(disk, j);
      }
      GoodInv();
      AllIdle(plan, disk);
      ok := true;
    }

    /** One round of `_assert_recovery_liveness`. */
    method AssertChildGone(i: nat) returns (dead: bool)
      requires Good() && state == disk.state && i < |state.tasks|
      ensures dead ==>
        Idle(disk, i) && (state.tasks[i].status == Running && state.tasks[i].attempts != [] ==>
            !Latest(state.tasks[i]).guard)
      ensures calm ==> (dead <==> ChildGone(disk, i))
    {
      hide PlanOk, Run, Inv, Does;
      GoodInv();
      InvLeader(plan, disk);
      var t := state.tasks[i];
      if t.status != Running {
        return true;
      }
      RunningShape(plan, disk, i);
      if t.attempts == [] || Latest(t).status != ARunning || Latest(t).guard || Latest(t).pid.None? {
        return false;
      }
      var a := Latest(t);
      var token := ProcessStartToken(a.pid.value);
      if token.None? || token == a.token {
        var liveness := ProcessLiveness(a.pid.value);
        if liveness != Dead {
          return false;
        }
      }
      var lingering := Fault();
      dead := !(plan.version >= 2 && lingering);
    }

    // ---------------------------------------------------------------- quarantine recovery

    /** The quarantine loop. Wherever it stops, the partial outputs of the attempt are the same as
        before, and the observation a rerun makes is accepted again. */
    method QuarantineOutputs(i: nat) returns (ok: bool, quarantined: seq<QRecord>)
      requires Good() && disk.state.pending.None? && Recoverable(plan, disk, i)
      requires i < |disk.state.tasks| && i < |plan.tasks|
      modifies this`disk, this`trace
      ensures Good() && old(trace) <= trace && HalfMoved(plan, old(disk), disk, i)
      ensures calm ==> (ok <==> FilesOrAbsent(old(disk), plan.tasks[i].outputs))
      ensures ok ==> forall q :: q in plan.tasks[i].outputs ==> q !in disk.files
      ensures ok ==>
        quarantined == ListOf(plan.tasks[i].outputs, i, |old(disk).state.tasks[i].attempts|, View(plan, old(disk), i))
    {
      hide PlanOk, Run, Inv, Does, Recoverable, HalfMoved, View, ListOf;
      ghost var w0 := disk;
      var outputs, n := plan.tasks[i].outputs, |disk.state.tasks[i].attempts|;
      quarantined := [];
      HalfMovedStart(plan, w0, i);
      ListOfNone(i, n, View(plan, w0, i));
      assert outputs[..0] == [];
      for k := 0 to |outputs|
        invariant Good() && old(trace) <= trace && HalfMoved(plan, w0, disk, i)
        invariant forall j :: 0 <= j < k ==> outputs[j] !in disk.files
        invariant quarantined == ListOf(outputs[..k], i, n, View(plan, w0, i))
      {
        var q := outputs[k];
        var name := QName(i, n, q);
        HalfMovedFacts(plan, w0, disk, i, q);
        ListOfNext(outputs, k, i, n, View(plan, w0, i));
        if q in disk.files {
          GoodInv();
          NotInBoth(plan, disk, i, q);
          if name in disk.quarantine || !disk.files[q].File? {
            NotAFile(plan, w0, disk, i, q);
            return false, [];
          }
          ghost var before := disk;
          var id := disk.files[q].id;
          var w := disk.(files := disk.files - {q}, quarantine := disk.quarantine[name := id]);
          MoveDoes(plan, disk, i, q, w);
          HalfMovedStep(plan, w0, disk, i, q, w);
          Step(Move(i, q), w);
          var raised := Fault();
          if raised {
            return false, [];
          }
          quarantined := quarantined + [QRecord(q, name, id)];
        } else if name in disk.quarantine {
          quarantined := quarantined + [QRecord(q, name, disk.quarantine[name])];
        }
        ghost var moved := disk;
        Elapse();
        HalfMovedLater(plan, w0, moved, disk, i);
      }
      assert outputs[..|outputs|] == outputs;
      AllWereFiles(plan, w0, disk, i);
      ok := true;
    }

    /** `_recover_incomplete_task`: the recorded quarantine list is the partial outputs found on entry,
        whatever part of them an earlier recovery had already moved; and a version 3 history is torn
        exactly when such a part existed and no observation had been recorded before. Undisturbed, the attempt
        is recovered exactly when its child is gone and nothing but its partial outputs drifted. */
    method RecoverIncompleteTask(i: nat) returns (ok: bool)
      requires Synced() && i < |plan.tasks| && FirstIncomplete(state, i)
      requires (state.tasks[i].status == Running || state.tasks[i].status == Failed)
      modifies this`disk, this`trace, this`state
      ensures Good() && old(trace) <= trace && NoLeader(disk)
      ensures disk.launches == old(disk.launches) && disk.bundle.None?
      ensures ok ==> Synced() && Recovered(plan, old(disk), disk, i)
      ensures ok ==> ((i, |old(disk).state.tasks[i].attempts|) in disk.torn
        <==> plan.version == 3 && Latest(old(disk).state.tasks[i]).after.None?
             && Moved(plan.tasks[i].outputs, i, |old(disk).state.tasks[i].attempts|, old(disk).quarantine) != map[])
      ensures calm ==> (ok <==> AllGone(old(disk)) && RecoveryReady(plan, old(disk), i))
      ensures calm && !ok ==> disk.state == old(disk.state) && !(AllGone(disk) && RecoveryReady(plan, disk, i))
    {
      hide PlanOk, Run, Inv, Does, Recoverable, HalfMoved, View, ListOf, Moved, Sealed, VerifyWorkspace;
      hide RecoveryObservable, AllGone;
      hide CanIntend, Recovered, RecoveryReady, FilesOrAbsent;
      GoodInv();
      FailedHasAttempts(plan, disk, i);
      ghost var w0 := disk;
      var dead := AssertRecoveryLiveness();
      if !dead {
        if calm { GoneTogether(w0, disk); }
        return false;
      }
      GoodInv();
      NowRecoverable(plan, disk, i);
      ReadyWhen(plan, disk, i);
      ReadyFrame(plan, w0, disk, i);
      if plan.version == 3 && !(plan.scannable(disk.files) && RecoveryObservable(plan, disk, i)) {
        return false;
      }
      ghost var w1 := disk;
      var observed := disk.files;
      var quarantined: seq<QRecord>;
      ok, quarantined := QuarantineOutputs(i);
      HalfMovedFrame(plan, w1, disk, i);
      if !ok {
        if calm { UnreadyOutputs(plan, w1, disk, i); }
        return false;
      }
      AfterMoves(plan, w1, disk, i);
      SameRecoveryRecord(plan, w1, disk, i);
      UnreadyTree(plan, disk, i);
      if plan.version == 3 && !(plan.scannable(disk.files) &&
          VerifyWorkspace(disk.files, plan.baseline, Sealed(state.tasks, |state.tasks|), []).Matched?) {
        return false;
      }
      ok := RecordRecovery(i, observed, quarantined, w1);
      if ok {
        RecoveredBefore(plan, w0, w1, disk, i);
      }
    }

    /** Record the quarantined outputs of the attempt and make it pending again. */
    method RecordRecovery(i: nat, observed: Tree, quarantined: seq<QRecord>, ghost w1: World) returns (ok: bool)
      requires Good() && state == disk.state && state.pending.None? && disk.bundle.None? && NoLeader(disk)
      requires i < |plan.tasks| && i < |w1.state.tasks| && Inv(plan, w1)
      requires HalfMoved(plan, w1, disk, i) && w1.state.tasks[i].attempts != []
      requires FirstIncomplete(w1.state, i) && state == w1.state && observed == w1.files
      requires forall q :: q in plan.tasks[i].outputs ==> q !in disk.files
      requires quarantined == ListOf(plan.tasks[i].outputs, i, |w1.state.tasks[i].attempts|, View(plan, w1, i))
      requires plan.version == 3 ==>
        VerifyWorkspace(disk.files, plan.baseline, Sealed(state.tasks, |state.tasks|), []).Matched?
      modifies this`disk, this`trace, this`state
      ensures Good() && old(trace) <= trace && NoLeader(disk)
      ensures disk.launches == old(disk.launches) && disk.bundle.None?
      ensures ok ==> Synced() && Recovered(plan, w1, disk, i)
      ensures ok ==> ((i, |w1.state.tasks[i].attempts|) in disk.torn
        <==> plan.version == 3 && Latest(w1.state.tasks[i]).after.None?
             && Moved(plan.tasks[i].outputs, i, |w1.state.tasks[i].attempts|, w1.quarantine) != map[])
      ensures calm ==>
        (ok <==> CanIntend(plan, old(disk),
            TaskRecovered(i, w1.state.tasks[i].status, |w1.state.tasks[i].attempts|, |quarantined|)))
      ensures calm && !ok ==> disk == old(disk)
    {
      hide PlanOk, Run, Inv, Does, Recoverable, HalfMoved, View, ListOf, Moved, Quarantined, Sealed, VerifyWorkspace;
      hide CanRecover, CanIntend, Commits, RecoveredWith, Recovery, AfterRecovery, Recovered, Tears, SameTasks, Present;
      var outputs, n, recorded := plan.tasks[i].outputs, |state.tasks[i].attempts|, Latest(state.tasks[i]).after;
      var seen := Present(observed, outputs);
      var after := if plan.version != 3 then None else if recorded.Some? then recorded else Some(observed);
      var clean := if plan.version == 3 then Some(disk.files) else None;
      var body := TaskRecovered(i, state.tasks[i].status, n, |quarantined|);
      var torn := if Tears(plan, disk, i, seen) then disk.torn + {(i, n)} else disk.torn;
      RecoveryIsWhole(plan, w1, disk, i, quarantined);
      RecoveredKeepsLog(plan, state, i, quarantined, after, clean);
      state := RecoveredWith(plan, state, i, quarantined, after, clean);
      RecoveryCommits(plan, disk, i, seen, state, body, torn);
      ghost var w2 := disk;
      ok := Commit(Recover(i, seen), body, torn);
      if ok {
        RecoveredNow(plan, w1, w2, disk, i, quarantined);
        TearsExactly(plan, w1, w2, i, torn);
      }
    }

    // ---------------------------------------------------------------- launching a child

    /** `_open_attempt_log` */
    method OpenLog(key: LogKey) returns (ok: bool)
      requires Good() && disk.state.pending.None? && FirstIncomplete(disk.state, key.task)
      requires disk.state.tasks[key.task].status == Pending && key.attempt == |disk.state.tasks[key.task].attempts| + 1
      modifies this`disk, this`trace
      ensures Good() && old(trace) <= trace && (calm ==> ok)
      ensures disk.(logs := old(disk.logs)) == old(disk)
      ensures old(disk.logs.Keys) <= disk.logs.Keys && (ok ==> key in disk.logs)
    {
      hide PlanOk, Run, Inv;
      GoodInv();
      NextLogIsEmpty(plan, disk, key);
      if key in disk.logs {
        return disk.logs[key] == [];
      }
      assert Does(plan, disk, MakeLog(key), disk.(logs := disk.logs[key := []]));
      hide Does;
      Step(MakeLog(key), disk.(logs := disk.logs[key := []]));
      var raised := Fault();
      ok := !raised;
    }

    /** The child of an attempt is gone when this returns. */
    method Reap(i: nat, n: nat) returns (returnCode: int)
      requires Good()
      modifies this`disk, this`trace
      ensures Good() && old(trace) <= trace && SameEvidenceAs(old(disk), disk) && disk.logs.Keys == old(disk.logs.Keys)
      ensures NoLeader(disk) && (calm ==> returnCode == exits(i, n))
    {
      hide PlanOk, Run;
      Elapse();
      var w := disk.(procs := map x | x in disk.procs && disk.procs[x].owner.None? :: disk.procs[x]);
      assert Does(plan, disk, Environment, w);
      hide Does;
      Step(Environment, w);
      returnCode := *;
      if calm {
        returnCode := exits(i, n);
      }
    }

    /** Shutdown may remain unconfirmed. */
    method StopChild(i: nat, n: nat) returns (returnCode: Option<int>)
      requires Good()
      modifies this`disk, this`trace
      ensures Good() && old(trace) <= trace && SameEvidenceAs(old(disk), disk) && disk.logs.Keys == old(disk.logs.Keys)
      ensures returnCode.Some? ==> NoLeader(disk)
    {
      hide PlanOk, Run, Does;
      Elapse();
      var confirmed: bool := *;
      if !confirmed {
        return None;
      }
      var code := Reap(i, n);
      returnCode := Some(code);
    }

    method Describe() returns (detail: string)
      ensures Text(detail)
    {
      detail := *;
      if !Text(detail) {
        detail := "x";
      }
    }

    /** The id and the start token of a new child. */
    method NewIdentity() returns (pid: int, token: string)
      ensures calm ==> pid > 0 && pid !in disk.procs && 0 < |token| <= MAX_TOKEN
    {
      pid, token := *, *;
      if calm && (pid <= 0 || pid in disk.procs) {
        ghost var free := FreeId(disk.procs.Keys);
        assert free > 0 && free !in disk.procs;
        pid :| pid > 0 && pid !in disk.procs;
      }
      if calm && !(0 < |token| <= MAX_TOKEN) {
        token := "t";
      }
    }

    /** From the launch to the end of the child. Wherever it stops, the durable record covers the child.
        Undisturbed, the child runs to its own end. */
    method LaunchChild(i: nat) returns (c: Child)
      requires Synced() && Launchable(disk, i)
      modifies this`disk, this`trace, this`state
      ensures Good() && old(trace) <= trace
      ensures Supervising(plan, old(disk), disk, i)
      ensures state == old(state) || exists pid, token :: state == Identified(plan, old(state), i, pid, token)
      ensures !c.Lost? ==> NoLeader(disk)
      ensures c.NotStarted? ==> disk.state == old(disk.state) && Text(c.detail)
      ensures c.Exited? ==>
        && c.pid > 0 && 0 < |c.token| <= MAX_TOKEN && (c.closure == NaturalEmpty || c.closure == Terminated)
        && (disk.state == old(disk.state) || disk.state == Identified(plan, old(disk.state), i, c.pid, c.token))
        && (c.launchError.Some? ==> Text(c.launchError.value))
        && (c.launchError.None? && !c.interrupted ==>
              state == disk.state == Identified(plan, old(disk.state), i, c.pid, c.token) && c.closure == NaturalEmpty)
      ensures calm ==> c.Exited? && c.launchError.None? && !c.interrupted && c.closure == NaturalEmpty
      ensures calm ==> c.returnCode == exits(i, |old(state).tasks[i].attempts|)
    {
      hide PlanOk, Run, Inv, Does, Identified, StateOk, SameTasks;
      var detail := Describe();
      var cleaned: bool := *;
      var fails := Fault();
      var pid, token := NewIdentity();
      if fails || pid <= 0 || pid in disk.procs {
        return NotStarted(cleaned, detail);
      }
      ghost var w0 := disk;
      var owner := (i, |state.tasks[i].attempts|);
      var w := disk.(procs := disk.procs[pid := Proc(token, Some(owner))], launches := disk.launches + {owner});
      SpawnDoes(plan, disk, i, pid, token, w);
      Step(Spawn(i, pid, token), w);
      Elapse();
      var mismatch := Fault();
      if plan.version >= 2 && mismatch {
        var code := StopChild(i, |state.tasks[i].attempts|);
        return Lost;
      }
      var captured := ProcessStartToken(pid);
      if captured.None? {
        var code := StopChild(i, |state.tasks[i].attempts|);
        return if code.None? then Lost else Exited(pid, "unavailable", code.value, Terminated, Some(detail), false);
      }
      c := Monitor(i, pid, captured.value, detail);
    }

    /** Record the identity of the child durably, then wait for it. */
    method Monitor(i: nat, pid: int, token: string, detail: string) returns (c: Child)
      requires Good() && state == disk.state && state.pending.None? && Guarded(disk, i) && pid > 0 && Text(detail)
      requires forall x :: x in disk.procs && disk.procs[x].owner.Some? ==> x == pid && disk.procs[x].token == token
      modifies this`disk, this`trace, this`state
      ensures Good() && old(trace) <= trace
      ensures disk.state == old(disk.state) || disk.state == Identified(plan, old(disk.state), i, pid, token)
      ensures state == Identified(plan, old(state), i, pid, token)
      ensures SameEvidenceAs(old(disk), disk.(state := old(disk.state))) && disk.logs.Keys == old(disk.logs.Keys)
      ensures !c.NotStarted? && (c.Exited? ==> NoLeader(disk))
      ensures c.Exited? ==>
        && c.pid == pid && c.token == token && 0 < |token| <= MAX_TOKEN
        && (c.closure == NaturalEmpty || c.closure == Terminated)
        && (c.launchError.Some? ==> Text(c.launchError.value))
        && (c.launchError.None? && !c.interrupted ==> state == disk.state && c.closure == NaturalEmpty)
      ensures calm && 0 < |token| <= MAX_TOKEN ==>
        c.Exited? && c.launchError.None? && !c.interrupted && c.returnCode == exits(i, |old(state).tasks[i].attempts|)
    {
      hide PlanOk, Run, Inv, Does, Identified, StateOk;
      if 0 < |token| <= MAX_TOKEN {
        GoodInv();
        IdentifiedIsValid(plan, disk, i, pid, token);
      }
      var n := |state.tasks[i].attempts|;
      state := Identified(plan, state, i, pid, token);
      var valid := ValidateStateShape(plan, state);
      if !valid {
        var code := StopChild(i, n);
        return Lost;
      }
      TokenBound(plan, disk.state, i, pid, token);
      c := Await(i, pid, token, detail);
    }

    /** Write the identity of the child and wait for its end. */
    method Await(i: nat, pid: int, token: string, detail: string) returns (c: Child)
      requires Good() && disk.state.pending.None? && Guarded(disk, i)
      requires pid > 0 && Text(detail) && 0 < |token| <= MAX_TOKEN
      requires state == Identified(plan, disk.state, i, pid, token)
      requires forall x :: x in disk.procs && disk.procs[x].owner.Some? ==> x == pid && disk.procs[x].token == token
      modifies this`disk, this`trace
      ensures Good() && old(trace) <= trace
      ensures disk.state == old(disk.state) || disk.state == state
      ensures SameEvidenceAs(old(disk), disk.(state := old(disk.state))) && disk.logs.Keys == old(disk.logs.Keys)
      ensures c.Lost? || (c.Exited? && NoLeader(disk) && c.pid == pid && c.token == token
                          && (c.closure == NaturalEmpty || c.closure == Terminated)
                          && (c.launchError.Some? ==> Text(c.launchError.value))
                          && (c.launchError.None? && !c.interrupted ==>
                                state == disk.state && c.closure == NaturalEmpty))
      ensures calm ==>
        && c.Exited? && c.launchError.None? && !c.interrupted
        && c.returnCode == exits(i, |old(disk).state.tasks[i].attempts|)
    {
      hide PlanOk, Run, Inv, Does, Identified, StateOk;
      var n := |disk.state.tasks[i].attempts|;
      IdentifyDoes(plan, disk, i, pid, token);
      var keyboard: bool, evidence: bool := *, *;
      var before := Fault();
      var after := Fault();
      var stopped := Fault();
      if !before {
        Step(Identify(i, pid, token), disk.(state := state));
      }
      if before || after || stopped {
        // the write raised, or the wait was interrupted or failed
        var code := StopChild(i, n);
        if code.None? || (evidence && !keyboard && (before || after)) {
          return Lost;
        }
        return Exited(pid, token, code.value, Terminated, if keyboard then None else Some(detail), keyboard);
      }
      var code := Reap(i, n);
      var lingering := Fault();
      if plan.version >= 2 && lingering {
        var ended := StopChild(i, n);
        return if ended.None? then Lost else Exited(pid, token, ended.value, Terminated, Some(detail), false);
      }
      c := Exited(pid, token, code, NaturalEmpty, None, false);
    }

    // ---------------------------------------------------------------- one task

    /** `_finish_failed_attempt`: the attempt and the run end failed, with the child's return code. Undisturbed,
        it raises only when the record of that failure does not fit, and then changes nothing. */
    method FinishFailed(i: nat, c: Child, status: AttemptStatus, after: Option<Tree>, ghost s0: State)
      returns (r: TaskResult, ghost record: Body)
      requires Good() && disk.state.pending.None? && state.pending.None?
      requires disk.bundle.None? && Supervised(plan, disk, i)
      requires Variant(plan, s0, state, i) && Variant(plan, s0, disk.state, i)
      requires !c.Lost? && ChildFits(plan, disk, i, c) && (status == AInterrupted ==> c.Exited?) && Ended(status)
      requires after == if plan.version == 3 then Some(disk.files) else None
      modifies this`disk, this`trace, this`state
      ensures Good() && old(trace) <= trace && disk.launches == old(disk.launches) && SameElsewhere(s0, disk.state, i)
      ensures r != TaskDone && disk.files == old(disk.files)
      ensures r == TaskClosed ==>
        && Synced() && disk.state.tasks[i].status == Failed && disk.state.status == RunFailed
        && SameElsewhere(old(disk.state), disk.state, i) && EndedAs(old(disk), disk, i, c, after)
      ensures FailureOf(old(disk), i, ReturnCode(c), record)
      ensures r == TaskClosed ==> Latest(disk.state.tasks[i]).error == Some(record.reason)
      ensures calm ==> (r == TaskClosed <==> CanIntend(plan, old(disk), record)) && (r == Raised ==> disk == old(disk))
    {
      hide PlanOk, Run, Inv, Does, CanIntend, Commits, Supervised, Variant, ChildFits, FailedBy, SameTasks;
      hide SameElsewhere;
      var detail := Describe();
      var e := EndingOf(c, status, after, detail);
      SupervisedShape(plan, disk, i);
      EndingFits(plan, disk, i, c, status, after, detail);
      VariantsFailAlike(plan, s0, state, disk.state, i, e);
      state := FailedBy(plan, state, i, e);
      var n := |disk.state.tasks[i].attempts|;
      var body := Body.TaskFailed(i, n, e.returnCode, detail);
      record := body;
      FailCommits(plan, disk, i, e, body);
      var ok := Commit(Fail(i, e), body, disk.torn);
      FailedElsewhere(plan, old(disk.state), disk.state, i, e);
      VariantElsewhere(plan, s0, old(disk.state), disk.state, i);
      r := if ok then TaskClosed else Raised;
    }

    /** Post-exit validation and the terminal transition of an attempt. Undisturbed, the task completes exactly
        when the child exited cleanly and delivered and the record fits; it fails only when the child did not exit
        cleanly or did not deliver; and the method raises only when the end cannot be recorded. */
    method CloseAttempt(i: nat, inputs: map<Path, Content>, c: Child, ghost s0: State)
      returns (r: TaskResult, ghost why: Halt)
      requires Good() && disk.state.pending.None? && state.pending.None?
      requires disk.bundle.None? && Supervised(plan, disk, i)
      requires Variant(plan, s0, state, i) && Variant(plan, s0, disk.state, i)
      requires !c.Lost? && ChildFits(plan, disk, i, c)
      requires c.Exited? && c.launchError.None? && !c.interrupted ==>
        state == disk.state && Latest(disk.state.tasks[i]).pid.Some?
      modifies this`disk, this`trace, this`state
      ensures Good() && old(trace) <= trace && disk.launches == old(disk.launches) && SameElsewhere(s0, disk.state, i)
      ensures disk.files == old(disk.files)
      ensures r == TaskClosed ==>
        && Synced() && disk.state.tasks[i].status == Failed && disk.state.status == RunFailed
        && SameElsewhere(old(disk.state), disk.state, i)
        && EndedAs(old(disk), disk, i, c, if plan.version == 3 then Some(disk.files) else None)
      ensures r == TaskDone ==> Synced() && SealedNow(plan, disk, i)
      ensures calm ==> (r == TaskDone <==> CleanExit(c) && Deliverable(plan, old(disk), i, inputs))
      ensures calm && r == TaskClosed ==> !(CleanExit(c) && Delivers(plan, old(disk), i, inputs))
      ensures calm && r == Raised ==>
        disk == old(disk) && CannotEnd(plan, disk, i, inputs, CleanExit(c), ReturnCode(c), why)
    {
      hide PlanOk, Run, Inv, Does, CanIntend, Variant, ChildFits, SameElsewhere, VerifyWorkspace, Sealed;
      hide SealedNow, Delivered, Supervised, EndedAs, FailureOf, CompletionOf;
      SupervisedShape(plan, disk, i);
      GoodInv();
      why := CannotObserve(i);
      if plan.version == 3 {
        NeverRefused(plan, disk, i);
      }
      var drifted := Fault();
      var postError := plan.version >= 2 && c.Exited? && drifted;
      var after: Option<Tree> := None;
      if plan.version == 3 {
        var verdict := if plan.scannable(disk.files)
          then VerifyWorkspace(
                 disk.files, plan.baseline, Sealed(disk.state.tasks, |disk.state.tasks|), plan.tasks[i].outputs)
          else Refused;
        if verdict.Refused? {
          VariantSame(plan, s0, disk.state, i);
          return Raised, why;
        }
        after := Some(disk.files);
        postError := postError || verdict.Drifted?;
      }
      if postError || !CleanExit(c) || !Delivered(plan, disk, i, inputs) {
        var interrupted := c.Exited? && c.interrupted && (postError || c.launchError.None?);
        ghost var record: Body;
        r, record := FinishFailed(i, c, if interrupted then AInterrupted else AFailed, after, s0);
        why := CannotRecord(record);
      } else {
        why := CannotRecord(CompletionOf(plan, disk, i));
        r := CompleteAttempt(i, inputs, after, s0);
      }
    }

    /** Seal the verified outputs of an attempt. */
    method CompleteAttempt(i: nat, ghost inputs: map<Path, Content>, after: Option<Tree>, ghost s0: State)
      returns (r: TaskResult)
      requires Good() && state == disk.state && state.pending.None? && disk.bundle.None? && Supervised(plan, disk, i)
      requires Variant(plan, s0, disk.state, i) && Latest(disk.state.tasks[i]).pid.Some?
      requires Delivered(plan, disk, i, inputs)
      requires after == if plan.version == 3 then Some(disk.files) else None
      modifies this`disk, this`trace, this`state
      ensures Good() && old(trace) <= trace && disk.launches == old(disk.launches) && SameElsewhere(s0, disk.state, i)
      ensures r != TaskClosed && (r == TaskDone ==> Synced() && SealedNow(plan, disk, i))
      ensures disk.files == old(disk.files)
      ensures calm ==> (r == TaskDone <==> CanIntend(plan, old(disk), CompletionOf(plan, old(disk), i)))
      ensures calm && r == Raised ==> disk == old(disk)
    {
      hide PlanOk, Run, Inv, Does, CanIntend, Commits, Variant, SameTasks, SameElsewhere, VerifyWorkspace, Sealed;
      var produced := Present(disk.files, plan.tasks[i].outputs);
      var body := TaskCompleted(i, |state.tasks[i].attempts|, |produced|);
      CompleteCommits(plan, disk, i, produced, after, body);
      state := CompletedWith(plan, state, i, produced, after);
      var ok := Commit(Complete(i, produced), body, disk.torn);
      CompletedElsewhere(plan, old(disk.state), disk.state, i, produced, after);
      VariantElsewhere(plan, s0, old(disk.state), disk.state, i);
      r := if ok then TaskDone else Raised;
    }

    /** The checks of `_run_task` before anything but empty logs is written. Without a fault they refuse only
        drifted files or an exhausted task; the limit on all attempts is never the one that refuses. */
    method PrepareAttempt(i: nat) returns (inputs: Option<map<Path, Content>>)
      requires Synced() && i < |plan.tasks| && FirstIncomplete(state, i) && state.tasks[i].status == Pending
      modifies this`disk, this`trace
      ensures Synced() && old(trace) <= trace && disk.(logs := old(disk.logs)) == old(disk)
      ensures calm ==> (inputs.Some? <==> CanBegin(plan, old(disk), i))
      ensures inputs.Some? ==>
        CanStart(plan, disk, i, inputs.value, if plan.version == 3 then Some(disk.files) else None)
      ensures inputs.Some? ==>
        |state.tasks| == |plan.tasks| && InputsVerified(plan, old(disk), i) &&
            inputs.value == InputsOf(plan, old(disk), i)
    {
      hide PlanOk, Run, Inv, Does, VerifyWorkspace, Sealed, StateOk, InputsMatch, Source, TotalAttempts;
      GoodInv();
      WithinBudget(plan, disk, i);
      var drifted := Fault();
      if plan.version >= 2 && drifted {
        return None;
      }
      var check := ExpectedInputs(plan, disk, i);
      if !check.Verified? {
        return None;
      }
      InputsFit(plan, disk, i, check.inputs);
      if exists q :: q in plan.tasks[i].outputs && q in disk.files {
        return None;
      }
      if plan.version == 3 && !(plan.scannable(disk.files) &&
          VerifyWorkspace(disk.files, plan.baseline, Sealed(state.tasks, |state.tasks|), []).Matched?) {
        return None;
      }
      var n := |state.tasks[i].attempts| + 1;
      if n > MAX_ATTEMPTS_PER_TASK || TotalAttempts(state.tasks) >= MAX_TOTAL_ATTEMPTS {
        return None;
      }
      ghost var w0 := disk;
      var ok := OpenLog(LogKey(i, n, false));
      if !ok {
        return None;
      }
      ok := OpenLog(LogKey(i, n, true));
      if !ok {
        return None;
      }
      InputsFrame(plan, w0, disk, i, check.inputs);
      inputs := Some(check.inputs);
    }

    /** `_run_task`: at most one launch, of the next attempt; success seals exactly the declared outputs.
        Undisturbed, the child is launched exactly when the task can begin and its start fits into the log; it
        runs to its own end; the task completes exactly when the child succeeds and delivers and the record fits,
        and fails only when the child does not; and the method raises only where the task cannot go on. */
    method RunTask(i: nat) returns (r: TaskResult, launched: bool, ghost exit: World, ghost why: Halt)
      requires Synced() && i < |plan.tasks| && FirstIncomplete(state, i) && state.tasks[i].status == Pending
      modifies this`disk, this`trace, this`state
      ensures Good() && old(trace) <= trace && SameElsewhere(old(disk.state), disk.state, i)
      ensures disk.launches <= old(disk.launches) + {(i, |old(disk).state.tasks[i].attempts| + 1)}
      ensures r == TaskClosed ==> Synced() && disk.state.tasks[i].status == Failed && disk.state.status == RunFailed
      ensures r == TaskDone ==> Synced() && SealedNow(plan, disk, i)
      ensures calm ==>
        (launched <==>
           && CanBegin(plan, old(disk), i)
           && CanIntend(plan, old(disk), TaskStarted(i, |old(disk).state.tasks[i].attempts| + 1)))
      ensures calm && !launched ==> r == Raised && disk.(logs := old(disk.logs)) == old(disk)
      ensures calm && launched ==>
        && Visits(trace, |old(trace)|, exit) && RanToEnd(exit, i) && disk.files == exit.files
        && |exit.state.tasks[i].attempts| == |old(disk).state.tasks[i].attempts| + 1
        && Latest(exit.state.tasks[i]).inputs == InputsOf(plan, old(disk), i)
        && EndsAs(plan, exit, disk, i, exits, r, why)
    {
      hide PlanOk, Run, Inv, Does, CanIntend, CanBegin, Visits, InputsOf, Launchable, EndsAs;
      launched, exit, why := false, disk, CannotBegin(i);
      var inputs := StartAttempt(i);
      if inputs.None? {
        return Raised, false, exit, why;
      }
      ghost var n := |trace|;
      launched := true;
      r, exit, why := Supervise(i, inputs.value);
      if calm { VisitsLater(trace, trace, |old(trace)|, n, exit); }
    }

    /** Everything up to the durable record of the start, behind the launch guard. */
    method StartAttempt(i: nat) returns (inputs: Option<map<Path, Content>>)
      requires Synced() && i < |plan.tasks| && FirstIncomplete(state, i) && state.tasks[i].status == Pending
      modifies this`disk, this`trace, this`state
      ensures Good() && old(trace) <= trace && SameElsewhere(old(disk.state), disk.state, i)
      ensures disk.launches == old(disk.launches)
      ensures inputs.Some? ==> Synced() && Launchable(disk, i) && NothingQuarantined(disk, i)
      ensures inputs.Some? ==>
        |disk.state.tasks[i].attempts| == |old(disk).state.tasks[i].attempts| + 1 &&
            Latest(disk.state.tasks[i]).inputs == inputs.value
      ensures calm && inputs.None? ==> disk.(logs := old(disk.logs)) == old(disk)
      ensures inputs.Some? ==>
        |old(state.tasks)| == |plan.tasks| && InputsVerified(plan, old(disk), i) &&
            inputs.value == InputsOf(plan, old(disk), i)
      ensures calm ==>
        (inputs.Some? <==>
           && CanBegin(plan, old(disk), i)
           && CanIntend(plan, old(disk), TaskStarted(i, |old(disk).state.tasks[i].attempts| + 1)))
    {
      hide PlanOk, Run, Inv, Does, CanIntend, CanStart, Commits, SameTasks, Started, CanBegin, InputsOf;
      ghost var w00 := disk;
      inputs := PrepareAttempt(i);
      if inputs.None? {
        return;
      }
      SameIntents(plan, w00, disk);
      var before := if plan.version == 3 then Some(disk.files) else None;
      GoodInv();
      StartCommits(plan, disk, i, inputs.value, before);
      FreshAttempt(plan, disk, i);
      ghost var w0 := disk;
      var body := TaskStarted(i, |state.tasks[i].attempts| + 1);
      StartedFacts(plan, state, state, i, inputs.value, before);
      state := Started(plan, state, i, inputs.value, before);
      var ok := Commit(Start(i, inputs.value, before), body, disk.torn);
      StartedFacts(plan, w0.state, disk.state, i, inputs.value, before);
      if !ok {
        inputs := None;
      }
    }

    /** Launch the child of a started attempt and close the attempt. */
    method Supervise(i: nat, inputs: map<Path, Content>) returns (r: TaskResult, ghost exit: World, ghost why: Halt)
      requires Synced() && i < |plan.tasks| && Launchable(disk, i) && NothingQuarantined(disk, i)
      requires Latest(disk.state.tasks[i]).inputs == inputs
      modifies this`disk, this`trace, this`state
      ensures Good() && old(trace) <= trace && SameElsewhere(old(disk.state), disk.state, i)
      ensures disk.launches <= old(disk.launches) + {(i, |old(disk).state.tasks[i].attempts|)}
      ensures r == TaskClosed ==> Synced() && disk.state.tasks[i].status == Failed && disk.state.status == RunFailed
      ensures r == TaskDone ==> Synced() && SealedNow(plan, disk, i)
      ensures calm ==>
        && Visits(trace, |old(trace)|, exit) && RanToEnd(exit, i) && disk.files == exit.files
        && |exit.state.tasks[i].attempts| == |old(disk).state.tasks[i].attempts|
        && Latest(exit.state.tasks[i]).inputs == inputs
        && EndsAs(plan, exit, disk, i, exits, r, why)
    {
      hide PlanOk, Run, Inv, Does, Deliverable, Visits, EndsAs, CannotEnd, Delivers, SealedNow;
      hide Identified, Variant, Supervising, SameElsewhere, ChildFits, EndedAs, NothingQuarantined;
      GoodInv();
      ghost var w0 := disk;
      GuardHasNoChild(plan, disk, i);
      var child := LaunchChild(i);
      exit, why := disk, CannotObserve(i);
      ghost var t := trace;
      SupervisingVariant(plan, w0, disk, state, i);
      if child.Lost? {
        VariantSame(plan, w0.state, disk.state, i);
        return Raised, exit, why;
      }
      ChildFitsNow(plan, w0, disk, i, child);
      r, why := CloseAttempt(i, inputs, child, w0.state);
      if calm {
        VisitsNow(t, |old(trace)|);
        VisitsLater(t, trace, |old(trace)|, |old(trace)|, exit);
        EndsAsClosed(plan, exit, disk, i, child, exits, r, why);
      }
    }

    // ---------------------------------------------------------------- whole sessions

    /** `_build_bundle` followed by `verify_run`: without a fault, sealing and verification succeed together,
        exactly when the run loads and every completed output is intact. */
    method SealRun() returns (ok: bool)
      requires Synced() && state.status == RunCompleted
      modifies this`disk, this`trace
      ensures Good() && old(trace) <= trace && disk.(bundle := old(disk.bundle)) == old(disk)
      ensures ok ==> VerifyOk(plan, disk)
      ensures calm ==> (ok <==> CanSeal(plan, old(disk)))
    {
      hide PlanOk, Run, Inv, Does, LogStatus, VerifyWorkspace, BundleFor, Sealed, Lawful, VerifyOk;
      hide LoadOk, OutputsMatch;
      GoodInv();
      StableWhenAcknowledged(plan, disk);
      SealNeedsLoad(plan, disk);
      var bundle := BuildBundle(plan, disk);
      if bundle.None? {
        return false;
      }
      SealDoes(plan, disk, bundle.value);
      SealThenVerify(plan, disk, bundle.value, disk.(bundle := bundle));
      Step(Seal(bundle.value), disk.(bundle := bundle));
      var raised := Fault();
      if raised {
        return false;
      }
      ok := VerifyRun(plan, disk);
    }

    /** `_execute_remaining`: success means a sealed run that verifies; and a session launches only
        tasks that were incomplete when it began, each at most once, as its next attempt. Undisturbed, it closes
        the run only for a child that failed or did not deliver, and raises only in a world from which it cannot
        go on. */
    method ExecuteRemaining(operation: string) returns (r: RunResult, ghost why: Halt)
      requires Synced() && Text(operation)
      modifies this`disk, this`trace, this`state
      ensures Good() && old(trace) <= trace
      ensures NewLaunches(old(disk), disk)
      ensures r == RunDone ==> VerifyOk(plan, disk)
      ensures r == RunClosed ==> Synced() && disk.state.status == RunFailed
      ensures calm && r == RunClosed ==> Closed(plan, disk, exits)
      ensures calm && r == RunRaised ==> Halts(plan, disk, exits, operation, why)
      ensures calm && r == RunRaised && why.CannotRecover? ==> disk.state == old(disk.state)
    {
      hide PlanOk, Run, Inv, Does, VerifyOk, CanIntend, Commits, SealedNow, Launched, Halts, Closed;
      ghost var w0 := disk;
      why := CannotSeal;
      GoodInv();
      for i := 0 to |plan.tasks|
        invariant Synced() && old(trace) <= trace && |state.tasks| == |plan.tasks| == |w0.state.tasks|
        invariant forall j :: 0 <= j < i ==> state.tasks[j].status == Completed
        invariant forall j :: i <= j < |state.tasks| ==> state.tasks[j] == w0.state.tasks[j]
        invariant (exists j :: 0 <= j < i && w0.state.tasks[j].status != Completed) || state == w0.state
        invariant NewLaunches(w0, disk)
      {
        if state.tasks[i].status == Completed {
          if !SealedNow(plan, disk, i) {
            HaltsAtDrift(plan, disk, i, exits, operation);
            return RunRaised, OutputsDrifted(i);
          }
        } else {
          if exists j :: 0 <= j < i && w0.state.tasks[j].status != Completed {
            LaterIsPending(plan, w0, i);
          }
          r, why := RunOne(i, operation, w0);
          if r != RunDone {
            return;
          }
        }
      }
      r, why := FinishRun(operation);
    }

    /** Recover the task if an earlier session left it unrecovered, then run it. */
    method RunOne(i: nat, operation: string, ghost w0: World) returns (r: RunResult, ghost why: Halt)
      requires Synced() && i < |plan.tasks| && FirstIncomplete(state, i)
      requires |state.tasks| == |plan.tasks| == |w0.state.tasks|
      requires w0.state.tasks[i] == state.tasks[i] && NewLaunches(w0, disk)
      requires state.tasks[i].status != Pending ==> state == w0.state
      modifies this`disk, this`trace, this`state
      ensures Good() && old(trace) <= trace && NewLaunches(w0, disk)
      ensures r == RunDone ==> Synced() && SameElsewhere(old(state), state, i) && state.tasks[i].status == Completed
      ensures r == RunClosed ==> Synced() && disk.state.status == RunFailed
      ensures calm && r == RunClosed ==> Closed(plan, disk, exits)
      ensures calm && r == RunRaised ==> Halts(plan, disk, exits, operation, why)
      ensures calm && r == RunRaised && why.CannotRecover? ==> disk.state == w0.state
    {
      hide PlanOk, Run, Inv, Does, VerifyOk, Recovered, CanIntend, Commits, SealedNow, Launched, Halts, Closed;
      hide CanBegin, RecoveryReady, AllGone;
      if state.tasks[i].status != Pending {
        ghost var w1 := disk;
        var recovered := RecoverIncompleteTask(i);
        if !recovered {
          if calm {
            HaltsAtRecovery(plan, disk, i, exits, operation);
          }
          return RunRaised, CannotRecover(i);
        }
        RecoveredFacts(plan, w1, disk, i);
      }
      r, why := RunPending(i, operation, w0);
    }

    method RunPending(i: nat, operation: string, ghost w0: World) returns (r: RunResult, ghost why: Halt)
      requires Synced() && i < |plan.tasks| && FirstIncomplete(state, i)
      requires |state.tasks| == |plan.tasks| == |w0.state.tasks|
      requires state.tasks[i].status == Pending && |state.tasks[i].attempts| == |w0.state.tasks[i].attempts|
      requires w0.state.tasks[i].status != Completed && NewLaunches(w0, disk)
      modifies this`disk, this`trace, this`state
      ensures Good() && old(trace) <= trace && NewLaunches(w0, disk)
      ensures r == RunDone ==> Synced() && SameElsewhere(old(state), state, i) && state.tasks[i].status == Completed
      ensures r == RunClosed ==> Synced() && disk.state.status == RunFailed
      ensures calm && r == RunClosed ==> Closed(plan, disk, exits)
      ensures calm && r == RunRaised ==> Halts(plan, disk, exits, operation, why) && !why.CannotRecover?
    {
      hide PlanOk, Run, Inv, Does, CanIntend, Commits, SealedNow, Launched, Halts, Closed, Visits, CanBegin;
      hide InputsOf, EndsAs;
      ghost var w1 := disk;
      GoodInv();
      var result, launched, exit, reason := RunTask(i);
      MoreLaunches(w0, w1, disk, i);
      GoodInv();
      why := reason;
      if calm {
        if launched {
          SessionEnds(plan, exit, disk, i, exits, operation, result, reason);
        } else {
          BeginFrame(plan, w1, disk, i);
          why := HaltsAtBegin(plan, disk, i, exits, operation);
        }
      }
      if result == TaskDone {
        SealedNowFacts(plan, disk, i);
      }
      r := if result == Raised then RunRaised else if result == TaskClosed then RunClosed else RunDone;
    }

    /** The record of the completed run, the bundle, and its verification. */
    method FinishRun(operation: string) returns (r: RunResult, ghost why: Halt)
      requires Synced() && Text(operation) && |state.tasks| == |plan.tasks| && AllCompleted(state)
      modifies this`disk, this`trace, this`state
      ensures Good() && old(trace) <= trace && disk.launches == old(disk.launches) && r != RunClosed
      ensures r == RunDone ==> VerifyOk(plan, disk)
      ensures calm && r == RunRaised ==> Halts(plan, disk, exits, operation, why) && !why.CannotRecover?
    {
      hide PlanOk, Run, Inv, Does, VerifyOk, CanIntend, Commits, Halts, CanSeal;
      FinishCommits(plan, disk, operation);
      state := Finished(state);
      var ok := Commit(Finish(operation), RunFinished(operation, |plan.tasks|), disk.torn);
      why := CannotRecord(RunFinished(operation, |plan.tasks|));
      if !ok {
        if calm {
          HaltsAtFinish(plan, disk, exits, operation);
        }
        return RunRaised, why;
      }
      why := CannotSeal;
      ghost var w1 := disk;
      var verified := SealRun();
      if calm && !verified {
        SealFrame(plan, w1, disk);
        HaltsAtFinish(plan, disk, exits, operation);
      }
      r := if verified then RunDone else RunRaised;
    }

    /** `_start_run_checked` once the run directory exists. */
    method StartRun(suite: string) returns (r: RunResult, ghost why: Halt)
      requires Synced() && Init(plan, disk)
      modifies this`disk, this`trace, this`state
      ensures Good() && old(trace) <= trace
      ensures forall o :: o in disk.launches ==> o.1 == 1
      ensures r == RunDone ==> VerifyOk(plan, disk)
      ensures r == RunClosed ==> Synced() && disk.state.status == RunFailed
      ensures calm && r == RunClosed ==> Closed(plan, disk, exits)
      ensures calm && r == RunRaised ==>
        if CanIntend(plan, old(disk), RunStarted(suite, |plan.tasks|))
        then Halts(plan, disk, exits, "start", why) && !why.CannotRecover?
        else disk == old(disk)
    {
      hide PlanOk, Run, Inv, Does, VerifyOk, CanIntend, Halts, Closed;
      BeginCommits(plan, disk, suite);
      ghost var w0 := disk;
      why := CannotRecord(RunStarted(suite, |plan.tasks|));
      var ok := Commit(Begin(suite), RunStarted(suite, |plan.tasks|), disk.torn);
      if !ok {
        return RunRaised, why;
      }
      assert forall j :: 0 <= j < |w0.state.tasks| ==>
          w0.state.tasks[j].attempts == [] && w0.state.tasks[j].status == Pending;
      assert Text("start") by { assert forall k :: 0 <= k < 5 ==> "start"[k] != '\0'; }
      r, why := ExecuteRemaining("start");
      if calm && r == RunRaised {
        NothingToRecover(plan, disk, exits, "start", why);
      }
    }

    /** `_resume_run_checked`: a refused bound resume changes nothing, a sealed run is never changed, and an
        accepted decision describes the world on which the first transition was committed. Undisturbed, and
        with every recorded child gone, a resume is accepted exactly when the run loads, its completed outputs
        are intact and its next task has attempts left, or, when bound, its decision is the expected one. */
    method ResumeRun(expected: Option<Decision>)
      returns (r: RunResult, committed: bool, ghost at: nat, ghost why: Halt)
      requires Good()
      modifies this`disk, this`trace, this`state
      ensures Good() && old(trace) <= trace && NewLaunches(old(disk), disk)
      ensures r == RunDone ==> VerifyOk(plan, disk)
      ensures expected.Some? && !committed ==> SameEvidenceAs(old(disk), disk)
      ensures !committed ==>
        SameTasks(old(disk.state), disk.state) && disk.quarantine == old(disk.quarantine) && Settled(old(disk), disk)
      ensures old(disk.bundle.Some?) ==>
        !committed && SameEvidenceAs(old(disk), disk) && disk.files == old(disk.files) && disk.logs == old(disk.logs)
      ensures committed ==>
        && |old(trace)| - 1 <= at < |trace| && NoLeader(trace[at]) && trace[at].state.pending.None?
        && (|trace| > at + 1 ==> Does(plan, trace[at], Resume, trace[at + 1]))
        && SameTasks(old(disk.state), trace[at].state)
      ensures committed && expected.Some? ==>
        SameEvidenceAs(old(disk), trace[at]) && CanDecide(plan, trace[at]) &&
            DecisionOf(plan, trace[at]) == expected.value
      ensures calm && old(disk.bundle.None?) && AllGone(old(disk)) ==>
        (committed <==> Resumable(plan, old(disk), expected))
      ensures calm && old(disk.bundle.Some?) && expected.None? ==> (r == RunDone <==> VerifyOk(plan, old(disk)))
      ensures !NoGuards(old(disk)) ==> !committed
      ensures r == RunClosed ==> committed && Synced() && disk.state.status == RunFailed
      ensures calm && r == RunClosed ==> Closed(plan, disk, exits)
      ensures calm && committed && r == RunRaised ==>
        if CanIntend(plan, trace[at], RunResumed(trace[at].state.status)) then
          && Halts(plan, disk, exits, "resume", why)
          && (why.CannotRecover? ==> disk.state.tasks == old(disk.state.tasks))
        else
          disk == trace[at]
    {
      hide PlanOk, Run, Inv, Does, VerifyOk, CanIntend, CanDecide, DecisionOf, Halts, Closed;
      hide AllGone, Resumable;
      why := CannotSeal;
      ghost var w0 := disk;
      var verified: bool;
      committed, verified := AcceptResume(expected);
      SameLaunches(w0, disk);
      at := |trace| - 1;
      r := if verified then RunDone else RunRaised;
      if committed {
        r, why := ContinueRun(w0);
      }
    }

    /** Everything a resume does before its first transition: load, check the expected decision, verify a sealed
        run, bring a pending record to its end, and check the prerequisites. */
    method AcceptResume(expected: Option<Decision>) returns (accepted: bool, verified: bool)
      requires Good()
      modifies this`disk, this`trace, this`state
      ensures Good() && old(trace) <= trace && disk.launches == old(disk.launches)
      ensures SameTasks(old(disk.state), disk.state)
      ensures disk.quarantine == old(disk.quarantine) && Settled(old(disk), disk)
      ensures expected.Some? ==> SameEvidenceAs(old(disk), disk)
      ensures old(disk.bundle.Some?) ==>
        !accepted && SameEvidenceAs(old(disk), disk) && disk.files == old(disk.files) && disk.logs == old(disk.logs)
      ensures verified ==> VerifyOk(plan, disk)
      ensures accepted ==> Synced() && NoGuards(disk)
      ensures accepted && expected.Some? ==> CanDecide(plan, disk) && DecisionOf(plan, disk) == expected.value
      ensures calm && old(disk.bundle.None?) && AllGone(old(disk)) ==>
        (accepted <==> Resumable(plan, old(disk), expected))
      ensures calm && old(disk.bundle.Some?) && expected.None? ==> (verified <==> VerifyOk(plan, old(disk)))
    {
      hide PlanOk, Run, Inv, Does, VerifyOk, LoadOk, CanDecide, DecisionOf, Lawful, StateOk, AllGone;
      hide Resumable, ReadyFor;
      accepted, verified := false, false;
      ghost var w0 := disk;
      GoodInv();
      SealedIsQuiet(plan, disk);
      ResumableLoads(plan, w0, expected);
      var loaded := LoadContext(plan, disk);
      if loaded.None? {
        return;
      }
      state := loaded.value;
      var drifted := Fault();
      if drifted {
        return;
      }
      ResumableWhen(plan, w0, expected);
      ReadyForDecided(plan, w0, expected);
      if expected.Some? {
        var matched := CheckDecision(expected.value);
        if !matched {
          return;
        }
      }
      if disk.bundle.Some? {
        GoodInv();
        SealedIsWhole(plan, disk);
        if state.pending.None? && state.status == RunCompleted {
          verified := VerifyRun(plan, disk);
        }
        return;
      }
      if expected.None? {
        var stable := Reconciled(w0);
        if !stable {
          return;
        }
      }
      accepted := ReadyToResume(expected);
    }

    /** Bring a pending record to its end; the run is as ready as before. */
    method Reconciled(ghost w0: World) returns (stable: bool)
      requires Good() && state == disk.state && disk == w0
      modifies this`disk, this`trace, this`state
      ensures Good() && old(trace) <= trace && disk.launches == w0.launches && disk.bundle == w0.bundle
      ensures SameTasks(w0.state, disk.state) && disk.quarantine == w0.quarantine && Settled(w0, disk)
      ensures stable ==> state == disk.state && state.pending.None?
      ensures calm ==> stable
      ensures calm && AllGone(w0) ==>
        AllGone(disk) && (ReadyFor(plan, disk, None) <==>
            ReadyFor(plan, w0.(state := w0.state.(pending := None)), None))
    {
      hide PlanOk, Run, Inv, Does, AllGone, ReadyFor;
      GoodInv();
      var diverged: bool;
      diverged, stable := ReconcilePendingEvent();
      if calm && AllGone(w0) {
        GoneMeansNoLeader(plan, w0);
        GoneLater(w0, disk);
        ReadyLater(plan, w0, disk);
      }
    }

    /** The first transition of a resume and the rest of the session. */
    method ContinueRun(ghost w0: World) returns (r: RunResult, ghost why: Halt)
      requires Synced() && NoGuards(disk) && NewLaunches(w0, disk)
      requires disk.launches == w0.launches && SameTasks(w0.state, disk.state)
      modifies this`disk, this`trace, this`state
      ensures Good() && old(trace) <= trace && NewLaunches(w0, disk)
      ensures r == RunDone ==> VerifyOk(plan, disk)
      ensures |trace| > |old(trace)| ==> Does(plan, old(disk), Resume, trace[|old(trace)|])
      ensures r == RunClosed ==> Synced() && disk.state.status == RunFailed
      ensures calm && r == RunClosed ==> Closed(plan, disk, exits)
      ensures calm && r == RunRaised ==>
        if CanIntend(plan, old(disk), RunResumed(old(disk).state.status))
        then Halts(plan, disk, exits, "resume", why) && (why.CannotRecover? ==> disk.state.tasks == w0.state.tasks)
        else disk == old(disk)
    {
      hide PlanOk, Run, Inv, Does, VerifyOk, CanIntend, Commits, Halts, Closed;
      why := CannotRecord(RunResumed(state.status));
      ResumeCommits(plan, disk);
      var body := RunResumed(state.status);
      state := Resumed(state);
      var ok := Commit(Resume, body, disk.torn);
      SameLaunches(w0, disk);
      if !ok {
        return RunRaised, why;
      }
      ghost var w2 := disk;
      assert Text("resume") by { assert forall k :: 0 <= k < 6 ==> "resume"[k] != '\0'; }
      r, why := ExecuteRemaining("resume");
      LaunchesCompose(w0, w2, disk);
    }

    /** Rebuild the decision and compare it with the reviewed one. */
    method CheckDecision(expected: Decision) returns (matched: bool)
      requires Good() && state == disk.state
      modifies this`disk, this`trace
      ensures Good() && old(trace) <= trace && SameEvidenceAs(old(disk), disk) && Settled(old(disk), disk)
      ensures matched ==> NoLeader(disk) && CanDecide(plan, disk) && DecisionOf(plan, disk) == expected
      ensures calm && AllGone(old(disk)) ==>
        disk == old(disk) && (matched <==> CanDecide(plan, disk) && DecisionOf(plan, disk) == expected)
    {
      hide PlanOk, Run, Inv, Does, CanDecide, DecisionOf, Lawful, AllGone;
      GoodInv();
      if AllGone(disk) { GoneMeansNoLeader(plan, disk); }
      var dead := AssertRecoveryLiveness();
      if !dead {
        return false;
      }
      GoodInv();
      var current := BuildResumeDecision(plan, disk);
      matched := current == Some(expected);
    }

    /** The checks between reconciliation and the first transition of a resume. */
    method ReadyToResume(expected: Option<Decision>) returns (ready: bool)
      requires Good() && state == disk.state
      modifies this`disk, this`trace
      ensures Good() && old(trace) <= trace && SameEvidenceAs(old(disk), disk) && Settled(old(disk), disk)
      ensures ready ==> NoLeader(disk) && state.pending.None? && NoGuards(disk)
      ensures ready && expected.Some? ==> CanDecide(plan, disk) && DecisionOf(plan, disk) == expected.value
      ensures calm && AllGone(old(disk)) ==> disk == old(disk) && (ready <==> ReadyFor(plan, disk, expected))
    {
      hide PlanOk, Run, Inv, Does, CanDecide, DecisionOf, PrefixVerified, AllGone, ReadyFor, AttemptsLeft;
      GoodInv();
      if AllGone(disk) { GoneMeansNoLeader(plan, disk); }
      ReadyForMeans(plan, disk, expected);
      if state.pending.Some? || !PrefixVerified(plan, disk) {
        return false;
      }
      var dead := AssertRecoveryLiveness();
      if !dead {
        return false;
      }
      GoodInv();
      GuardsAreRunning(plan, disk);
      ready := CheckBudget();
      var drifted := Fault();
      if !ready || drifted {
        return false;
      }
      if expected.Some? {
        ready := CheckDecision(expected.value);
      }
    }

    /** `_assert_resume_attempt_budget`: the next task has attempts left; the limit on all attempts never binds. */
    method CheckBudget() returns (ok: bool)
      requires Good() && state == disk.state
      ensures ok <==> AttemptsLeft(state.tasks)
    {
      hide PlanOk, Run, Inv, TotalAttempts;
      GoodInv();
      var n := CompletedPrefix(state.tasks);
      ok := true;
      if n < |state.tasks| {
        WithinBudget(plan, disk, n);
        ok := |state.tasks[n].attempts| < MAX_ATTEMPTS_PER_TASK && TotalAttempts(state.tasks) < MAX_TOTAL_ATTEMPTS;
      }
    }
  }
}
