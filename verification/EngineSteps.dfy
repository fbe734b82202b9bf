/** The vocabulary of the engine's methods, and why each of their writes is a legal step. */
module EngineSteps {
  import opened Basics
  import opened Events
  import opened EventLog
  import opened WorkspaceTree
  import opened RunState
  import opened Lifecycle
  import opened World
  import opened Invariants
  import opened KeepLog
  import opened KeepWorkspace
  import opened ValidUpdates
  import opened Runs
  import opened Load
  import opened QuarantineRecovery
  import opened Inputs
  import opened Sealing
  import opened Readiness
  import opened Decision

  datatype Liveness = Alive | Dead | Unknown

  /** The engine parts of two worlds agree; only processes and what a live child may write differ. */
  predicate SameEvidenceAs(w: World, w': World)
  {
    && w'.state == w.state && w'.log == w.log && w'.quarantine == w.quarantine
    && w'.bundle == w.bundle && w'.launches == w.launches && w'.torn == w.torn
  }

  predicate Settled(w: World, w': World)
  {
    NoLeader(w) ==> NoLeader(w') && w'.files == w.files && w'.logs == w.logs
  }

  /** Same task records, whatever the log bookkeeping. */
  predicate SameTasks(s: State, t: State)
  {
    s.(eventLog := t.eventLog, pending := t.pending) == t
  }

  lemma AcknowledgedRecord(p: Plan, w: World, es: seq<Event>)
    requires Lawful(p.codec) && LogInv(p, w) && w.state.pending.Some? && |w.log| != w.state.eventLog.size
    requires Accepted(p.codec, p.Head(), w.log, es)
    ensures Observe(p.codec, es) == Observation(p.codec.sha(w.log), |w.log|, w.state.eventLog.count + 1)
  {
    SizeTellsPosition(p, w);
    DecodeUnique(p.codec, es, Records(p, w));
  }

  lemma StableIsWhole(p: Plan, w: World, ack: Observation)
    requires LogStatus(p.codec, p.Head(), w.log, ack, None) == Some(Stable)
    ensures |w.log| == ack.size
  {
    hide Lawful;
    var es :| Accepted(p.codec, p.Head(), w.log, es) &&
        Some(Stable) == StatusOf(p.codec, w.log, Observe(p.codec, es), ack, None);
  }

  /** No live leader belongs to task `i`. */
  ghost predicate Idle(w: World, i: nat)
  {
    forall x :: x in w.procs && w.procs[x].owner.Some? ==> w.procs[x].owner.value.0 != i
  }

  /** The recorded child of a running attempt of `i` is identified and no longer there. */
  ghost predicate ChildGone(w: World, i: nat)
    requires i < |w.state.tasks|
  {
    var t := w.state.tasks[i];
    t.status == Running ==>
      && t.attempts != [] && !Latest(t).guard
      && (Latest(t).pid.Some? && Latest(t).pid.value in w.procs ==>
            Latest(t).token != Some(w.procs[Latest(t).pid.value].token))
  }

  ghost predicate AllGone(w: World)
  {
    forall i :: 0 <= i < |w.state.tasks| ==> ChildGone(w, i)
  }

  /** How a launch ended: no child, a child that is gone, or a child the engine lost sight of. */
  datatype Child =
    | NotStarted(cleaned: bool, detail: string)
    | Exited(pid: int, token: string, returnCode: int, closure: Closure, launchError: Option<string>, interrupted: bool)
    | Lost

  /** The latest attempt of `i` is running behind its launch guard. */
  predicate Guarded(w: World, i: nat)
  {
    FirstIncomplete(w.state, i) && w.state.tasks[i].status == Running && w.state.tasks[i].attempts != [] &&
        Latest(w.state.tasks[i]).guard
  }

  predicate Launchable(w: World, i: nat)
  {
    Guarded(w, i) && (i, |w.state.tasks[i].attempts|) !in w.launches
  }

  /** What supervising the child of `i` may have changed. */
  ghost predicate Supervising(p: Plan, w0: World, w: World, i: nat)
    requires i < |w0.state.tasks| && w0.state.tasks[i].attempts != []
  {
    && w.log == w0.log && w.quarantine == w0.quarantine && w.bundle == w0.bundle && w.torn == w0.torn
    && w.launches <= w0.launches + {(i, |w0.state.tasks[i].attempts|)}
    && w.logs.Keys == w0.logs.Keys
    && (w.state == w0.state || exists pid, token :: w.state == Identified(p, w0.state, i, pid, token))
  }

  datatype TaskResult = TaskDone | TaskClosed | Raised

  /** The launched record of `i`, with or without the identity of its child. */
  ghost predicate Variant(p: Plan, s0: State, s: State, i: nat)
  {
    && Started1(s0, i)
    && (s == s0 || exists pid, token :: s == Identified(p, s0, i, pid, token))
  }

  predicate Started1(s: State, i: nat)
  {
    i < |s.tasks| && s.tasks[i].attempts != [] && s.tasks[i].status == Running
  }

  predicate SameElsewhere(s0: State, s: State, i: nat)
  {
    |s.tasks| == |s0.tasks| && forall j :: 0 <= j < |s.tasks| && j != i ==> s.tasks[j] == s0.tasks[j]
  }

  /** The end of the child agrees with what is durably known about it. */
  ghost predicate ChildFits(p: Plan, w: World, i: nat, c: Child)
  {
    && Started1(w.state, i) && !c.Lost?
    && (c.NotStarted? ==> Latest(w.state.tasks[i]).pid.None?)
    && (c.Exited? ==>
          && c.pid > 0 && 0 < |c.token| <= MAX_TOKEN && (c.closure == NaturalEmpty || c.closure == Terminated)
          && (Latest(w.state.tasks[i]).pid.Some? ==>
                Latest(w.state.tasks[i]).pid == Some(c.pid) && Latest(w.state.tasks[i]).token == Some(c.token)))
  }

  function EndingOf(c: Child, status: AttemptStatus, after: Option<Tree>, detail: string): Ending
    requires !c.Lost?
  {
    match c
    case NotStarted(cleaned, _) => Ending(AFailed, None, None, None, if cleaned then LaunchCleaned
        else NotCreated, after, detail)
    case Exited(pid, token, returnCode, closure, _, _) => Ending(status, Some(pid), Some(token), Some(returnCode),
        closure, after, detail)
  }

  /** Task `i` is complete and the workspace holds exactly the outputs it verified. */
  predicate SealedNow(p: Plan, w: World, i: nat)
  {
    && i < |p.tasks| && i < |w.state.tasks| && w.state.tasks[i].status == Completed
    && w.state.tasks[i].outputs.Keys == Elements(p.tasks[i].outputs)
    && forall q :: q in w.state.tasks[i].outputs ==> q in w.files && w.files[q] == File(w.state.tasks[i].outputs[q])
  }

  predicate NothingQuarantined(w: World, i: nat)
    requires i < |w.state.tasks|
  {
    forall name :: name in w.quarantine ==> !(name.task == i && name.attempt == |w.state.tasks[i].attempts|)
  }

  datatype RunResult = RunDone | RunClosed | RunRaised

  /** `o` was launched for a task that was incomplete in `w0`, as its next attempt. */
  predicate Launched(w0: World, o: (nat, nat))
  {
    o.0 < |w0.state.tasks| && w0.state.tasks[o.0].status != Completed && o.1 == |w0.state.tasks[o.0].attempts| + 1
  }

  ghost predicate NewLaunches(w0: World, w: World)
  {
    forall o :: o in w.launches ==> o in w0.launches || Launched(w0, o)
  }

  ghost predicate RunningUnguarded(s: State)
  {
    forall i :: 0 <= i < |s.tasks| && s.tasks[i].status == Running && s.tasks[i].attempts != [] ==>
        !Latest(s.tasks[i]).guard
  }

  ghost predicate NoGuards(w: World)
  {
    forall i :: 0 <= i < |w.state.tasks| && w.state.tasks[i].attempts != [] ==> !Latest(w.state.tasks[i]).guard
  }

  // ---------------------------------------------------------------- transitions

  lemma CommitsIsDoes(p: Plan, w: World, a: Act, w': World)
    requires Commits(p, w, a, w')
    ensures Does(p, w, a, w')
  {
    hide Commits;
  }

  lemma AppendDoes(p: Plan, w: World)
    requires Lawful(p.codec) && w.state.pending.Some? && |w.log| == w.state.eventLog.size
    ensures Does(p, w, Append, w.(log := w.log + p.codec.enc(w.state.pending.value)))
    ensures |p.codec.enc(w.state.pending.value)| > 0
  {
    hide Commits;
    assert IsLine(p.codec.enc(w.state.pending.value));
  }

  lemma AcknowledgeDoes(p: Plan, w: World, w': World)
    requires w.state.pending.Some? && |w.log| != w.state.eventLog.size
    requires w' == w.(state := w.state.(
           eventLog := Observation(p.codec.sha(w.log), |w.log|, w.state.eventLog.count + 1), pending := None))
    ensures Does(p, w, Act.Acknowledge, w')
  {
    hide Commits;
  }

  lemma InvLog(p: Plan, w: World)
    requires Inv(p, w)
    ensures LogInv(p, w)
  {
    hide StateOk, LogInv;
  }

  lemma StatusTellsSize(p: Plan, w: World)
    requires Lawful(p.codec) && LogInv(p, w)
    ensures var status := LogStatus(p.codec, p.Head(), w.log, w.state.eventLog, w.state.pending);
      && status.Some?
      && (status == Some(Stable) <==> w.state.pending.None?)
      && (status == Some(PendingBeforeLog) ==>
            |w.log| == w.state.eventLog.size && |w.log| + |p.codec.enc(w.state.pending.value)| <= MAX_EVENT_LOG_BYTES)
      && (status == Some(PendingAfterLog) ==> |w.log| != w.state.eventLog.size)
  {
    hide Lawful, LogStatus;
    StatusAlwaysKnown(p, w);
    SizeTellsPosition(p, w);
  }

  lemma InvLeader(p: Plan, w: World)
    requires Inv(p, w)
    ensures forall x :: x in w.procs && w.procs[x].owner.Some? ==> Covers(w, x, w.procs[x])
  {
    hide StateOk, Covers;
  }

  lemma RunningShape(p: Plan, w: World, i: nat)
    requires Inv(p, w) && i < |w.state.tasks| && w.state.tasks[i].status == Running
    ensures w.state.tasks[i].attempts != [] && Latest(w.state.tasks[i]).status == ARunning
    ensures !Latest(w.state.tasks[i]).guard ==>
      Latest(w.state.tasks[i]).pid.Some? && Latest(w.state.tasks[i]).token.Some?
  {
    InvState(p, w);
    hide Inv;
    assert TaskOk(p, i, w.state.tasks[i]);
    assert AttemptOk(p, i, |w.state.tasks[i].attempts| - 1, Latest(w.state.tasks[i]));
  }

  /** When no recorded child is left, no leader is. */
  lemma GoneMeansNoLeader(p: Plan, w: World)
    requires Inv(p, w) && AllGone(w)
    ensures NoLeader(w)
  {
    hide Inv, Covers, ChildGone;
    InvLeader(p, w);
    forall x | x in w.procs ensures w.procs[x].owner.None? {
      if w.procs[x].owner.Some? {
        CoveredIsThere(w, x);
      }
    }
  }

  lemma CoveredIsThere(w: World, x: int)
    requires x in w.procs && Covers(w, x, w.procs[x])
    ensures w.procs[x].owner.value.0 < |w.state.tasks| && !ChildGone(w, w.procs[x].owner.value.0)
  {
  }

  lemma GoneFrame(w: World, w': World, i: nat)
    requires w'.state == w.state && w'.procs == w.procs && i < |w.state.tasks|
    ensures ChildGone(w, i) <==> ChildGone(w', i)
  {
  }

  lemma AllIdle(p: Plan, w: World)
    requires Inv(p, w) && forall i :: 0 <= i < |w.state.tasks| ==> Idle(w, i)
    ensures NoLeader(w)
  {
    hide Inv;
    InvLeader(p, w);
    forall x | x in w.procs ensures w.procs[x].owner.None? {
      if w.procs[x].owner.Some? {
        assert Idle(w, w.procs[x].owner.value.0) by {
          assert Covers(w, x, w.procs[x]);
        }
        assert false;
      }
    }
  }

  // ---------------------------------------------------------------- a recovery under way

  /** `w` is `w0` with some partial outputs of the latest attempt of `i` moved to quarantine. */
  ghost predicate HalfMoved(p: Plan, w0: World, w: World, i: nat)
    requires i < |p.tasks| && i < |w0.state.tasks|
  {
    && w == w0.(files := w.files, quarantine := w.quarantine, procs := w.procs)
    && Recoverable(p, w, i)
    && View(p, w, i) == View(p, w0, i)
    && (RecoveryObservable(p, w0, i) ==> RecoveryObservable(p, w, i))
    && (forall q :: q in w.files ==> q in w0.files && w.files[q] == w0.files[q])
    && (forall q :: q in w0.files && q !in w.files ==> q in p.tasks[i].outputs && w0.files[q].File?)
  }

  lemma HalfMovedStart(p: Plan, w: World, i: nat)
    requires i < |p.tasks| && i < |w.state.tasks| && Recoverable(p, w, i)
    ensures HalfMoved(p, w, w, i)
  {
    hide View, RecoveryObservable;
  }

  lemma HalfMovedFacts(p: Plan, w0: World, w: World, i: nat, q: Path)
    requires i < |p.tasks| && i < |w0.state.tasks| && HalfMoved(p, w0, w, i) && q in p.tasks[i].outputs
    ensures w.state == w0.state && NoLeader(w) && Recoverable(p, w, i)
    ensures var name := QName(i, |w0.state.tasks[i].attempts|, q);
      && (q in w.files && w.files[q].File? ==> q in View(p, w0, i) && View(p, w0, i)[q] == w.files[q].id)
      && (q !in w.files && name in w.quarantine ==> q in View(p, w0, i) && View(p, w0, i)[q] == w.quarantine[name])
      && (q !in w.files && name !in w.quarantine ==> q !in View(p, w0, i))
  {
    hide RecoveryObservable;
  }

  lemma ListOfNone(i: nat, n: nat, view: map<Path, Content>)
    ensures ListOf([], i, n, view) == []
  {
  }

  lemma ListOfNext(outputs: seq<Path>, k: nat, i: nat, n: nat, view: map<Path, Content>)
    requires k < |outputs|
    ensures ListOf(outputs[..k + 1], i, n, view)
         == ListOf(outputs[..k], i, n, view) +
             (if outputs[k] in view then [QRecord(outputs[k], QName(i, n, outputs[k]), view[outputs[k]])] else [])
  {
    assert outputs[..k + 1][..k] == outputs[..k];
  }

  lemma MoveDoes(p: Plan, w: World, i: nat, q: Path, w': World)
    requires w.state.pending.None? && Recoverable(p, w, i)
    requires q in p.tasks[i].outputs && q in w.files && w.files[q].File?
    requires QName(i, |w.state.tasks[i].attempts|, q) !in w.quarantine
    requires w' == w.(files := w.files - {q},
        quarantine := w.quarantine[QName(i, |w.state.tasks[i].attempts|, q) := w.files[q].id])
    ensures Does(p, w, Move(i, q), w')
  {
    hide Commits;
  }

  lemma HalfMovedStep(p: Plan, w0: World, w: World, i: nat, q: Path, w': World)
    requires i < |p.tasks| && i < |w0.state.tasks| && HalfMoved(p, w0, w, i) && Does(p, w, Move(i, q), w')
    ensures HalfMoved(p, w0, w', i)
  {
    hide View, RecoveryObservable, Does;
    MoveFacts(p, w, i, q, w');
    MovePreservesView(p, w, i, q, w');
    MoveKeepsObservable(p, w, i, q, w');
    MoveFrame(p, w, i, q, w');
  }

  lemma MoveFrame(p: Plan, w: World, i: nat, q: Path, w': World)
    requires Does(p, w, Move(i, q), w')
    ensures w' == w.(files := w'.files, quarantine := w'.quarantine) && Recoverable(p, w', i)
  {
    hide CanIntend, VerifyWorkspace, BundleFor;
  }

  lemma HalfMovedLater(p: Plan, w0: World, w: World, w': World, i: nat)
    requires i < |p.tasks| && i < |w0.state.tasks| && HalfMoved(p, w0, w, i) && SameEvidenceAs(w, w') && Settled(w, w')
    ensures HalfMoved(p, w0, w', i) && w'.files == w.files && w'.quarantine == w.quarantine
  {
    ViewFrameWorlds(p, w, w', i);
    hide View, RecoveryObservable;
  }

  lemma ViewFrameWorlds(p: Plan, w: World, w': World, i: nat)
    requires i < |p.tasks| && i < |w.state.tasks| && w.state.tasks[i].attempts != []
    requires w'.state == w.state && w'.files == w.files && w'.quarantine == w.quarantine
    ensures View(p, w', i) == View(p, w, i) && (RecoveryObservable(p, w', i) <==> RecoveryObservable(p, w, i))
  {
    hide Moved, Present, VerifyWorkspace, Project, Sealed;
  }

  /** `w` records the recovery of the latest attempt of `i` found in `w0`. */
  ghost predicate Recovered(p: Plan, w0: World, w: World, i: nat)
    requires i < |p.tasks| && i < |w0.state.tasks|
  {
    var n := |w0.state.tasks[i].attempts|;
    && |w.state.tasks| == |w0.state.tasks| && FirstIncomplete(w.state, i)
    && (forall j :: 0 <= j < |w.state.tasks| && j != i ==> w.state.tasks[j] == w0.state.tasks[j])
    && w.state.tasks[i].status == Pending && |w.state.tasks[i].attempts| == n > 0
    && Latest(w.state.tasks[i]).quarantined == Some(ListOf(p.tasks[i].outputs, i, n, View(p, w0, i)))
    && Moved(p.tasks[i].outputs, i, n, w.quarantine) == View(p, w0, i)
    && (forall q :: q in p.tasks[i].outputs ==> q !in w.files)
    && (forall q :: q !in p.tasks[i].outputs ==>
          (q in w.files <==> q in w0.files) && (q in w.files ==> w.files[q] == w0.files[q]))
  }

  lemma NowRecoverable(p: Plan, w: World, i: nat)
    requires FirstIncomplete(w.state, i) && i < |p.tasks|
    requires (w.state.tasks[i].status == Running || w.state.tasks[i].status == Failed)
    requires w.state.tasks[i].attempts != [] && NoLeader(w) && w.bundle.None?
    requires w.state.tasks[i].status == Running ==> !Latest(w.state.tasks[i]).guard
    requires Inv(p, w)
    ensures Recoverable(p, w, i)
  {
    InvState(p, w);
    hide Inv;
    assert TaskOk(p, i, w.state.tasks[i]);
    assert AttemptOk(p, i, |w.state.tasks[i].attempts| - 1, Latest(w.state.tasks[i]));
  }

  lemma HalfMovedFrame(p: Plan, w0: World, w: World, i: nat)
    requires i < |p.tasks| && i < |w0.state.tasks| && HalfMoved(p, w0, w, i)
    ensures w == w0.(files := w.files, quarantine := w.quarantine, procs := w.procs)
    ensures NoLeader(w) && Recoverable(p, w, i)
  {
    hide View, RecoveryObservable;
  }

  /** When every output has left the workspace, the quarantine holds exactly the view. */
  lemma WholeView(p: Plan, w0: World, w: World, i: nat)
    requires i < |p.tasks| && i < |w0.state.tasks| && HalfMoved(p, w0, w, i)
    requires forall q :: q in p.tasks[i].outputs ==> q !in w.files
    ensures Moved(p.tasks[i].outputs, i, |w0.state.tasks[i].attempts|, w.quarantine) == View(p, w0, i)
  {
    hide RecoveryObservable, Moved;
    var m := Moved(p.tasks[i].outputs, i, |w0.state.tasks[i].attempts|, w.quarantine);
    assert Present(w.files, p.tasks[i].outputs) == map[];
    assert m + map[] == m;
  }

  lemma FilesBack(p: Plan, w0: World, w: World, i: nat)
    requires i < |p.tasks| && i < |w0.state.tasks| && HalfMoved(p, w0, w, i)
    requires forall q :: q in p.tasks[i].outputs ==> q !in w.files
    ensures w.files + AsFiles(Present(w0.files, p.tasks[i].outputs)) == w0.files
  {
    hide View, RecoveryObservable, Recoverable;
    var l := w.files + AsFiles(Present(w0.files, p.tasks[i].outputs));
    assert l.Keys == w0.files.Keys;
    assert forall q :: q in l ==> l[q] == w0.files[q];
  }

  lemma RecoveryIsWhole(p: Plan, w0: World, w: World, i: nat, quarantined: seq<QRecord>)
    requires i < |p.tasks| && i < |w0.state.tasks| && HalfMoved(p, w0, w, i) && w0.state.tasks[i].attempts != []
    requires forall q :: q in p.tasks[i].outputs ==> q !in w.files
    requires quarantined == ListOf(p.tasks[i].outputs, i, |w0.state.tasks[i].attempts|, View(p, w0, i))
    requires p.version == 3 ==>
      VerifyWorkspace(w.files, p.baseline, Sealed(w.state.tasks, |w.state.tasks|), []).Matched?
    ensures w.state == w0.state
    ensures var n, seen, recorded := |w0.state.tasks[i].attempts|, Present(w0.files, p.tasks[i].outputs),
        Latest(w0.state.tasks[i]).after;
      && CanRecover(p, w, i, seen)
      && quarantined == Quarantined(p.tasks[i].outputs, i, n, w.quarantine)
      && Moved(p.tasks[i].outputs, i, n, w.quarantine) == View(p, w0, i)
      && Recovery(p, w, i, seen) == RecoveredWith(p, w.state, i, quarantined,
           if p.version != 3 then None else if recorded.Some? then recorded
               else Some(w0.files), if p.version == 3 then Some(w.files) else None)
  {
    hide View, RecoveryObservable, Moved, Quarantined, ListOf, Present, VerifyWorkspace, RecoveredWith;
    hide Sealed, HalfMoved, Recoverable;
    WholeView(p, w0, w, i);
    FilesBack(p, w0, w, i);
    HalfMovedFrame(p, w0, w, i);
    var outputs, n := p.tasks[i].outputs, |w0.state.tasks[i].attempts|;
    ListDependsOnView(outputs, outputs, i, n, w.quarantine);
    PresentInView(p, w0, i);
  }

  lemma PresentInView(p: Plan, w: World, i: nat)
    requires i < |p.tasks| && i < |w.state.tasks|
    ensures forall q :: q in Present(w.files, p.tasks[i].outputs) ==>
      q in View(p, w, i) && View(p, w, i)[q] == Present(w.files, p.tasks[i].outputs)[q]
  {
    hide Moved, Present;
  }

  lemma RecoveredKeepsLog(p: Plan, s: State, i: nat, records: seq<QRecord>, after: Option<Tree>,
      recovered: Option<Tree>)
    requires i < |s.tasks| && s.tasks[i].attempts != []
    ensures var r := RecoveredWith(p, s, i, records, after, recovered);
      r.eventLog == s.eventLog && r.pending == s.pending
  {
  }

  lemma RecoveryCommits(p: Plan, w: World, i: nat, seen: map<Path, Content>, s: State, body: Body,
      torn: set<(nat, nat)>)
    requires i < |p.tasks| && CanRecover(p, w, i, seen) && w.state.tasks[i].attempts != []
    requires s == Recovery(p, w, i, seen)
    requires body == TaskRecovered(i, w.state.tasks[i].status, |w.state.tasks[i].attempts|,
                                   |Quarantined(p.tasks[i].outputs, i, |w.state.tasks[i].attempts|, w.quarantine)|)
    requires torn == if Tears(p, w, i, seen) then w.torn + {(i, |w.state.tasks[i].attempts|)} else w.torn
    ensures CanIntend(p, w, body) ==> Commits(p, w, Recover(i, seen), Intend(p, w, s, body).(torn := torn))
  {
    hide CanRecover, CanIntend, Recovery, Quarantined, Tears;
  }

  lemma RecoveredNow(p: Plan, w0: World, w: World, w': World, i: nat, quarantined: seq<QRecord>)
    requires i < |p.tasks| && i < |w0.state.tasks| && HalfMoved(p, w0, w, i) && w0.state.tasks[i].attempts != []
    requires forall q :: q in p.tasks[i].outputs ==> q !in w.files
    requires quarantined == ListOf(p.tasks[i].outputs, i, |w0.state.tasks[i].attempts|, View(p, w0, i))
    requires exists after, recovered :: SameTasks(RecoveredWith(p, w.state, i, quarantined, after, recovered), w'.state)
    requires w'.files == w.files && w'.quarantine == w.quarantine && FirstIncomplete(w0.state, i)
    ensures Recovered(p, w0, w', i)
  {
    WholeView(p, w0, w, i);
    HalfMovedFrame(p, w0, w, i);
    hide View, RecoveryObservable, Moved, ListOf, Recoverable;
  }

  lemma RecoveredBefore(p: Plan, w0: World, w1: World, w: World, i: nat)
    requires i < |p.tasks| && i < |w0.state.tasks| && w0.state.tasks[i].attempts != []
    requires w0.state == w1.state && w0.files == w1.files && w0.quarantine == w1.quarantine && Recovered(p, w1, w, i)
    ensures Recovered(p, w0, w, i)
  {
    ViewFrameWorlds(p, w0, w1, i);
    hide View, Moved, ListOf;
  }

  lemma TearsExactly(p: Plan, w0: World, w: World, i: nat, torn: set<(nat, nat)>)
    requires i < |p.tasks| && Inv(p, w0) && i < |w0.state.tasks|
    requires HalfMoved(p, w0, w, i) && w0.state.tasks[i].attempts != []
    requires forall q :: q in p.tasks[i].outputs ==> q !in w.files
    requires torn == if Tears(p, w, i, Present(w0.files, p.tasks[i].outputs))
        then w.torn + {(i, |w0.state.tasks[i].attempts|)} else w.torn
    ensures (i, |w0.state.tasks[i].attempts|) in torn
      <==> && p.version == 3 && Latest(w0.state.tasks[i]).after.None?
           && Moved(p.tasks[i].outputs, i, |w0.state.tasks[i].attempts|, w0.quarantine) != map[]
  {
    hide StateOk, LogInv, ReplayInv, LeaderInv, QuarantineInv, MovedInv, LogFilesInv, HistoryInv, FailedInv;
    hide InputsInv, BundleInv;
    hide RecoveryObservable, Moved, Present, TornInv;
    var outputs, n := p.tasks[i].outputs, |w0.state.tasks[i].attempts|;
    WholeView(p, w0, w, i);
    NotTornYet(p, w0, i);
    MovedIsGone(p, w0, i);
    DisjointSum(Moved(outputs, i, n, w0.quarantine), Present(w0.files, outputs));
  }

  lemma NotTornYet(p: Plan, w: World, i: nat)
    requires StateOk(p, w.state) && TornInv(w) && i < |w.state.tasks|
    requires (w.state.tasks[i].status == Running || w.state.tasks[i].status == Failed)
    requires w.state.tasks[i].attempts != []
    ensures (i, |w.state.tasks[i].attempts|) !in w.torn
  {
    assert TaskOk(p, i, w.state.tasks[i]);
  }

  // ---------------------------------------------------------------- a launch under way

  /** Some process id is always free. */
  lemma {:induction false} FreeId(used: set<int>) returns (free: int)
    ensures free > 0 && forall x :: x in used ==> x < free
    decreases |used|
  {
    free := 1;
    if x :| x in used {
      var rest := FreeId(used - {x});
      free := if x < rest then rest else x + 1;
      assert forall y :: y in used ==> y == x || y in used - {x};
    }
  }

  lemma SpawnDoes(p: Plan, w: World, i: nat, pid: int, token: string, w': World)
    requires w.state.pending.None? && Launchable(w, i) && pid > 0 && pid !in w.procs
    requires var owner := (i, |w.state.tasks[i].attempts|);
      w' == w.(procs := w.procs[pid := Proc(token, Some(owner))], launches := w.launches + {owner})
    ensures Does(p, w, Spawn(i, pid, token), w')
  {
    hide Commits;
  }

  lemma IdentifyDoes(p: Plan, w: World, i: nat, pid: int, token: string)
    requires w.state.pending.None? && Guarded(w, i) && pid > 0 && 0 < |token| <= MAX_TOKEN
    requires forall x :: x in w.procs && w.procs[x].owner.Some? ==> x == pid && w.procs[x].token == token
    ensures Does(p, w, Identify(i, pid, token), w.(state := Identified(p, w.state, i, pid, token)))
  {
    hide Commits, Identified;
  }

  /** With a usable token the identified state passes the validator. */
  lemma IdentifiedIsValid(p: Plan, w: World, i: nat, pid: int, token: string)
    requires PlanOk(p) && Inv(p, w) && w.state.pending.None? && Guarded(w, i) && pid > 0 && 0 < |token| <= MAX_TOKEN
    requires forall x :: x in w.procs && w.procs[x].owner.Some? ==> x == pid && w.procs[x].token == token
    ensures StateOk(p, Identified(p, w.state, i, pid, token))
  {
    hide PlanOk, Inv, Does, Identified, StateOk;
    IdentifyDoes(p, w, i, pid, token);
    StepInv(p, w, Identify(i, pid, token), w.(state := Identified(p, w.state, i, pid, token)));
    InvState(p, w.(state := Identified(p, w.state, i, pid, token)));
  }

  lemma TokenBound(p: Plan, s: State, i: nat, pid: int, token: string)
    requires i < |s.tasks| && s.tasks[i].attempts != [] && StateOk(p, Identified(p, s, i, pid, token))
    ensures 0 < |token| <= MAX_TOKEN
  {
    var s' := Identified(p, s, i, pid, token);
    assert TaskOk(p, i, s'.tasks[i]);
    assert AttemptOk(p, i, |s.tasks[i].attempts| - 1, Latest(s'.tasks[i]));
  }

  // ---------------------------------------------------------------- the end of an attempt

  lemma SupervisedShape(p: Plan, w: World, i: nat)
    requires Supervised(p, w, i)
    ensures i < |p.tasks| && Started1(w.state, i) && FirstIncomplete(w.state, i) && NoLeader(w)
  {
  }

  lemma EndingFits(p: Plan, w: World, i: nat, c: Child, status: AttemptStatus, after: Option<Tree>, detail: string)
    requires ChildFits(p, w, i, c) && (status == AInterrupted ==> c.Exited?) && Ended(status) && Text(detail)
    requires after == if p.version == 3 then Some(w.files) else None
    requires Supervised(p, w, i)
    ensures CanFail(p, w, i, EndingOf(c, status, after, detail))
  {
    hide Text;
  }

  lemma VariantsFailAlike(p: Plan, s0: State, s: State, s': State, i: nat, e: Ending)
    requires i < |p.tasks| && Variant(p, s0, s, i) && Variant(p, s0, s', i)
    ensures i < |s.tasks| && i < |s'.tasks| && s.tasks[i].attempts != [] && s'.tasks[i].attempts != []
    ensures FailedBy(p, s, i, e) == FailedBy(p, s', i, e)
    ensures FailedBy(p, s, i, e).eventLog == s'.eventLog && FailedBy(p, s, i, e).pending == s'.pending
  {
    VariantFails(p, s0, s, i, e);
    VariantFails(p, s0, s', i, e);
  }

  lemma VariantFails(p: Plan, s0: State, s: State, i: nat, e: Ending)
    requires i < |p.tasks| && Variant(p, s0, s, i)
    ensures i < |s.tasks| && s.tasks[i].attempts != [] && FailedBy(p, s, i, e) == FailedBy(p, s0, i, e)
    ensures FailedBy(p, s, i, e).eventLog == s.eventLog == s0.eventLog
    ensures FailedBy(p, s, i, e).pending == s.pending == s0.pending
  {
    var f, f0 := FailedBy(p, s, i, e), FailedBy(p, s0, i, e);
    assert f.tasks[i].attempts == f0.tasks[i].attempts;
    assert f.tasks == f0.tasks;
  }

  lemma FailCommits(p: Plan, w: World, i: nat, e: Ending, body: Body)
    requires CanFail(p, w, i, e) && i < |p.tasks| && i < |w.state.tasks| && w.state.tasks[i].attempts != []
    requires body == Body.TaskFailed(i, |w.state.tasks[i].attempts|, e.returnCode, e.detail)
    ensures CanIntend(p, w, body) ==>
      Commits(p, w, Fail(i, e), Intend(p, w, FailedBy(p, w.state, i, e), body).(torn := w.torn))
  {
    hide CanFail, CanIntend, FailedBy;
  }

  lemma VariantElsewhere(p: Plan, s0: State, s: State, s': State, i: nat)
    requires Variant(p, s0, s, i) && SameElsewhere(s, s', i)
    ensures SameElsewhere(s0, s', i)
  {
  }

  lemma FailedElsewhere(p: Plan, s: State, s': State, i: nat, e: Ending)
    requires i < |p.tasks| && i < |s.tasks| && s.tasks[i].attempts != []
    requires (s' == s || SameTasks(FailedBy(p, s, i, e), s'))
    ensures SameElsewhere(s, s', i)
    ensures SameTasks(FailedBy(p, s, i, e), s') ==>
      && s'.tasks[i].status == Failed && s'.status == RunFailed && |s'.tasks[i].attempts| == |s.tasks[i].attempts|
      && Latest(s'.tasks[i]).returnCode == e.returnCode && Latest(s'.tasks[i]).status == e.status
      && Latest(s'.tasks[i]).after == e.after && Latest(s'.tasks[i]).inputs == Latest(s.tasks[i]).inputs
      && Latest(s'.tasks[i]).error == Some(e.detail)
  {
  }

  lemma VariantSame(p: Plan, s0: State, s: State, i: nat)
    requires Variant(p, s0, s, i)
    ensures SameElsewhere(s0, s, i)
  {
  }

  lemma CompleteCommits(p: Plan, w: World, i: nat, outputs: map<Path, Content>, after: Option<Tree>, body: Body)
    requires Supervised(p, w, i) && Latest(w.state.tasks[i]).pid.Some?
    requires outputs == Present(w.files, p.tasks[i].outputs) && outputs.Keys == Elements(p.tasks[i].outputs)
    requires p.version == 3 ==>
      VerifyWorkspace(w.files, p.baseline, Sealed(w.state.tasks, |w.state.tasks|) + outputs, []).Matched?
    requires after == if p.version == 3 then Some(w.files) else None
    requires body == TaskCompleted(i, |w.state.tasks[i].attempts|, |outputs|)
    ensures CanIntend(p, w, body) ==>
      Commits(p, w, Complete(i, outputs),
          Intend(p, w, CompletedWith(p, w.state, i, outputs, after), body).(torn := w.torn))
  {
    hide CanIntend, CompletedWith, VerifyWorkspace, Sealed;
    assert CanComplete(p, w, i, outputs);
  }

  lemma CompletedElsewhere(p: Plan, s: State, s': State, i: nat, outputs: map<Path, Content>, after: Option<Tree>)
    requires i < |s.tasks| && s.tasks[i].attempts != []
    requires (s' == s || SameTasks(CompletedWith(p, s, i, outputs, after), s'))
    ensures SameElsewhere(s, s', i)
    ensures SameTasks(CompletedWith(p, s, i, outputs, after), s') ==>
      s'.tasks[i].status == Completed && s'.tasks[i].outputs == outputs
  {
  }

  // ---------------------------------------------------------------- the start of an attempt

  lemma InputsFit(p: Plan, w: World, i: nat, inputs: map<Path, Content>)
    requires PlanOk(p) && Inv(p, w) && i < |p.tasks| == |w.state.tasks| && FirstIncomplete(w.state, i)
    requires inputs.Keys == Elements(p.tasks[i].inputs)
    requires forall q :: q in inputs ==>
      Source(p, w.state, q) == Some(inputs[q]) && q in w.files && w.files[q] == File(inputs[q])
    ensures InputsMatch(p, w, i, inputs)
  {
    hide PlanOk, Inv, StateOk, Source, ExpectedInput;
    InvState(p, w);
    OnlyDriftRefuses(p, w, i);
  }

  lemma InputsFrame(p: Plan, w: World, w': World, i: nat, inputs: map<Path, Content>)
    requires i < |p.tasks| && i <= |w.state.tasks| && InputsMatch(p, w, i, inputs)
    requires w'.state == w.state && w'.files == w.files
    ensures InputsMatch(p, w', i, inputs)
  {
    hide ExpectedInput;
  }

  lemma StartCommits(p: Plan, w: World, i: nat, inputs: map<Path, Content>, before: Option<Tree>)
    requires i < |w.state.tasks| && CanStart(p, w, i, inputs, before)
    ensures var body := TaskStarted(i, |w.state.tasks[i].attempts| + 1);
      CanIntend(p, w, body) ==> Commits(p, w, Start(i, inputs, before),
          Intend(p, w, Started(p, w.state, i, inputs, before), body).(torn := w.torn))
  {
    hide CanIntend, Started, CanStart;
  }

  /** The next attempt has neither been launched nor quarantined. */
  lemma FreshAttempt(p: Plan, w: World, i: nat)
    requires Inv(p, w) && i < |w.state.tasks|
    ensures (i, |w.state.tasks[i].attempts| + 1) !in w.launches
    ensures forall name :: name in w.quarantine ==> !(name.task == i && name.attempt == |w.state.tasks[i].attempts| + 1)
  {
    hide StateOk, LogInv, ReplayInv, MovedInv, LogFilesInv, WorkspaceInv, InputsInv, BundleInv;
    assert forall name :: name in w.quarantine ==> KnownName(p, w, name);
  }

  lemma StartedFacts(p: Plan, s: State, s': State, i: nat, inputs: map<Path, Content>, before: Option<Tree>)
    requires FirstIncomplete(s, i) && (s' == s || SameTasks(Started(p, s, i, inputs, before), s'))
    ensures SameElsewhere(s, s', i)
    ensures Started(p, s, i, inputs, before).eventLog == s.eventLog
    ensures Started(p, s, i, inputs, before).pending == s.pending
    ensures SameTasks(Started(p, s, i, inputs, before), s') ==>
      && FirstIncomplete(s', i) && s'.tasks[i].status == Running && |s'.tasks[i].attempts| == |s.tasks[i].attempts| + 1
      && Latest(s'.tasks[i]).guard && Latest(s'.tasks[i]).inputs == inputs
  {
  }

  lemma GuardHasNoChild(p: Plan, w: World, i: nat)
    requires Inv(p, w) && Guarded(w, i)
    ensures Latest(w.state.tasks[i]).pid.None?
  {
    InvState(p, w);
    assert TaskOk(p, i, w.state.tasks[i]);
    assert AttemptOk(p, i, |w.state.tasks[i].attempts| - 1, Latest(w.state.tasks[i]));
  }

  lemma SupervisingVariant(p: Plan, w0: World, w: World, s: State, i: nat)
    requires Guarded(w0, i) && Supervising(p, w0, w, i) && NothingQuarantined(w0, i)
    requires s == w0.state || exists pid, token :: s == Identified(p, w0.state, i, pid, token)
    requires i < |p.tasks| && w0.state.pending.None?
    ensures Variant(p, w0.state, s, i) && Variant(p, w0.state, w.state, i)
    ensures s.pending.None? && w.state.pending.None? && w.bundle == w0.bundle
    ensures w.launches <= w0.launches + {(i, |w0.state.tasks[i].attempts|)}
    ensures NoLeader(w) ==> Supervised(p, w, i)
  {
  }

  lemma ChildFitsNow(p: Plan, w0: World, w: World, i: nat, c: Child)
    requires Guarded(w0, i) && Latest(w0.state.tasks[i]).pid.None? && !c.Lost?
    requires c.NotStarted? ==> w.state == w0.state
    requires c.Exited? ==>
        && c.pid > 0 && 0 < |c.token| <= MAX_TOKEN && (c.closure == NaturalEmpty || c.closure == Terminated)
        && (w.state == w0.state || w.state == Identified(p, w0.state, i, c.pid, c.token))
    ensures ChildFits(p, w, i, c)
    ensures c.Exited? && w.state == Identified(p, w0.state, i, c.pid, c.token) ==> Latest(w.state.tasks[i]).pid.Some?
    ensures i < |w.state.tasks| && |w.state.tasks[i].attempts| == |w0.state.tasks[i].attempts|
    ensures Latest(w.state.tasks[i]).inputs == Latest(w0.state.tasks[i]).inputs
  {
  }

  // ---------------------------------------------------------------- a session

  lemma SealDoes(p: Plan, w: World, b: Bundle)
    requires w.state.pending.None? && w.state.status == RunCompleted
    requires w.bundle.None? && |w.state.tasks| == |p.tasks| && BundleFor(p, w, b)
    requires p.version == 3 ==>
      VerifyWorkspace(w.files, p.baseline, Sealed(w.state.tasks, |w.state.tasks|), []).Matched?
    ensures Does(p, w, Seal(b), w.(bundle := Some(b)))
  {
    hide Commits, BundleFor, VerifyWorkspace, Sealed;
  }

  lemma RecoveredFacts(p: Plan, w0: World, w: World, i: nat)
    requires i < |p.tasks| && i < |w0.state.tasks| && Recovered(p, w0, w, i)
    ensures FirstIncomplete(w.state, i) && w.state.tasks[i].status == Pending
    ensures |w.state.tasks[i].attempts| == |w0.state.tasks[i].attempts|
    ensures |w.state.tasks| == |w0.state.tasks|
    ensures forall j :: 0 <= j < |w.state.tasks| && j != i ==> w.state.tasks[j] == w0.state.tasks[j]
  {
    hide View, ListOf, Moved;
  }

  lemma SealedNowFacts(p: Plan, w: World, i: nat)
    requires SealedNow(p, w, i)
    ensures i < |w.state.tasks| && w.state.tasks[i].status == Completed
  {
  }

  lemma MoreLaunches(w0: World, w1: World, w: World, i: nat)
    requires NewLaunches(w0, w1) && i < |w0.state.tasks| && i < |w1.state.tasks|
    requires w0.state.tasks[i].status != Completed && |w1.state.tasks[i].attempts| == |w0.state.tasks[i].attempts|
    requires w.launches <= w1.launches + {(i, |w1.state.tasks[i].attempts| + 1)}
    ensures NewLaunches(w0, w)
  {
  }

  lemma SameLaunches(w0: World, w: World)
    requires w.launches == w0.launches
    ensures NewLaunches(w0, w)
  {
    hide Launched;
  }

  lemma LaunchesCompose(w0: World, w1: World, w: World)
    requires w1.launches == w0.launches && NewLaunches(w1, w)
    requires |w1.state.tasks| == |w0.state.tasks| && w1.state.tasks == w0.state.tasks
    ensures NewLaunches(w0, w)
  {
  }

  lemma FinishCommits(p: Plan, w: World, operation: string)
    requires |w.state.tasks| == |p.tasks| && AllCompleted(w.state)
    ensures var body := RunFinished(operation, |p.tasks|);
      CanIntend(p, w, body) ==> Commits(p, w, Finish(operation), Intend(p, w, Finished(w.state), body).(torn := w.torn))
  {
    hide CanIntend;
  }

  lemma BeginCommits(p: Plan, w: World, suite: string)
    requires Init(p, w)
    ensures var body := RunStarted(suite, |p.tasks|);
      CanIntend(p, w, body) ==> Commits(p, w, Begin(suite), Intend(p, w, w.state, body).(torn := w.torn))
  {
    hide CanIntend;
  }

  lemma ResumeCommits(p: Plan, w: World)
    requires NoLeader(w) && NoGuards(w)
    ensures var body := RunResumed(w.state.status);
      CanIntend(p, w, body) ==> Commits(p, w, Resume, Intend(p, w, Resumed(w.state), body).(torn := w.torn))
  {
    hide CanIntend;
  }

  lemma GuardsAreRunning(p: Plan, w: World)
    requires Inv(p, w)
    requires RunningUnguarded(w.state)
    ensures NoGuards(w)
  {
    InvState(p, w);
    hide Inv;
    forall i | 0 <= i < |w.state.tasks| && w.state.tasks[i].attempts != [] ensures !Latest(w.state.tasks[i]).guard {
      assert TaskOk(p, i, w.state.tasks[i]);
      assert AttemptOk(p, i, |w.state.tasks[i].attempts| - 1, Latest(w.state.tasks[i]));
    }
  }

  lemma SealedIsQuiet(p: Plan, w: World)
    requires Inv(p, w)
    ensures w.bundle.Some? ==> NoLeader(w)
  {
    hide LogInv, ReplayInv, QuarantineInv, MovedInv, LogFilesInv, WorkspaceInv, InputsInv, BundleFor;
    hide VerifyWorkspace, TasksOk;
    InvLeader(p, w);
  }

  // ---------------------------------------------------------------- what a fault-free engine does

  lemma StableWhenAcknowledged(p: Plan, w: World)
    requires Lawful(p.codec) && Inv(p, w) && w.state.pending.None?
    ensures LogStatus(p.codec, p.Head(), w.log, w.state.eventLog, w.state.pending) == Some(Stable)
  {
    hide Lawful, LogStatus, Inv, LogInv;
    InvLog(p, w);
    StatusTellsSize(p, w);
  }

  lemma NotInBoth(p: Plan, w: World, i: nat, q: Path)
    requires Inv(p, w) && Recoverable(p, w, i) && q in w.files
    ensures QName(i, |w.state.tasks[i].attempts|, q) !in w.quarantine
  {
    hide StateOk, LogInv, ReplayInv, LeaderInv, QuarantineInv, LogFilesInv, WorkspaceInv, InputsInv, BundleInv;
    var name := QName(i, |w.state.tasks[i].attempts|, q);
    assert Recovering(w, name);
  }

  lemma NotAFile(p: Plan, w0: World, w: World, i: nat, q: Path)
    requires i < |p.tasks| && i < |w0.state.tasks| && HalfMoved(p, w0, w, i)
    requires q in p.tasks[i].outputs && q in w.files && !w.files[q].File?
    ensures !FilesOrAbsent(w0, p.tasks[i].outputs)
  {
    hide View, RecoveryObservable, Recoverable;
  }

  lemma AllWereFiles(p: Plan, w0: World, w: World, i: nat)
    requires i < |p.tasks| && i < |w0.state.tasks| && HalfMoved(p, w0, w, i)
    requires forall q :: q in p.tasks[i].outputs ==> q !in w.files
    ensures FilesOrAbsent(w0, p.tasks[i].outputs)
  {
    hide View, RecoveryObservable, Recoverable;
  }

  /** What a task needs to begin its next attempt. */
  predicate CanBegin(p: Plan, w: World, i: nat)
  {
    && |w.state.tasks| == |p.tasks| && i < |p.tasks|
    && |w.state.tasks[i].attempts| < MAX_ATTEMPTS_PER_TASK
    && InputsVerified(p, w, i)
    && (forall q :: q in p.tasks[i].outputs ==> q !in w.files)
    && (p.version == 3 ==>
          p.scannable(w.files) && VerifyWorkspace(w.files, p.baseline, Sealed(w.state.tasks, |w.state.tasks|),
              []).Matched?)
  }

  lemma NextLogIsEmpty(p: Plan, w: World, key: LogKey)
    requires Inv(p, w) && key.task < |w.state.tasks| && key.attempt == |w.state.tasks[key.task].attempts| + 1
    ensures key in w.logs ==> w.logs[key] == []
  {
    hide StateOk, LogInv, ReplayInv, LeaderInv, QuarantineInv, MovedInv, WorkspaceInv, InputsInv, BundleInv;
    assert key in w.logs ==> KnownLog(w, key);
  }

  lemma WithinBudget(p: Plan, w: World, i: nat)
    requires PlanOk(p) && Inv(p, w) && i < |w.state.tasks|
    ensures |w.state.tasks[i].attempts| < MAX_ATTEMPTS_PER_TASK ==> TotalAttempts(w.state.tasks) < MAX_TOTAL_ATTEMPTS
  {
    hide Inv, TaskOk, TotalAttempts;
    InvState(p, w);
    if |w.state.tasks[i].attempts| < MAX_ATTEMPTS_PER_TASK {
      GlobalBudgetNeverBinds(p, w.state, i);
    }
  }

  ghost predicate CanSeal(p: Plan, w: World)
  {
    |w.state.tasks| == |p.tasks| && LoadOk(p, w) && OutputsMatch(p, w)
  }

  /** A completed run that loads can be sealed. */
  lemma SealNeedsLoad(p: Plan, w: World)
    requires Inv(p, w) && w.state.status == RunCompleted
    ensures |w.state.tasks| == |p.tasks|
    ensures LoadOk(p, w) && p.version == 3 ==>
      p.scannable(w.files) && VerifyWorkspace(w.files, p.baseline, Sealed(w.state.tasks, |w.state.tasks|), []).Matched?
  {
    InvState(p, w);
    hide Inv, TasksOk, LogStatus, LogsOk, QuarantineFilesOk, HistoryOk, RecoveryObservable, VerifyWorkspace, Sealed;
  }

  /** When the recovery of the unrecovered attempt of `i` goes through, its child being gone. */
  ghost predicate RecoveryReady(p: Plan, w: World, i: nat)
  {
    && i < |p.tasks| && i < |w.state.tasks| && w.state.tasks[i].attempts != []
    && var outputs, n := p.tasks[i].outputs, |w.state.tasks[i].attempts|;
       && FilesOrAbsent(w, outputs)
       && (p.version == 3 ==>
             && p.scannable(w.files) && p.scannable(w.files - Elements(outputs))
             && VerifyWorkspace(w.files, p.baseline, Sealed(w.state.tasks, |w.state.tasks|), outputs).Matched?)
       && CanIntend(p, w, TaskRecovered(i, w.state.tasks[i].status, n, |ListOf(outputs, i, n, View(p, w, i))|))
  }

  lemma FailedHasAttempts(p: Plan, w: World, i: nat)
    requires Inv(p, w) && i < |w.state.tasks|
    requires (w.state.tasks[i].status == Running || w.state.tasks[i].status == Failed)
    ensures w.state.tasks[i].attempts != []
    ensures w.state.tasks[i].status == Failed ==>
      forall j :: 0 <= j < |w.state.tasks| ==> w.state.tasks[j].status != Running
  {
    InvState(p, w);
    hide Inv;
    assert TaskOk(p, i, w.state.tasks[i]);
    hide TaskOk;
    CompletedBefore(w.state.tasks, i);
  }

  /** The parts of readiness that the code checks one by one. */
  lemma ReadyWhen(p: Plan, w: World, i: nat)
    requires PlanOk(p) && Inv(p, w) && Recoverable(p, w, i) && i < |w.state.tasks|
    requires i < |p.tasks| && w.state.tasks[i].attempts != []
    ensures var outputs, n := p.tasks[i].outputs, |w.state.tasks[i].attempts|;
      RecoveryReady(p, w, i) <==>
        && FilesOrAbsent(w, outputs)
        && (p.version == 3 ==>
              p.scannable(w.files) && RecoveryObservable(p, w, i) && p.scannable(w.files - Elements(outputs)))
        && CanIntend(p, w, TaskRecovered(i, w.state.tasks[i].status, n, |ListOf(outputs, i, n, View(p, w, i))|))
  {
    hide PlanOk, Inv, RecoveryObservable, VerifyWorkspace, CanIntend, Sealed, ListOf, View, FilesOrAbsent;
    InvState(p, w);
    if p.version == 3 {
      if w.state.tasks[i].status == Failed {
        RecordedIsReconstructed(p, w, i);
      } else {
        RunningObservable(p, w, i);
      }
    }
  }

  lemma ReadyFrame(p: Plan, w: World, w': World, i: nat)
    requires SameEvidenceAs(w, w') && w'.files == w.files && i < |p.tasks|
    requires i < |w.state.tasks| && w.state.tasks[i].attempts != []
    ensures RecoveryReady(p, w, i) <==> RecoveryReady(p, w', i)
  {
    ViewFrameWorlds(p, w, w', i);
    hide View, ListOf, VerifyWorkspace, Sealed, RecoveryObservable, RecordOk;
  }

  lemma AfterMoves(p: Plan, w0: World, w: World, i: nat)
    requires i < |p.tasks| && i < |w0.state.tasks| && HalfMoved(p, w0, w, i) && w0.state.tasks[i].attempts != []
    requires forall q :: q in p.tasks[i].outputs ==> q !in w.files
    ensures w.files == w0.files - Elements(p.tasks[i].outputs)
    ensures p.version == 3 && RecoveryObservable(p, w0, i) ==>
      VerifyWorkspace(w.files, p.baseline, Sealed(w.state.tasks, |w.state.tasks|), []).Matched?
    ensures forall body :: CanIntend(p, w, body) <==> CanIntend(p, w0, body)
  {
    MovesRemoveOutputs(p, w0, w, i);
    HalfMovedFrame(p, w0, w, i);
    hide HalfMoved, RecordOk;
    if RecoveryObservable(p, w0, i) {
      VerifyWithoutAll(w0.files, p.baseline, Sealed(w0.state.tasks, |w0.state.tasks|), p.tasks[i].outputs);
    }
  }

  lemma MovesRemoveOutputs(p: Plan, w0: World, w: World, i: nat)
    requires i < |p.tasks| && i < |w0.state.tasks| && HalfMoved(p, w0, w, i)
    requires forall q :: q in p.tasks[i].outputs ==> q !in w.files
    ensures w.files == w0.files - Elements(p.tasks[i].outputs)
  {
    hide View, RecoveryObservable, Recoverable;
  }

  /** Without its volatile files, an accepted workspace is a clean one. */
  lemma VerifyWithoutAll(files: Tree, baseline: Tree, completed: map<Path, Content>, volatile: seq<Path>)
    requires VerifyWorkspace(files, baseline, completed, volatile).Matched?
    ensures VerifyWorkspace(files - Elements(volatile), baseline, completed, []).Matched?
  {
    var rest, expected := files - Elements(volatile), baseline + AsFiles(completed);
    assert forall q :: q in expected ==> q in files && q !in volatile;
    assert expected.Keys <= rest.Keys;
  }

  predicate CleanExit(c: Child)
  {
    c.Exited? && c.launchError.None? && !c.interrupted && c.returnCode == 0
  }

  /** In `w` the child of `i` has run to its own end and nothing is pending. */
  ghost predicate RanToEnd(w: World, i: nat)
  {
    && FirstIncomplete(w.state, i) && w.state.tasks[i].status == Running && w.state.tasks[i].attempts != []
    && w.state.pending.None? && w.bundle.None? && NoLeader(w)
  }

  lemma SameIntents(p: Plan, w: World, w': World)
    requires w'.(logs := w.logs) == w
    ensures forall b :: CanIntend(p, w, b) <==> CanIntend(p, w', b)
  {
    hide RecordOk;
  }

  /** The inputs of `i` are intact, its outputs are all there and nothing else changed. */
  predicate Delivered(p: Plan, w: World, i: nat, inputs: map<Path, Content>)
    requires i < |p.tasks|
  {
    var produced := Present(w.files, p.tasks[i].outputs);
    && (forall q :: q in inputs ==> q in w.files && w.files[q] == File(inputs[q]))
    && produced.Keys == Elements(p.tasks[i].outputs)
    && (p.version == 3 ==>
          VerifyWorkspace(w.files, p.baseline, Sealed(w.state.tasks, |w.state.tasks|) + produced, []).Matched?)
  }

  /** And in version 3 the tree can be observed and nothing but the outputs of `i` is new. */
  predicate Delivers(p: Plan, w: World, i: nat, inputs: map<Path, Content>)
  {
    && i < |p.tasks| && i < |w.state.tasks|
    && (p.version == 3 ==>
          && p.scannable(w.files)
          && VerifyWorkspace(
               w.files, p.baseline, Sealed(w.state.tasks, |w.state.tasks|), p.tasks[i].outputs).Matched?)
    && Delivered(p, w, i, inputs)
  }

  function CompletionOf(p: Plan, w: World, i: nat): Body
    requires i < |p.tasks| && i < |w.state.tasks|
  {
    TaskCompleted(i, |w.state.tasks[i].attempts|, |Present(w.files, p.tasks[i].outputs)|)
  }

  predicate Deliverable(p: Plan, w: World, i: nat, inputs: map<Path, Content>)
  {
    Delivers(p, w, i, inputs) && CanIntend(p, w, CompletionOf(p, w, i))
  }

  function ReturnCode(c: Child): Option<int>
    requires !c.Lost?
  {
    if c.Exited? then Some(c.returnCode) else None
  }

  /** `b` is a record of the failure of the running attempt of `i` with this return code. */
  predicate FailureOf(w: World, i: nat, code: Option<int>, b: Body)
    requires i < |w.state.tasks|
  {
    b.TaskFailed? && b == TaskFailed(i, |w.state.tasks[i].attempts|, code, b.reason) && Text(b.reason)
  }

  /** `b` is the record that the end of the running attempt of `i` calls for. */
  predicate EndRecord(p: Plan, w: World, i: nat, inputs: map<Path, Content>, clean: bool, code: Option<int>, b: Body)
  {
    && i < |p.tasks| && i < |w.state.tasks|
    && if clean && Delivers(p, w, i, inputs) then b == CompletionOf(p, w, i) else FailureOf(w, i, code, b)
  }

  // ---------------------------------------------------------------- why an undisturbed session stops

  /** `w` is among the worlds of `trace` from number `n` on. */
  ghost predicate Visits(trace: seq<World>, n: nat, w: World)
  {
    exists k :: n <= k < |trace| && trace[k] == w
  }

  lemma VisitsLater(t: seq<World>, t': seq<World>, m: nat, n: nat, w: World)
    requires Visits(t, n, w) && t <= t' && m <= n
    ensures Visits(t', m, w)
  {
    var k :| n <= k < |t| && t[k] == w;
    assert t'[k] == w;
  }

  lemma VisitsNow(t: seq<World>, n: nat)
    requires n < |t|
    ensures Visits(t, n, t[|t| - 1])
  {
  }

  /** Why an undisturbed session raises. */
  datatype Halt =
    | OutputsDrifted(task: nat)
    | CannotRecover(task: nat)
    | CannotBegin(task: nat)
    | CannotObserve(task: nat)
    | CannotRecord(body: Body)
    | CannotSeal

  /** The end of the running attempt of `i` cannot be recorded: the tree cannot be observed, or the record that
      the end calls for does not fit. */
  ghost predicate CannotEnd(
    p: Plan, w: World, i: nat, inputs: map<Path, Content>, clean: bool, code: Option<int>, why: Halt)
  {
    match why
    case CannotObserve(j) => j == i && p.version == 3 && !p.scannable(w.files)
    case CannotRecord(b) => EndRecord(p, w, i, inputs, clean, code, b) && !CanIntend(p, w, b)
    case _ => false
  }

  /** `w`, where a session stopped, is a world from which it could not go on, for the reason `why`. `exits` gives
      the return code with which the child of each attempt ends by itself. */
  ghost predicate Halts(p: Plan, w: World, exits: (nat, nat) -> int, operation: string, why: Halt)
  {
    var n, tasks := Prefix(w.state.tasks), w.state.tasks;
    && |tasks| == |p.tasks| && w.state.pending.None? && NoLeader(w) && (w.bundle.None? || why.CannotSeal?)
    && if why.OutputsDrifted? then
         why.task < n && !SealedNow(p, w, why.task)
       else if why.CannotSeal? then
         n == |tasks| && w.state.status == RunCompleted && !CanSeal(p, w)
       else if n == |tasks| then
         why == CannotRecord(RunFinished(operation, n)) && !CanIntend(p, w, why.body)
       else if tasks[n].status == Pending then
         if CanBegin(p, w, n)
         then why == CannotRecord(TaskStarted(n, |tasks[n].attempts| + 1)) && !CanIntend(p, w, why.body)
         else why == CannotBegin(n)
       else if why.CannotRecover? then
         why.task == n && !(AllGone(w) && RecoveryReady(p, w, n))
       else
         && tasks[n].status == Running && tasks[n].attempts != []
         && var code := exits(n, |tasks[n].attempts|);
            CannotEnd(p, w, n, Latest(tasks[n]).inputs, code == 0, Some(code), why)
  }

  /** The failed attempt that closed the run in `w`: its child ended with a return code other than 0, or it did
      not deliver. */
  ghost predicate Closed(p: Plan, w: World, exits: (nat, nat) -> int)
  {
    var n, tasks := Prefix(w.state.tasks), w.state.tasks;
    && w.state.status == RunFailed && n < |tasks| && FailedTask(p, w, n, exits)
  }

  ghost predicate FailedTask(p: Plan, w: World, i: nat, exits: (nat, nat) -> int)
  {
    && i < |w.state.tasks| && w.state.tasks[i].status == Failed && w.state.tasks[i].attempts != []
    && var code := exits(i, |w.state.tasks[i].attempts|);
       && Latest(w.state.tasks[i]).returnCode == Some(code)
       && !(code == 0 && Delivers(p, w, i, Latest(w.state.tasks[i]).inputs))
  }

  /** How the running attempt of `i` ended in `w`, when its child had run to its own end in `exit`. */
  ghost predicate EndsAs(
    p: Plan, exit: World, w: World, i: nat, exits: (nat, nat) -> int, r: TaskResult, why: Halt)
    requires i < |exit.state.tasks| && exit.state.tasks[i].attempts != []
  {
    var code := exits(i, |exit.state.tasks[i].attempts|);
    var inputs := Latest(exit.state.tasks[i]).inputs;
    && (r == TaskDone <==> code == 0 && Deliverable(p, exit, i, inputs))
    && (r == TaskClosed ==> FailedTask(p, w, i, exits))
    && (r == Raised ==> w == exit && CannotEnd(p, exit, i, inputs, code == 0, Some(code), why))
  }

  /** The failed record of `i` carries the return code of its child and the tree it left. */
  ghost predicate EndedAs(w0: World, w: World, i: nat, c: Child, after: Option<Tree>)
    requires !c.Lost?
  {
    && i < |w0.state.tasks| && i < |w.state.tasks|
    && w0.state.tasks[i].attempts != [] && |w.state.tasks[i].attempts| == |w0.state.tasks[i].attempts|
    && w.state.tasks[i].status == Failed
    && var a := Latest(w.state.tasks[i]);
       a.returnCode == ReturnCode(c) && a.after == after && a.inputs == Latest(w0.state.tasks[i]).inputs
  }

  lemma EndsAsClosed(
    p: Plan, exit: World, w: World, i: nat, c: Child, exits: (nat, nat) -> int, r: TaskResult, why: Halt)
    requires RanToEnd(exit, i) && w.files == exit.files
    requires c.Exited? && c.launchError.None? && !c.interrupted
    requires c.returnCode == exits(i, |exit.state.tasks[i].attempts|)
    requires var inputs := Latest(exit.state.tasks[i]).inputs;
      && (r == TaskDone <==> CleanExit(c) && Deliverable(p, exit, i, inputs))
      && (r == TaskClosed ==>
            && SameElsewhere(exit.state, w.state, i) && !(CleanExit(c) && Delivers(p, exit, i, inputs))
            && EndedAs(exit, w, i, c, if p.version == 3 then Some(w.files) else None))
      && (r == Raised ==> w == exit && CannotEnd(p, exit, i, inputs, CleanExit(c), ReturnCode(c), why))
    ensures EndsAs(p, exit, w, i, exits, r, why)
  {
    hide Deliverable, Delivers, CannotEnd, SameElsewhere;
    if r == TaskClosed {
      DeliversAlike(p, exit, w, i, Latest(exit.state.tasks[i]).inputs);
    }
  }

  lemma SessionEnds(
    p: Plan, exit: World, w: World, i: nat, exits: (nat, nat) -> int, operation: string, r: TaskResult, why: Halt)
    requires RanToEnd(exit, i) && EndsAs(p, exit, w, i, exits, r, why) && |w.state.tasks| == |p.tasks|
    requires r == TaskClosed ==> w.state.status == RunFailed && FirstIncomplete(w.state, i)
    ensures r == TaskClosed ==> Closed(p, w, exits)
    ensures r == Raised ==> Halts(p, w, exits, operation, why) && !why.CannotRecover?
  {
    hide Deliverable, CannotEnd, FailedTask, Halts, Closed;
    if r == TaskClosed {
      ClosedNow(p, w, i, exits);
    } else if r == Raised {
      HaltsAtEnd(p, w, i, exits, operation, why);
    }
  }

  lemma BeginFrame(p: Plan, w: World, w': World, i: nat)
    requires w'.(logs := w.logs) == w
    ensures CanBegin(p, w', i) <==> CanBegin(p, w, i)
    ensures forall b :: CanIntend(p, w', b) <==> CanIntend(p, w, b)
  {
    hide VerifyWorkspace, Sealed, Source;
    SameIntents(p, w, w');
  }

  /** Nothing recorded was unrecovered, so no recovery stopped the session. */
  lemma NothingToRecover(p: Plan, w: World, exits: (nat, nat) -> int, operation: string, why: Halt)
    requires Halts(p, w, exits, operation, why)
    requires why.CannotRecover? ==> forall j :: 0 <= j < |w.state.tasks| ==> w.state.tasks[j].status == Pending
    ensures !why.CannotRecover?
  {
    hide AllGone, RecoveryReady, CanBegin, CanIntend, SealedNow, CanSeal, CannotEnd;
  }

  lemma GoneTogether(w: World, w': World)
    requires w'.state == w.state && w'.procs == w.procs
    ensures AllGone(w) <==> AllGone(w')
  {
    forall i | 0 <= i < |w.state.tasks| ensures ChildGone(w, i) <==> ChildGone(w', i) {
      GoneFrame(w, w', i);
    }
  }

  lemma UnreadyOutputs(p: Plan, w0: World, w: World, i: nat)
    requires i < |p.tasks| && i < |w0.state.tasks| && HalfMoved(p, w0, w, i) && w0.state.tasks[i].attempts != []
    requires !FilesOrAbsent(w0, p.tasks[i].outputs)
    ensures !RecoveryReady(p, w, i)
  {
    hide HalfMoved, FilesOrAbsent, CanIntend, VerifyWorkspace, Sealed, ListOf, View;
    StillUnready(p, w0, w, i);
  }

  lemma UnreadyTree(p: Plan, w: World, i: nat)
    requires i < |p.tasks| && forall q :: q in p.tasks[i].outputs ==> q !in w.files
    ensures RecoveryReady(p, w, i) && p.version == 3 ==> p.scannable(w.files)
  {
    hide FilesOrAbsent, CanIntend, VerifyWorkspace, Sealed, ListOf, View;
  }

  lemma HaltsAtBegin(p: Plan, w: World, i: nat, exits: (nat, nat) -> int, operation: string) returns (why: Halt)
    requires |w.state.tasks| == |p.tasks| && w.state.pending.None? && NoLeader(w) && w.bundle.None?
    requires FirstIncomplete(w.state, i) && w.state.tasks[i].status == Pending
    requires !(CanBegin(p, w, i) && CanIntend(p, w, TaskStarted(i, |w.state.tasks[i].attempts| + 1)))
    ensures Halts(p, w, exits, operation, why) && !why.CannotRecover?
  {
    hide CanBegin, CanIntend, SealedNow, CanSeal, CannotEnd;
    PrefixIsFirst(w.state, i);
    why := if CanBegin(p, w, i) then CannotRecord(TaskStarted(i, |w.state.tasks[i].attempts| + 1)) else CannotBegin(i);
  }

  lemma HaltsAtEnd(p: Plan, w: World, i: nat, exits: (nat, nat) -> int, operation: string, why: Halt)
    requires |w.state.tasks| == |p.tasks| && w.state.pending.None? && NoLeader(w) && w.bundle.None?
    requires FirstIncomplete(w.state, i) && w.state.tasks[i].status == Running && w.state.tasks[i].attempts != []
    requires var code := exits(i, |w.state.tasks[i].attempts|);
      CannotEnd(p, w, i, Latest(w.state.tasks[i]).inputs, code == 0, Some(code), why)
    ensures Halts(p, w, exits, operation, why) && !why.CannotRecover?
  {
    hide CanBegin, CanIntend, SealedNow, CanSeal, EndRecord;
    PrefixIsFirst(w.state, i);
  }

  lemma HaltsAtDrift(p: Plan, w: World, i: nat, exits: (nat, nat) -> int, operation: string)
    requires |w.state.tasks| == |p.tasks| && w.state.pending.None? && NoLeader(w) && w.bundle.None?
    requires i < |w.state.tasks| && forall j :: 0 <= j <= i ==> w.state.tasks[j].status == Completed
    requires !SealedNow(p, w, i)
    ensures Halts(p, w, exits, operation, OutputsDrifted(i))
  {
    hide CanBegin, CanIntend, SealedNow, CanSeal, CannotEnd;
  }

  lemma HaltsAtFinish(p: Plan, w: World, exits: (nat, nat) -> int, operation: string)
    requires |w.state.tasks| == |p.tasks| && w.state.pending.None? && NoLeader(w) && AllCompleted(w.state)
    ensures w.bundle.None? && !CanIntend(p, w, RunFinished(operation, |p.tasks|)) ==>
      Halts(p, w, exits, operation, CannotRecord(RunFinished(operation, |p.tasks|)))
    ensures w.state.status == RunCompleted && !CanSeal(p, w) ==> Halts(p, w, exits, operation, CannotSeal)
  {
    hide CanBegin, CanIntend, SealedNow, CanSeal, CannotEnd;
    PrefixIsFirst(w.state, |w.state.tasks|);
  }

  lemma HaltsAtRecovery(p: Plan, w: World, i: nat, exits: (nat, nat) -> int, operation: string)
    requires |w.state.tasks| == |p.tasks| && w.state.pending.None? && NoLeader(w) && w.bundle.None?
    requires FirstIncomplete(w.state, i) && InRecoveryStatus(w.state.tasks[i])
    requires !(AllGone(w) && RecoveryReady(p, w, i))
    ensures Halts(p, w, exits, operation, CannotRecover(i))
  {
    hide AllGone, RecoveryReady, CanBegin, CanIntend, SealedNow, CanSeal, CannotEnd;
    PrefixIsFirst(w.state, i);
  }

  /** Whether a run can be sealed does not depend on its bundle. */
  lemma SealFrame(p: Plan, w: World, w': World)
    requires w'.(bundle := w.bundle) == w
    ensures CanSeal(p, w') <==> CanSeal(p, w)
  {
    hide LoadOk, FinalOutputs;
    if LoadOk(p, w) {
      LoadIgnoresBundle(p, w, w');
    }
    if LoadOk(p, w') {
      LoadIgnoresBundle(p, w', w);
    }
  }

  lemma ClosedNow(p: Plan, w: World, i: nat, exits: (nat, nat) -> int)
    requires FirstIncomplete(w.state, i) && FailedTask(p, w, i, exits) && w.state.status == RunFailed
    ensures Closed(p, w, exits)
  {
    hide FailedTask;
    PrefixIsFirst(w.state, i);
  }

  /** What an attempt delivers does not depend on the record of its own end. */
  lemma DeliversAlike(p: Plan, w: World, w': World, i: nat, inputs: map<Path, Content>)
    requires i < |w.state.tasks| && SameElsewhere(w.state, w'.state, i) && w'.files == w.files
    requires w.state.tasks[i].status != Completed && w'.state.tasks[i].status != Completed
    ensures Delivers(p, w, i, inputs) <==> Delivers(p, w', i, inputs)
  {
    hide VerifyWorkspace, Sealed;
    SealedAlike(w.state.tasks, w'.state.tasks, i, |w.state.tasks|);
  }

  lemma {:induction false} SealedAlike(tasks: seq<TaskState>, tasks': seq<TaskState>, i: nat, n: nat)
    requires |tasks| == |tasks'| && n <= |tasks| && i < |tasks|
    requires forall j :: 0 <= j < |tasks| && j != i ==> tasks[j] == tasks'[j]
    requires tasks[i].status != Completed && tasks'[i].status != Completed
    ensures Sealed(tasks, n) == Sealed(tasks', n)
  {
    if n > 0 {
      SealedAlike(tasks, tasks', i, n - 1);
    }
  }

  /** A recovery that could not begin from `w0` cannot begin from what its moves left either. */
  lemma StillUnready(p: Plan, w0: World, w: World, i: nat)
    requires i < |p.tasks| && i < |w0.state.tasks| && HalfMoved(p, w0, w, i) && w0.state.tasks[i].attempts != []
    requires !FilesOrAbsent(w0, p.tasks[i].outputs)
    ensures !FilesOrAbsent(w, p.tasks[i].outputs)
  {
    hide View, RecoveryObservable, Recoverable;
    var q :| q in p.tasks[i].outputs && q in w0.files && !w0.files[q].File?;
    assert q in w.files;
  }

  /** The record of a recovery is the same before and after its moves. */
  lemma SameRecoveryRecord(p: Plan, w0: World, w: World, i: nat)
    requires i < |p.tasks| && i < |w0.state.tasks| && HalfMoved(p, w0, w, i) && w0.state.tasks[i].attempts != []
    ensures w.state == w0.state && View(p, w, i) == View(p, w0, i)
    ensures RecoveryReady(p, w, i) ==>
      var n := |w0.state.tasks[i].attempts|;
      CanIntend(p, w, TaskRecovered(i, w0.state.tasks[i].status, n, |ListOf(p.tasks[i].outputs, i, n, View(p, w0, i))|))
  {
    hide View, RecoveryObservable, Recoverable, CanIntend, ListOf, VerifyWorkspace, Sealed, FilesOrAbsent;
  }

  /** Sealed outputs collide neither with the baseline nor with the outputs of the next task, so observing the
      workspace around a task is never refused. */
  lemma NeverRefused(p: Plan, w: World, i: nat)
    requires PlanOk(p) && Inv(p, w) && p.version == 3 && FirstIncomplete(w.state, i) && i < |p.tasks|
    ensures !VerifyWorkspace(w.files, p.baseline, Sealed(w.state.tasks, |w.state.tasks|), p.tasks[i].outputs).Refused?
  {
    hide LogInv, ReplayInv, LeaderInv, QuarantineInv, MovedInv, LogFilesInv, WorkspaceInv, InputsInv;
    hide BundleInv, TaskOk, Sealed;
    var sealed := Sealed(w.state.tasks, |w.state.tasks|);
    SealedBeforeFirst(p, w.state, i);
    forall q | q in sealed ensures q !in p.baseline {
      SealedSource(p, w.state.tasks, i, q);
    }
    forall q | q in p.tasks[i].outputs ensures q !in p.baseline + AsFiles(sealed) {
      OutputsAreNew(p, w.state, i, q);
    }
  }

  lemma LaterIsPending(p: Plan, w: World, i: nat)
    requires Inv(p, w) && i < |w.state.tasks| && exists j :: 0 <= j < i && w.state.tasks[j].status != Completed
    ensures w.state.tasks[i].status == Pending
  {
    InvState(p, w);
    hide Inv, TaskOk;
    var j :| 0 <= j < i && w.state.tasks[j].status != Completed;
    assert Untouched(w.state.tasks[i]);
  }

  // ---------------------------------------------------------------- when a resume is accepted

  /** The first incomplete task, if any, has attempts left. */
  predicate AttemptsLeft(tasks: seq<TaskState>)
  {
    var n := Prefix(tasks);
    n < |tasks| ==> |tasks[n].attempts| < MAX_ATTEMPTS_PER_TASK
  }

  /** What a resume of a loaded run without a pending record needs. */
  ghost predicate ReadyFor(p: Plan, w: World, expected: Option<Decision>)
  {
    && |w.state.tasks| == |p.tasks| && w.state.pending.None? && PrefixVerified(p, w) && AttemptsLeft(w.state.tasks)
    && (expected.Some? ==> CanDecide(p, w) && DecisionOf(p, w) == expected.value)
  }

  /** What a resume needs. Without an expected decision a pending record is first brought to its end. */
  ghost predicate Resumable(p: Plan, w: World, expected: Option<Decision>)
  {
    LoadOk(p, w) && if expected.None? then ReadyFor(p, w.(state := w.state.(pending := None)), None)
        else ReadyFor(p, w, expected)
  }

  lemma SealedIsWhole(p: Plan, w: World)
    requires Inv(p, w) && w.bundle.Some?
    ensures w.state.pending.None? && w.state.status == RunCompleted
  {
    hide StateOk, LogInv, ReplayInv, LeaderInv, QuarantineInv, MovedInv, LogFilesInv, WorkspaceInv, InputsInv;
    hide BundleFor;
  }

  lemma ResumableLoads(p: Plan, w: World, expected: Option<Decision>)
    ensures Resumable(p, w, expected) ==> LoadOk(p, w)
    ensures VerifyOk(p, w) ==> LoadOk(p, w)
  {
    hide LoadOk, ReadyFor;
  }

  lemma ResumableWhen(p: Plan, w: World, expected: Option<Decision>)
    requires LoadOk(p, w)
    ensures Resumable(p, w, expected)
       <==> if expected.None? then ReadyFor(p, w.(state := w.state.(pending := None)), None)
           else ReadyFor(p, w, expected)
  {
    hide LoadOk, ReadyFor;
  }

  /** Equal task tables and files are equally ready. */
  lemma ReadyLater(p: Plan, w: World, w': World)
    requires SameTasks(w.state, w'.state) && w'.files == w.files && w'.state.pending.None?
    ensures ReadyFor(p, w.(state := w.state.(pending := None)), None) <==> ReadyFor(p, w', None)
  {
    hide FinalOutputs;
  }

  lemma GoneLater(w: World, w': World)
    requires SameTasks(w.state, w'.state) && w'.procs == w.procs && AllGone(w)
    ensures AllGone(w')
  {
    forall i | 0 <= i < |w'.state.tasks| ensures ChildGone(w', i) {
      assert ChildGone(w, i);
    }
  }

  lemma ReadyForMeans(p: Plan, w: World, expected: Option<Decision>)
    requires PlanOk(p) && Inv(p, w)
    ensures |w.state.tasks| == |p.tasks|
    ensures ReadyFor(p, w, expected) <==>
      && w.state.pending.None? && PrefixVerified(p, w) && AttemptsLeft(w.state.tasks)
      && (expected.Some? ==> CanDecide(p, w) && DecisionOf(p, w) == expected.value)
  {
    hide PlanOk, Inv, PrefixVerified, CanDecide, DecisionOf, AttemptsLeft;
    InvState(p, w);
  }

  /** A decision implies the other checks. */
  lemma ReadyForDecided(p: Plan, w: World, expected: Option<Decision>)
    requires PlanOk(p) && Inv(p, w)
    ensures expected.Some? ==>
      (ReadyFor(p, w, expected) <==> CanDecide(p, w) && DecisionOf(p, w) == expected.value)
  {
    hide PlanOk, Inv, PrefixVerified, CanDecide, DecisionOf, CurrentObservable, InputsVerified, FilesOrAbsent;
    DecideNeeds(p, w);
  }
}
