/** What every crash point of every run satisfies. */
module Invariants {
  import opened Basics
  import opened Events
  import opened EventLog
  import opened WorkspaceTree
  import opened RunState
  import opened Lifecycle
  import opened World

  /** The records of events.jsonl. */
  ghost function Records(p: Plan, w: World): seq<Event>
  {
    if exists es :: w.log == Bytes(p.codec, es) then Decode(p.codec, w.log) else []
  }

  /** The acknowledged records and the pending one. */
  ghost function History(p: Plan, w: World): seq<Event>
    requires w.state.eventLog.count <= |Records(p, w)|
  {
    Records(p, w)[..w.state.eventLog.count] + (if w.state.pending.Some? then [w.state.pending.value] else [])
  }

  /** events.jsonl is an accepted chain, state.json acknowledges a prefix of it, and the only
      record that may be missing or unacknowledged is the pending one. */
  ghost predicate LogInv(p: Plan, w: World)
  {
    var es, s := Records(p, w), w.state;
    && Accepted(p.codec, p.Head(), w.log, es)
    && s.eventLog.count <= |es|
    && s.eventLog == Observe(p.codec, es[..s.eventLog.count])
    && Position(es, s.eventLog.count, s.pending).Some?
    && (s.pending.Some? && s.eventLog.count == |es| ==>
          s.eventLog.count < MAX_EVENT_COUNT && |w.log| + |p.codec.enc(s.pending.value)| <= MAX_EVENT_LOG_BYTES)
  }

  /** Replaying the log gives exactly the statuses and attempt counts of state.json. */
  ghost predicate ReplayInv(p: Plan, w: World)
  {
    && w.state.eventLog.count <= |Records(p, w)|
    && Replay(|p.tasks|, History(p, w)) == Some(Abstract(w.state))
  }

  /** The durable record of an attempt covers a live leader. */
  predicate Covers(w: World, pid: int, proc: Proc)
  {
    && proc.owner.Some?
    && var (i, n) := proc.owner.value;
       && i < |w.state.tasks| && w.state.tasks[i].status == Running
       && n == |w.state.tasks[i].attempts| && n > 0
       && var a := Latest(w.state.tasks[i]);
          a.guard || (a.pid == Some(pid) && a.token == Some(proc.token))
  }

  ghost predicate LeaderInv(w: World)
  {
    && (forall x :: x in w.procs && w.procs[x].owner.Some? ==>
          w.procs[x].owner.value in w.launches && Covers(w, x, w.procs[x]))
    && (forall x, y :: x in w.procs && y in w.procs && w.procs[x].owner.Some? && w.procs[y].owner.Some? ==> x == y)
    && (forall o :: o in w.launches ==> o.0 < |w.state.tasks| && 1 <= o.1 <= |w.state.tasks[o.0].attempts|)
  }

  predicate KnownName(p: Plan, w: World, name: QName)
  {
    && name.task < |w.state.tasks| && name.task < |p.tasks|
    && 1 <= name.attempt <= |w.state.tasks[name.task].attempts|
    && name.source in p.tasks[name.task].outputs
    && var t := w.state.tasks[name.task];
       || t.attempts[name.attempt - 1].quarantined.Some?
       || (name.attempt == |t.attempts| && (t.status == Running || t.status == Failed))
  }

  ghost predicate RecordedQuarantine(p: Plan, tasks: seq<TaskState>, quarantine: map<QName, Content>)
    requires |tasks| == |p.tasks|
  {
    forall i, k :: 0 <= i < |tasks| && 0 <= k < |tasks[i].attempts| && tasks[i].attempts[k].quarantined.Some? ==>
      tasks[i].attempts[k].quarantined.value == Quarantined(p.tasks[i].outputs, i, k + 1, quarantine)
  }

  /** Quarantine holds exactly the recorded files, plus those of a recovery under way. */
  ghost predicate QuarantineInv(p: Plan, w: World)
  {
    && |w.state.tasks| == |p.tasks|
    && RecordedQuarantine(p, w.state.tasks, w.quarantine)
    && (forall name :: name in w.quarantine ==> KnownName(p, w, name))
  }

  /** `name` belongs to a recovery under way. */
  predicate Recovering(w: World, name: QName)
  {
    && name.task < |w.state.tasks|
    && var t := w.state.tasks[name.task];
       t.attempts != [] && name.attempt == |t.attempts| && (t.status == Running || t.status == Failed)
  }

  /** A file is either in the workspace or in quarantine, and moving starts after the child is gone. */
  ghost predicate MovedInv(w: World)
  {
    forall name :: name in w.quarantine && Recovering(w, name) ==>
      name.source !in w.files && NoLeader(w) && !Latest(w.state.tasks[name.task]).guard
  }

  predicate KnownLog(w: World, key: LogKey)
    requires key in w.logs
  {
    && key.task < |w.state.tasks| && 1 <= key.attempt
    && var t := w.state.tasks[key.task];
       || key.attempt <= |t.attempts|
       || (FirstIncomplete(w.state, key.task) && t.status == Pending && key.attempt == |t.attempts| + 1 &&
           w.logs[key] == [])
  }

  /** Attempt logs are exactly those of the recorded attempts, plus an empty pair for the next one. */
  ghost predicate LogFilesInv(w: World)
  {
    && (forall i, n :: 0 <= i < |w.state.tasks| && 1 <= n <= |w.state.tasks[i].attempts| ==> HasLogs(w, i, n))
    && (forall key :: key in w.logs ==> KnownLog(w, key))
  }

  /** The tree of a clean workspace before task `i`. */
  function CleanTree(p: Plan, tasks: seq<TaskState>, i: nat): Tree
    requires i <= |tasks|
  {
    p.baseline + AsFiles(Sealed(tasks, i))
  }

  function RecordMap(records: seq<QRecord>): map<Path, Content>
  {
    if records == [] then map[]
    else RecordMap(records[..|records| - 1])[records[|records| - 1].source := records[|records| - 1].id]
  }

  /** `_validate_workspace_history` on one attempt. */
  predicate Derivable(p: Plan, tasks: seq<TaskState>, i: nat, a: Attempt)
    requires i <= |tasks|
  {
    && a.before == Some(CleanTree(p, tasks, i))
    && (a.status == ACompleted ==>
          a.outputs.Some? && a.after == Some(p.baseline + AsFiles(Sealed(tasks, i) + a.outputs.value)))
    && (a.status != ACompleted && a.quarantined.Some? ==>
          && a.after == Some(p.baseline + AsFiles(Sealed(tasks, i) + RecordMap(a.quarantined.value)))
          && a.recovered == Some(CleanTree(p, tasks, i)))
  }

  /** Only recovered attempts are torn. */
  ghost predicate TornInv(w: World)
  {
    forall o :: o in w.torn ==>
      && o.0 < |w.state.tasks| && 1 <= o.1 <= |w.state.tasks[o.0].attempts|
      && w.state.tasks[o.0].attempts[o.1 - 1].quarantined.Some?
  }

  /** Every attempt is derivable from the baseline and the sealed outputs, except the torn ones,
      which are not. */
  ghost predicate HistoryInv(p: Plan, tasks: seq<TaskState>, torn: set<(nat, nat)>)
  {
    forall i: nat, k: nat :: i < |tasks| && k < |tasks[i].attempts| ==>
      (Derivable(p, tasks, i, tasks[i].attempts[k]) <==> (i, k + 1) !in torn)
  }

  /** The recorded observation of a failed attempt is the tree it left, however much of it has
      been moved to quarantine since. */
  ghost predicate FailedInv(p: Plan, w: World)
  {
    forall i: nat | i < |p.tasks| && FirstIncomplete(w.state, i) ::
      w.state.tasks[i].status == Failed && w.state.tasks[i].attempts != [] ==>
      Latest(w.state.tasks[i]).after
      == Some(w.files + AsFiles(Moved(p.tasks[i].outputs, i, |w.state.tasks[i].attempts|, w.quarantine)))
  }

  ghost predicate WorkspaceInv(p: Plan, w: World)
  {
    TornInv(w) && (p.version == 3 ==> HistoryInv(p, w.state.tasks, w.torn) && FailedInv(p, w))
  }

  /** Every attempt ran on seeds and on outputs sealed by earlier tasks. */
  ghost predicate InputsInv(p: Plan, w: World)
  {
    forall i, k, q ::
      0 <= i < |w.state.tasks| && 0 <= k < |w.state.tasks[i].attempts| && q in w.state.tasks[i].attempts[k].inputs ==>
      ExpectedInput(p, w.state, i, q) == Some(w.state.tasks[i].attempts[k].inputs[q])
  }

  /** A sealed run stays what the bundle says. */
  ghost predicate BundleInv(p: Plan, w: World)
  {
    w.bundle.Some? ==>
      && w.state.pending.None? && w.state.status == RunCompleted
      && |w.state.tasks| == |p.tasks|
      && BundleFor(p, w, w.bundle.value)
      && (p.version == 3 ==> VerifyWorkspace(w.files, p.baseline, Sealed(w.state.tasks, |w.state.tasks|), []).Matched?)
  }

  ghost predicate Inv(p: Plan, w: World)
  {
    && StateOk(p, w.state)
    && LogInv(p, w)
    && ReplayInv(p, w)
    && LeaderInv(w)
    && QuarantineInv(p, w)
    && MovedInv(w)
    && LogFilesInv(w)
    && WorkspaceInv(p, w)
    && InputsInv(p, w)
    && BundleInv(p, w)
  }
}
