/** Reopening a run: what `_load_context` checks, and why it refuses nothing the engine wrote. */
module Load {
  import opened Basics
  import opened Events
  import opened EventLog
  import opened WorkspaceTree
  import opened RunState
  import opened Lifecycle
  import opened World
  import opened Invariants
  import opened KeepFiles

  predicate SeedsMatch(p: Plan, w: World)
  {
    forall q :: q in p.seeds ==> q in w.files && w.files[q] == File(p.seeds[q])
  }

  // ---------------------------------------------------------------- attempt artifacts

  predicate ReferencedLog(s: State, key: LogKey)
  {
    key.task < |s.tasks| && 1 <= key.attempt <= |s.tasks[key.task].attempts|
  }

  predicate NextLog(s: State, key: LogKey)
  {
    && FirstIncomplete(s, key.task)
    && s.tasks[key.task].status == Pending && key.attempt == |s.tasks[key.task].attempts| + 1
  }

  predicate LogsOk(w: World)
  {
    && (forall i, n :: 0 <= i < |w.state.tasks| && 1 <= n <= |w.state.tasks[i].attempts| ==> HasLogs(w, i, n))
    && (forall key :: key in w.logs ==> ReferencedLog(w.state, key) || (NextLog(w.state, key) && w.logs[key] == []))
  }

  predicate RecordPresent(w: World, r: QRecord)
  {
    r.artifact in w.quarantine && w.quarantine[r.artifact] == r.id
  }

  predicate RecordsPresent(w: World, a: Attempt)
  {
    a.quarantined.Some? ==> forall r :: r in a.quarantined.value ==> RecordPresent(w, r)
  }

  predicate Referenced(s: State, name: QName)
  {
    && name.task < |s.tasks| && 1 <= name.attempt <= |s.tasks[name.task].attempts|
    && var a := s.tasks[name.task].attempts[name.attempt - 1];
       a.quarantined.Some? && exists r :: r in a.quarantined.value && r.artifact == name
  }

  /** A destination of the recovery that the first incomplete task still needs. */
  predicate RecoverableName(p: Plan, s: State, name: QName)
  {
    && FirstIncomplete(s, name.task) && name.task < |p.tasks|
    && (s.tasks[name.task].status == Running || s.tasks[name.task].status == Failed)
    && s.tasks[name.task].attempts != [] && Latest(s.tasks[name.task]).quarantined.None?
    && name.attempt == Latest(s.tasks[name.task]).number
    && name.source in p.tasks[name.task].outputs
  }

  predicate QuarantineFilesOk(p: Plan, w: World)
  {
    && (forall i, k :: 0 <= i < |w.state.tasks| && 0 <= k < |w.state.tasks[i].attempts| ==>
          RecordsPresent(w, w.state.tasks[i].attempts[k]))
    && (forall name :: name in w.quarantine ==> Referenced(w.state, name) || RecoverableName(p, w.state, name))
  }

  // ---------------------------------------------------------------- workspace checks

  predicate HistoryOk(p: Plan, s: State)
  {
    p.version == 3 ==>
      forall i: nat, k: nat :: i < |s.tasks| && k < |s.tasks[i].attempts| ==>
          Derivable(p, s.tasks, i, s.tasks[i].attempts[k])
  }

  /** The partial outputs of the latest attempt, wherever they are. */
  function View(p: Plan, w: World, i: nat): map<Path, Content>
    requires i < |p.tasks| && i < |w.state.tasks|
  {
    Moved(p.tasks[i].outputs, i, |w.state.tasks[i].attempts|, w.quarantine) + Present(w.files, p.tasks[i].outputs)
  }

  predicate SplitOutputs(p: Plan, w: World, i: nat)
    requires i < |p.tasks| && i < |w.state.tasks|
  {
    forall q :: q in p.tasks[i].outputs ==> !(q in w.files && QName(i, |w.state.tasks[i].attempts|, q) in w.quarantine)
  }

  /** `_recovery_workspace_observation` */
  predicate RecoveryObservable(p: Plan, w: World, i: nat)
    requires i < |p.tasks| && i < |w.state.tasks| && w.state.tasks[i].attempts != []
  {
    var sealed := Sealed(w.state.tasks, |w.state.tasks|);
    && VerifyWorkspace(w.files, p.baseline, sealed, p.tasks[i].outputs).Matched?
    && match Latest(w.state.tasks[i]).after
       case None => Latest(w.state.tasks[i]).status == ARunning
       case Some(recorded) => SplitOutputs(p, w, i) && Project(p.baseline, sealed + View(p, w, i)) == Some(recorded)
  }

  /** `_current_workspace_observation` around the first incomplete task `i`, or a finished run. */
  predicate CurrentObservable(p: Plan, w: World)
  {
    p.version == 3 ==>
      && |w.state.tasks| == |p.tasks|
      && p.scannable(w.files)
      && (forall i: nat :: i < |w.state.tasks| && FirstIncomplete(w.state, i) ==>
            if w.state.tasks[i].status != Pending && w.state.tasks[i].attempts != [] then RecoveryObservable(p, w, i)
            else
              && VerifyWorkspace(w.files, p.baseline, Sealed(w.state.tasks, |w.state.tasks|), []).Matched?
              && (w.state.tasks[i].attempts != [] ==> Latest(w.state.tasks[i]).recovered == Some(w.files)))
      && (AllCompleted(w.state) ==>
            VerifyWorkspace(w.files, p.baseline, Sealed(w.state.tasks, |w.state.tasks|), []).Matched?)
  }

  ghost predicate LoadOk(p: Plan, w: World)
  {
    && StateOk(p, w.state)
    && SeedsMatch(p, w)
    && LogStatus(p.codec, p.Head(), w.log, w.state.eventLog, w.state.pending).Some?
    && LogsOk(w)
    && QuarantineFilesOk(p, w)
    && HistoryOk(p, w.state)
    && CurrentObservable(p, w)
  }

  method LoadContext(p: Plan, w: World) returns (state: Option<State>)
    requires Lawful(p.codec)
    ensures state == if LoadOk(p, w) then Some(w.state) else None
  {
    hide StateOk, LogStatus, LogsOk, QuarantineFilesOk, HistoryOk, CurrentObservable, SeedsMatch, Lawful;
    var valid := ValidateStateShape(p, w.state);
    var status := EventTransitionStatus(p.codec, p.Head(), w.log, w.state.eventLog, w.state.pending);
    if valid && SeedsMatch(p, w) && status.Some? && LogsOk(w) && QuarantineFilesOk(p, w)
       && HistoryOk(p, w.state) && CurrentObservable(p, w)
    {
      return Some(w.state);
    }
    return None;
  }

  // ---------------------------------------------------------------- what the engine wrote always loads

  lemma StatusAlwaysKnown(p: Plan, w: World)
    requires Lawful(p.codec) && LogInv(p, w)
    ensures LogStatus(p.codec, p.Head(), w.log, w.state.eventLog, w.state.pending)
         == Position(Records(p, w), w.state.eventLog.count, w.state.pending)
  {
    hide Lawful, LogStatus;
    StatusIsPosition(p.codec, p.Head(), w.log, Records(p, w), w.state.eventLog.count, w.state.pending);
  }

  lemma LogsAlwaysOk(w: World)
    requires LogFilesInv(w)
    ensures LogsOk(w)
  {
    forall key | key in w.logs ensures ReferencedLog(w.state, key) || (NextLog(w.state, key) && w.logs[key] == []) {
      assert KnownLog(w, key);
    }
  }

  lemma {:induction false} QuarantinedNames(outputs: seq<Path>, i: nat, n: nat, quarantine: map<QName, Content>)
    ensures forall r :: r in Quarantined(outputs, i, n, quarantine) ==>
      r.artifact in quarantine && quarantine[r.artifact] == r.id && r.artifact == QName(i, n, r.source)
    ensures forall q :: q in outputs && QName(i, n, q) in quarantine ==>
      QRecord(q, QName(i, n, q), quarantine[QName(i, n, q)]) in Quarantined(outputs, i, n, quarantine)
  {
    if outputs != [] {
      QuarantinedNames(outputs[..|outputs| - 1], i, n, quarantine);
    }
  }

  lemma QuarantineAlwaysOk(p: Plan, w: World)
    requires StateOk(p, w.state) && QuarantineInv(p, w)
    ensures QuarantineFilesOk(p, w)
  {
    hide StateOk, Quarantined;
    forall i, k | 0 <= i < |w.state.tasks| && 0 <= k < |w.state.tasks[i].attempts|
      ensures RecordsPresent(w, w.state.tasks[i].attempts[k])
    {
      QuarantinedNames(p.tasks[i].outputs, i, k + 1, w.quarantine);
    }
    forall name | name in w.quarantine ensures Referenced(w.state, name) || RecoverableName(p, w.state, name) {
      assert KnownName(p, w, name);
      var t := w.state.tasks[name.task];
      QuarantinedNames(p.tasks[name.task].outputs, name.task, name.attempt, w.quarantine);
      if t.attempts[name.attempt - 1].quarantined.None? {
        LatestRecord(p, w.state, name.task);
        RunningIsFirst(p, w.state, name.task);
      }
    }
  }

  lemma RunningIsFirst(p: Plan, s: State, i: nat)
    requires StateOk(p, s) && i < |s.tasks| && (s.tasks[i].status == Running || s.tasks[i].status == Failed)
    ensures FirstIncomplete(s, i) && s.tasks[i].attempts != [] && Latest(s.tasks[i]).number == |s.tasks[i].attempts|
  {
    assert TaskOk(p, i, s.tasks[i]);
    assert AttemptOk(p, i, |s.tasks[i].attempts| - 1, Latest(s.tasks[i]));
    CompletedBefore(s.tasks, i);
  }

  lemma HistoryAlwaysOk(p: Plan, w: World)
    requires WorkspaceInv(p, w)
    ensures HistoryOk(p, w.state) <==> (p.version != 3 || w.torn == {})
  {
    hide Derivable;
    if p.version == 3 {
      if w.torn == {} {
        assert HistoryOk(p, w.state);
      } else {
        var o :| o in w.torn;
        assert !Derivable(p, w.state.tasks, o.0, w.state.tasks[o.0].attempts[o.1 - 1]);
      }
    }
  }

  lemma LogsFrame(w: World, w': World)
    requires w'.state == w.state && w'.logs == w.logs && LogsOk(w)
    ensures LogsOk(w')
  {
    forall i, n | 0 <= i < |w.state.tasks| && 1 <= n <= |w.state.tasks[i].attempts| ensures HasLogs(w', i, n) {
      assert HasLogs(w, i, n);
    }
  }

  lemma QuarantineFrame(p: Plan, w: World, w': World)
    requires w'.state == w.state && w'.quarantine == w.quarantine && QuarantineFilesOk(p, w)
    ensures QuarantineFilesOk(p, w')
  {
    hide Referenced, RecoverableName;
    forall i, k | 0 <= i < |w.state.tasks| && 0 <= k < |w.state.tasks[i].attempts|
      ensures RecordsPresent(w', w.state.tasks[i].attempts[k])
    {
      var a := w.state.tasks[i].attempts[k];
      assert RecordsPresent(w, a);
      if a.quarantined.Some? {
        forall r | r in a.quarantined.value ensures RecordPresent(w', r) {
          assert RecordPresent(w, r);
        }
      }
    }
  }

  /** With any tree in place of the workspace, four of the seven checks never refuse what the engine wrote, and
      a fifth refuses only a torn recovery. */
  lemma LoadNeeds(p: Plan, w: World, files: Tree)
    requires PlanOk(p) && Inv(p, w)
    ensures var w' := w.(files := files);
      LoadOk(p, w') <==> SeedsMatch(p, w') && CurrentObservable(p, w') && (p.version == 3 ==> w.torn == {})
  {
    assert Lawful(p.codec);
    hide PlanOk, StateOk, LogInv, ReplayInv, LeaderInv, QuarantineInv, MovedInv, LogFilesInv, WorkspaceInv;
    hide InputsInv, BundleInv;
    hide SeedsMatch, CurrentObservable, LogsOk, QuarantineFilesOk, HistoryOk, LogStatus, Lawful;
    StatusAlwaysKnown(p, w);
    KnownPosition(p, w);
    LogsAlwaysOk(w);
    QuarantineAlwaysOk(p, w);
    HistoryAlwaysOk(p, w);
    LogsFrame(w, w.(files := files));
    QuarantineFrame(p, w, w.(files := files));
  }

  lemma KnownPosition(p: Plan, w: World)
    requires LogInv(p, w)
    ensures Position(Records(p, w), w.state.eventLog.count, w.state.pending).Some?
  {
  }
}
