/** What the writer lock guarantees over every run of any number of processes. */
module LockSafety {
  import opened Basics
  import opened WriterLock

  lemma {:induction false} RunInv(ds: seq<Disk>, k: nat)
    requires Run(ds) && k < |ds|
    ensures Inv(ds[k])
  {
    hide Inv, Do;
    if k == 0 {
      InitInv(ds[0]);
    } else {
      RunInv(ds, k - 1);
      assert Next(ds[k - 1], ds[k - 1 + 1]);
      var a, act :| Do(ds[k - 1], a, act) == Some(ds[k]);
      StepInv(ds[k - 1], a, act, ds[k]);
    }
  }

  lemma InitInv(d: Disk)
    requires Init(d)
    ensures Inv(d)
  {
  }

  /** At most one live process holds the lock, and the lock path names its own record. */
  lemma OneHolder(ds: seq<Disk>, k: nat, a: Agent, b: Agent)
    requires Run(ds) && k < |ds| && a in ds[k].phases && b in ds[k].phases
    requires ds[k].phases[a].Holding? && ds[k].phases[b].Holding?
    ensures a == b && ds[k].lock == Some(ds[k].phases[a].ino)
    ensures ds[k].lock.value in ds[k].files && ds[k].files[ds[k].lock.value].creator == a
    ensures ds[k].files[ds[k].lock.value].written
  {
    RunInv(ds, k);
    hide Run, FilesInv, IdentityInv;
    assert PhaseOk(ds[k], a) && PhaseOk(ds[k], b);
  }

  // ---------------------------------------------------------------- what may be unlinked

  predicate Writes(d: Disk, a: Agent, d': Disk, i: Ino)
    requires i in d.files && i in d'.files
  {
    a in d.phases && d.phases[a] == Flocked(i) && d'.files[i] == d.files[i].(written := true)
  }

  /** What a step of `a` may do to the names and files. */
  ghost predicate Effects(d: Disk, a: Agent, d': Disk)
  {
    && (d'.lock == d.lock
        || (d'.lock.None? && a in d.phases && (d.phases[a].Checked? || d.phases[a].Verified?))
        || (d.lock.None? && d'.lock == Some(d.nextIno)))
    && (forall r :: r in d.tombs ==> r in d'.tombs && d'.tombs[r] == d.tombs[r])
    && (forall i :: i in d.files ==>
          i in d'.files && (d'.files[i] == d.files[i] || i == d.nextIno || Writes(d, a, d', i)))
    && (forall x :: x in d.ids ==> x in d'.ids && d'.ids[x] == d.ids[x])
    && (forall x :: x in d.ids && !Live(d, x) ==> !Live(d', x))
  }

  lemma IdleEffects(d: Disk, a: Agent, act: Act, d': Disk)
    requires a in d.phases && a in d.ids && FromIdle(d, a, act) == Some(d')
    ensures Effects(d, a, d')
  {
    hide Reads;
  }

  lemma QuietEffects(d: Disk, a: Agent, d': Disk)
    requires d'.lock == d.lock && d'.tombs == d.tombs && d'.files == d.files
    requires d'.ids == d.ids && d'.phases.Keys == d.phases.Keys
    ensures Effects(d, a, d')
  {
  }

  lemma CleanUpEffects(d: Disk, a: Agent, ino: Ino)
    requires a in d.phases
    ensures Effects(d, a, CleanUp(d, a, ino)) && Effects(d, a, Done(d, a))
  {
    hide Effects;
    QuietEffects(d, a, CleanUp(d, a, ino));
    QuietEffects(d, a, Done(d, a));
  }

  lemma WriteEffects(d: Disk, a: Agent, ino: Ino)
    requires a in d.phases && d.phases[a] == Flocked(ino) && ino in d.files
    ensures Effects(d, a, At(d, a, Wrote(ino)).(files := d.files[ino := d.files[ino].(written := true)]))
  {
  }

  lemma UnlinkEffects(d: Disk, a: Agent, p: Phase)
    requires a in d.phases && (d.phases[a].Checked? || d.phases[a].Verified?)
    ensures Effects(d, a, At(d, a, p).(lock := None))
  {
  }

  lemma OwningEffects(d: Disk, a: Agent, act: Act, d': Disk)
    requires a in d.phases && Owning(d.phases[a]) && FromOwning(d, a, d.phases[a], act) == Some(d')
    ensures Effects(d, a, d')
  {
    hide Effects, CleanUp, Done;
    var ino := d.phases[a].ino;
    CleanUpEffects(d, a, ino);
    match d.phases[a]
    case Created(_) => QuietEffects(d, a, At(d, a, Flocked(ino)).(flocks := d.flocks[ino := a]));
    case Flocked(_) => if ino in d.files { WriteEffects(d, a, ino); }
    case Wrote(_) => QuietEffects(d, a, At(d, a, Holding(ino)));
    case Holding(_) => QuietEffects(d, a, At(d, a, Checked(ino)));
    case Checked(_) => UnlinkEffects(d, a, Unlinked(ino));
  }

  lemma InspectingEffects(d: Disk, a: Agent, act: Act, d': Disk)
    requires a in d.phases && FromInspecting(d, a, d.phases[a], act) == Some(d')
    ensures Effects(d, a, d')
  {
    hide Reads, Effects, Done, Sound, Sees, Asks;
    CleanUpEffects(d, a, 0);
    match d.phases[a]
    case Inspecting(r, w) => if act.Ask? || d.lock.Some? { QuietEffects(d, a, d'); }
    case Opened(ino, r, o) => QuietEffects(d, a, At(d, a, Guarded(ino, r, o)).(flocks := d.flocks[ino := a]));
    case Guarded(ino, r, o) => QuietEffects(d, a, At(d, a, Watched(ino, r, o, Unseen)));
    case Watched(ino, r, o, w) => QuietEffects(d, a, d');
    case _ =>
  }

  lemma RecoveringEffects(d: Disk, a: Agent, act: Act, d': Disk)
    requires a in d.phases && Recovering(d.phases[a]) && FromRecovering(d, a, d.phases[a], act) == Some(d')
    ensures Effects(d, a, d')
  {
    hide Links, Effects, Done;
    var ino, r := d.phases[a].ino, d.phases[a].record;
    CleanUpEffects(d, a, ino);
    match d.phases[a]
    case Confirmed(_, _) => QuietEffects(d, a, At(d, a, Ready(ino, r)));
    case Ready(_, _) =>
      QuietEffects(d, a, At(d, a, Linked(ino, r)));
      if r !in d.tombs && d.lock.Some? { LinkEffects(d, a, ino, r); }
    case Linked(_, _) => QuietEffects(d, a, At(d, a, Verified(ino, r)));
    case Verified(_, _) => UnlinkEffects(d, a, Archived(ino, r));
  }

  lemma LinkEffects(d: Disk, a: Agent, ino: Ino, r: Record)
    requires a in d.phases && r !in d.tombs && d.lock.Some?
    ensures Effects(d, a, At(d, a, Linked(ino, r)).(tombs := d.tombs[r := d.lock.value]))
  {
  }

  lemma StepEffects(d: Disk, a: Agent, act: Act, d': Disk)
    requires Do(d, a, act) == Some(d')
    ensures Effects(d, a, d')
  {
    hide FromIdle, FromOwning, FromInspecting, FromRecovering;
    if !act.Spawn? && !act.Die? {
      if d.phases[a].Idle? {
        IdleEffects(d, a, act, d');
      } else if Owning(d.phases[a]) {
        OwningEffects(d, a, act, d');
      } else if d.phases[a].Unlinked? || d.phases[a].Archived? {
      } else if act.Abort? {
        CleanUpEffects(d, a, 0);
      } else if Recovering(d.phases[a]) {
        RecoveringEffects(d, a, act, d');
      } else {
        InspectingEffects(d, a, act, d');
      }
    }
  }

  /** The lock path loses a name only by its creator, or by a recovery that inspected exactly that file and
      its record, whose owner is dead and whose file is archived. */
  lemma UnlinksOnlyItsOwn(ds: seq<Disk>, k: nat, a: Agent, act: Act, ino: Ino)
    requires Run(ds) && k + 1 < |ds| && Do(ds[k], a, act) == Some(ds[k + 1])
    requires ds[k].lock == Some(ino) && ds[k + 1].lock != Some(ino)
    ensures ds[k + 1].lock.None? && a in ds[k].phases && ino in ds[k].files
    ensures ds[k].files[ino].creator == a
      || (var r := ds[k].files[ino].record;
          ds[k].phases[a] == Verified(ino, r) && Orphan(ds[k], ino, r) && r in ds[k].tombs && ds[k].tombs[r] == ino)
  {
    RunInv(ds, k);
    hide Run, FilesInv, IdentityInv, Do;
    StepEffects(ds[k], a, act, ds[k + 1]);
    assert PhaseOk(ds[k], a);
  }

  // ---------------------------------------------------------------- an orphan is never lost

  /** `ino` is the complete record of a dead owner, still named. */
  ghost predicate Kept(d: Disk, ino: Ino, r: Record)
  {
    && ino in d.files && d.files[ino].written && d.files[ino].record == r
    && d.files[ino].creator in d.ids && !Live(d, d.files[ino].creator)
    && (d.lock == Some(ino) || (r in d.tombs && d.tombs[r] == ino))
  }

  lemma StepKeepsOrphan(d: Disk, a: Agent, act: Act, d': Disk, ino: Ino, r: Record)
    requires Inv(d) && Do(d, a, act) == Some(d') && Kept(d, ino, r)
    ensures Kept(d', ino, r)
  {
    StepEffects(d, a, act, d');
    NewFile(d);
    if a in d.phases {
      assert PhaseOk(d, a);
    }
    hide Inv, Do;
  }

  lemma NewFile(d: Disk)
    requires Inv(d)
    ensures d.nextIno !in d.files
  {
    assert RecordsInv(d);
    assert d.nextIno in d.files ==> RecordOk(d, d.nextIno);
  }

  /** Once its owner is dead, the inspected file stays named by the lock path or by its tombstone, through
      any number of recoveries, crashes and new acquisitions. */
  lemma {:induction false} OrphanStaysNamed(ds: seq<Disk>, j: nat, k: nat, ino: Ino, r: Record)
    requires Run(ds) && j <= k < |ds| && Orphan(ds[j], ino, r)
    ensures Kept(ds[k], ino, r)
    decreases k
  {
    hide Inv, Do;
    RunInv(ds, j);
    OrphanIsKept(ds[j], ino, r);
    if j < k {
      OrphanStaysNamed(ds, j, k - 1, ino, r);
      RunInv(ds, k - 1);
      assert Next(ds[k - 1], ds[k - 1 + 1]);
      var a, act :| Do(ds[k - 1], a, act) == Some(ds[k]);
      StepKeepsOrphan(ds[k - 1], a, act, ds[k], ino, r);
    }
  }

  lemma OrphanIsKept(d: Disk, ino: Ino, r: Record)
    requires Inv(d) && Orphan(d, ino, r)
    ensures Kept(d, ino, r)
  {
    assert RecordOk(d, ino);
  }

  /** A crash between creating the lock file and writing its record leaves a lock nobody can remove. */
  lemma {:induction false} UnwrittenLockIsStuck(ds: seq<Disk>, j: nat, k: nat, ino: Ino)
    requires Run(ds) && j <= k < |ds| && ds[j].lock == Some(ino) && ino in ds[j].files
    requires !ds[j].files[ino].written && !Live(ds[j], ds[j].files[ino].creator)
    ensures ds[k].lock == Some(ino) && ino in ds[k].files && ds[k].files[ino] == ds[j].files[ino]
    ensures !Live(ds[k], ds[j].files[ino].creator) && ds[j].files[ino].creator in ds[k].ids
    decreases k
  {
    hide Inv, Do;
    RunInv(ds, j);
    CreatorKnown(ds[j], ino);
    if j < k {
      UnwrittenLockIsStuck(ds, j, k - 1, ino);
      RunInv(ds, k - 1);
      assert Next(ds[k - 1], ds[k - 1 + 1]);
      var a, act :| Do(ds[k - 1], a, act) == Some(ds[k]);
      StepKeepsStuck(ds[k - 1], a, act, ds[k], ino);
    }
  }

  lemma CreatorKnown(d: Disk, ino: Ino)
    requires Inv(d) && ino in d.files
    ensures d.files[ino].creator in d.ids
  {
    assert RecordOk(d, ino);
  }

  lemma StepKeepsStuck(d: Disk, a: Agent, act: Act, d': Disk, ino: Ino)
    requires Inv(d) && Do(d, a, act) == Some(d') && d.lock == Some(ino) && ino in d.files
    requires !d.files[ino].written && d.files[ino].creator in d.ids && !Live(d, d.files[ino].creator)
    ensures d'.lock == Some(ino) && ino in d'.files && d'.files[ino] == d.files[ino]
    ensures !Live(d', d.files[ino].creator) && d.files[ino].creator in d'.ids
  {
    StepEffects(d, a, act, d');
    NewFile(d);
    if a in d.phases {
      assert PhaseOk(d, a);
    }
    hide Inv, Do;
  }

  // ---------------------------------------------------------------- solo runs

  /** A step of `a`. */
  ghost predicate By(d: Disk, a: Agent, d': Disk)
  {
    exists act :: Do(d, a, act) == Some(d')
  }

  /** Only `a` moves. */
  ghost predicate Solo(ds: seq<Disk>, a: Agent): (solo: bool)
    ensures solo ==> ds != []
  {
    ds != [] && forall k :: 0 <= k < |ds| - 1 ==> By(ds[k], a, ds[k + 1])
  }

  function Last(ds: seq<Disk>): Disk
    requires ds != []
  {
    ds[|ds| - 1]
  }

  lemma Extend(ds: seq<Disk>, a: Agent, d: Disk)
    requires Solo(ds, a) && By(Last(ds), a, d)
    ensures Solo(ds + [d], a)
  {
    hide By;
    var longer := ds + [d];
    forall k | 0 <= k < |longer| - 1 ensures By(longer[k], a, longer[k + 1]) {
      assert k + 1 < |ds| ==> By(ds[k], a, ds[k + 1]);
    }
  }

  lemma {:induction false} SoloInv(ds: seq<Disk>, a: Agent, k: nat)
    requires Solo(ds, a) && Inv(ds[0]) && k < |ds|
    ensures Inv(ds[k])
  {
    hide Inv, Do;
    if k > 0 {
      SoloInv(ds, a, k - 1);
      assert By(ds[k - 1], a, ds[k - 1 + 1]);
      var act :| Do(ds[k - 1], a, act) == Some(ds[k]);
      StepInv(ds[k - 1], a, act, ds[k]);
    }
  }

  lemma InspectingBy(d: Disk, a: Agent, act: Act, d': Disk)
    requires a in d.phases && a in d.ids && !act.Spawn? && !act.Die? && !act.Abort?
    requires d.phases[a].Inspecting? || d.phases[a].Opened? || d.phases[a].Guarded? || d.phases[a].Watched?
    requires FromInspecting(d, a, d.phases[a], act) == Some(d')
    ensures By(d, a, d')
  {
    hide FromInspecting;
    assert Do(d, a, act) == Some(d');
  }

  // ---------------------------------------------------------------- what truthful probes conclude

  /** The owner's id is free, or its record has a token that tells the owner from whoever has the id now. */
  predicate Recoverable(d: Disk, r: Record) { r.token.Some? || !InUse(d, r.pid) }

  /** Some sound answers about `r` conclude `o`. */
  predicate Concludes(d: Disk, r: Record, o: Observation)
  {
    match o
    case OwnerDead => !InUse(d, r.pid)
    case PidReused(t) =>
      && IsToken(r.token) && t != r.token.value && t != "" && InUse(d, r.pid)
      && exists b :: b in d.phases && b in d.ids && d.ids[b] == Identity(r.pid, t)
    case Refused => false
  }

  lemma Conclusion(d: Disk, ino: Ino, r: Record) returns (o: Observation)
    requires Inv(d) && Orphan(d, ino, r) && Recoverable(d, r)
    ensures Concludes(d, r, o)
  {
    hide NonceInv, NamesInv, PhaseOk;
    assert RecordOk(d, ino);
    if InUse(d, r.pid) {
      var b :| b in d.phases && b in d.ids && d.ids[b].pid == r.pid;
      o := PidReused(d.ids[b].token);
      assert d.ids[b] == Identity(r.pid, d.ids[b].token);
      assert d.ids[b] != d.ids[d.files[ino].creator];
    } else {
      o := OwnerDead;
    }
  }

  function Rewatch(p: Phase, w: Watch): Phase
    requires p.Inspecting? || p.Watched?
  {
    if p.Inspecting? then Inspecting(p.record, w) else Watched(p.ino, p.record, p.decided, w)
  }

  lemma AskBy(d: Disk, a: Agent, x: Answer)
    requires a in d.phases && a in d.ids && (d.phases[a].Inspecting? || d.phases[a].Watched?)
    requires Asks(d.phases[a].watch, x) && Sound(d, d.phases[a].record.pid, x)
    ensures var p := d.phases[a]; By(d, a, At(d, a, Rewatch(p, Sees(p.watch, p.record.token, x))))
  {
    hide Sound, Sees, Asks;
    var p := d.phases[a];
    InspectingBy(d, a, Ask(x), At(d, a, Rewatch(p, Sees(p.watch, p.record.token, x))));
  }

  /** The probes that reach a conclusion: two when the id is free, four when it is reused. */
  lemma ObserveBy(ds: seq<Disk>, a: Agent, o: Observation) returns (longer: seq<Disk>)
    requires Solo(ds, a) && a in Last(ds).phases && a in Last(ds).ids
    requires Last(ds).phases[a].Inspecting? || Last(ds).phases[a].Watched?
    requires Last(ds).phases[a].watch.Unseen? && Concludes(Last(ds), Last(ds).phases[a].record, o)
    ensures Solo(longer, a) && |longer| > |ds| && longer[0] == ds[0]
    ensures Last(longer) == At(Last(ds), a, Rewatch(Last(ds).phases[a], Seen(o)))
  {
    hide By, Solo, IsToken;
    SoundAnswers(Last(ds), Last(ds).phases[a].record, o);
    SeesConclusion(Last(ds).phases[a].record, o);
    hide Concludes, Sound, Sees, InUse;
    if o.OwnerDead? {
      var d1 := OneAsk(ds, a, Life(Dead), OnceDead);
      longer := OneAsk(d1, a, Life(Dead), Seen(OwnerDead));
    } else {
      var t := Some(o.token);
      var d1 := OneAsk(ds, a, Life(Alive), OnceAlive);
      var d2 := OneAsk(d1, a, Token(t), WithToken(t));
      var d3 := OneAsk(d2, a, Life(Alive), TwiceAlive(t));
      longer := OneAsk(d3, a, Token(t), Seen(o));
    }
  }

  lemma SoundAnswers(d: Disk, r: Record, o: Observation)
    requires Concludes(d, r, o)
    ensures o.OwnerDead? ==> Sound(d, r.pid, Life(Dead))
    ensures o.PidReused? ==> Sound(d, r.pid, Life(Alive)) && Sound(d, r.pid, Token(Some(o.token)))
    ensures o.PidReused? ==> o.token != "" && IsToken(r.token) && r.token != Some(o.token)
    ensures o != Refused
  {
  }

  lemma SeesConclusion(r: Record, o: Observation)
    requires o.PidReused? ==> o.token != "" && IsToken(r.token) && r.token != Some(o.token)
    ensures Sees(Unseen, r.token, Life(Dead)) == OnceDead && Sees(OnceDead, r.token, Life(Dead)) == Seen(OwnerDead)
    ensures Sees(Unseen, r.token, Life(Alive)) == OnceAlive
    ensures o.PidReused? ==>
      var t := Some(o.token);
      && Sees(OnceAlive, r.token, Token(t)) == WithToken(t) && Sees(WithToken(t), r.token, Life(Alive)) == TwiceAlive(t)
      && Sees(TwiceAlive(t), r.token, Token(t)) == Seen(o)
  {
  }

  lemma OneAsk(ds: seq<Disk>, a: Agent, x: Answer, w: Watch) returns (longer: seq<Disk>)
    requires Solo(ds, a) && a in Last(ds).phases && a in Last(ds).ids
    requires Last(ds).phases[a].Inspecting? || Last(ds).phases[a].Watched?
    requires Asks(Last(ds).phases[a].watch, x) && Sound(Last(ds), Last(ds).phases[a].record.pid, x)
    requires w == Sees(Last(ds).phases[a].watch, Last(ds).phases[a].record.token, x)
    ensures Solo(longer, a) && |longer| == |ds| + 1 && longer[0] == ds[0]
    ensures Last(longer) == At(Last(ds), a, Rewatch(Last(ds).phases[a], w))
    ensures forall pid, y :: Sound(Last(ds), pid, y) ==> Sound(Last(longer), pid, y)
  {
    hide By, Solo, Sees, Asks;
    AskBy(Last(ds), a, x);
    longer := ds + [At(Last(ds), a, Rewatch(Last(ds).phases[a], w))];
    Extend(ds, a, Last(longer));
  }

  // ---------------------------------------------------------------- a rerun after a crash is accepted

  lemma LinkCount(d: Disk, ino: Ino, r: Record)
    requires FilesInv(d) && ino in d.files && d.files[ino].record == r
    ensures r in d.tombs ==> d.tombs[r] == ino
    ensures Links(d, ino) == (if d.lock == Some(ino) then 1 else 0) + (if r in d.tombs then 1 else 0)
  {
    assert r in d.tombs ==> d.files[d.tombs[r]].record.nonce == d.files[ino].record.nonce;
    var names := set x | x in d.tombs && d.tombs[x] == ino;
    assert names == if r in d.tombs then {r} else {};
  }

  lemma StartInspection(d: Disk, a: Agent, ino: Ino, r: Record)
    requires Reads(d, ino, r) && a in d.phases && a in d.ids && d.phases[a].Idle?
    ensures By(d, a, At(d, a, Inspecting(r, Unseen)))
  {
    assert FromIdle(d, a, Inspect) == Some(At(d, a, Inspecting(r, Unseen)));
    hide FromIdle;
    assert Do(d, a, Inspect) == Some(At(d, a, Inspecting(r, Unseen)));
  }

  /** The first inspection and observation. */
  lemma FirstObservation(d: Disk, a: Agent, ino: Ino, r: Record, o: Observation) returns (ds: seq<Disk>)
    requires Reads(d, ino, r) && a in d.phases && a in d.ids && d.phases[a].Idle? && Concludes(d, r, o)
    ensures Solo(ds, a) && ds[0] == d && Last(ds) == At(d, a, Inspecting(r, Seen(o)))
  {
    hide By, Solo, Reads;
    StartInspection(d, a, ino, r);
    var d1 := At(d, a, Inspecting(r, Unseen));
    OneStep(d, a, d1);
    SameConclusion(d, d1, r, o);
    hide Concludes;
    ds := ObserveBy([d, d1], a, o);
    assert At(d1, a, Inspecting(r, Seen(o))) == At(d, a, Inspecting(r, Seen(o)));
  }

  lemma SameConclusion(d: Disk, d': Disk, r: Record, o: Observation)
    requires Concludes(d, r, o) && d'.phases.Keys == d.phases.Keys && d'.ids == d.ids
    ensures Concludes(d', r, o)
  {
    assert forall b :: b in d'.phases <==> b in d'.phases.Keys;
  }

  /** The steps up to the kernel guard and the second observation under it. */
  lemma EnterRecovery(d: Disk, a: Agent, ino: Ino, r: Record, o: Observation) returns (ds: seq<Disk>)
    requires Reads(d, ino, r) && ino !in d.flocks && a in d.phases
    requires a in d.ids && d.phases[a].Idle? && Concludes(d, r, o)
    ensures Solo(ds, a) && ds[0] == d && Last(ds) == At(d, a, Confirmed(ino, r)).(flocks := d.flocks[ino := a])
  {
    hide By, Solo, Reads, Owning, Recovering, Orphan, InUse;
    var ds1 := FirstObservation(d, a, ino, r, o);
    assert o != Refused;
    var ds2 := UpToGuard(ds1, d, a, ino, r, o);
    SameConclusion(d, Last(ds2), r, o);
    hide Concludes;
    var ds3 := ObserveBy(ds2, a, o);
    var d3 := At(d, a, Watched(ino, r, o, Seen(o))).(flocks := d.flocks[ino := a]);
    assert Last(ds3) == d3;
    var d4 := At(d, a, Confirmed(ino, r)).(flocks := d.flocks[ino := a]);
    assert d4 == At(d3, a, Confirmed(ino, r));
    InspectingBy(d3, a, Confirm, d4);
    Extend(ds3, a, d4);
    ds := ds3 + [d4];
  }

  lemma OneStep(d: Disk, a: Agent, d': Disk)
    requires By(d, a, d')
    ensures Solo([d, d'], a)
  {
    hide By;
  }

  /** Open the named file, take its flock, and read it again. */
  lemma UpToGuard(ds: seq<Disk>, d: Disk, a: Agent, ino: Ino, r: Record, o: Observation) returns (longer: seq<Disk>)
    requires Solo(ds, a) && ds[0] == d && Reads(d, ino, r) && ino !in d.flocks && a in d.phases && a in d.ids
    requires o != Refused && Last(ds) == At(d, a, Inspecting(r, Seen(o)))
    ensures Solo(longer, a) && longer[0] == d
    ensures Last(longer) == At(d, a, Watched(ino, r, o, Unseen)).(flocks := d.flocks[ino := a])
  {
    hide By, Solo, Sees, Sound, Asks, Done, Owning, Recovering;
    var d1 := At(d, a, Opened(ino, r, o));
    assert d1 == At(Last(ds), a, Opened(ino, r, o));
    InspectingBy(Last(ds), a, Open, d1);
    Extend(ds, a, d1);
    var d2 := At(d, a, Guarded(ino, r, o)).(flocks := d.flocks[ino := a]);
    assert d2 == At(d1, a, Guarded(ino, r, o)).(flocks := d.flocks[ino := a]);
    InspectingBy(d1, a, Guard, d2);
    Extend(ds + [d1], a, d2);
    var d3 := At(d, a, Watched(ino, r, o, Unseen)).(flocks := d.flocks[ino := a]);
    assert d3 == At(d2, a, Watched(ino, r, o, Unseen));
    InspectingBy(d2, a, Snapshot, d3);
    Extend(ds + [d1] + [d2], a, d3);
    longer := ds + [d1] + [d2] + [d3];
  }

  lemma ConfirmedFacts(d: Disk, a: Agent, ino: Ino, r: Record)
    requires Inv(d) && a in d.phases && d.phases[a] == Confirmed(ino, r)
    ensures Orphan(d, ino, r) && a in d.ids && FilesInv(d)
  {
    assert PhaseOk(d, a);
  }

  /** The tombstone of the file under recovery is linked. */
  function Tombed(d: Disk, a: Agent, p: Phase): Disk
    requires Recovering(p)
  {
    At(d, a, p).(tombs := d.tombs[p.record := p.ino])
  }

  function Archival(d: Disk, a: Agent, ino: Ino, r: Record): Disk
  {
    At(d, a, Archived(ino, r)).(lock := None, tombs := d.tombs[r := ino])
  }

  lemma RecoveringDo(d: Disk, a: Agent, act: Act)
    requires a in d.phases && a in d.ids && !act.Spawn? && !act.Die? && !act.Abort? && Recovering(d.phases[a])
    ensures Do(d, a, act) == FromRecovering(d, a, d.phases[a], act)
  {
    hide FromRecovering;
  }

  /** The steps under the guard, whether or not the tombstone exists already. */
  lemma ArchivePath(d: Disk, a: Agent, ino: Ino, r: Record)
    requires Inv(d) && a in d.phases && a in d.ids && d.phases[a] == Confirmed(ino, r)
    ensures var d1 := At(d, a, Ready(ino, r));
      var d2 := Tombed(d, a, Linked(ino, r));
      var d3 := Tombed(d, a, Verified(ino, r));
      && Do(d, a, CheckLink) == Some(d1) && Do(d1, a, Link) == Some(d2) && Do(d2, a, VerifyLink) == Some(d3)
      && Do(d3, a, Remove) == Some(Archival(d, a, ino, r))
  {
    hide Links, Inv, Do, FilesInv;
    var d1 := At(d, a, Ready(ino, r));
    var d2 := Tombed(d, a, Linked(ino, r));
    var d3 := Tombed(d, a, Verified(ino, r));
    ConfirmedFacts(d, a, ino, r);
    LinkCount(d, ino, r);
    RecoveringDo(d, a, CheckLink);
    assert r in d.tombs ==> d.tombs[r := ino] == d.tombs;
    assert At(d1, a, Linked(ino, r)).(tombs := d.tombs[r := ino]) == d2;
    RecoveringDo(d1, a, Link);
    StepInv(d, a, CheckLink, d1);
    StepInv(d1, a, Link, d2);
    FilesOf(d2);
    LinkCount(d2, ino, r);
    assert At(d2, a, Verified(ino, r)) == d3;
    RecoveringDo(d2, a, VerifyLink);
    assert At(d3, a, Archived(ino, r)).(lock := None) == Archival(d, a, ino, r);
    RecoveringDo(d3, a, Remove);
  }

  lemma Archive(ds: seq<Disk>, a: Agent, ino: Ino, r: Record) returns (longer: seq<Disk>)
    requires Solo(ds, a) && Inv(ds[0]) && a in Last(ds).phases && Last(ds).phases[a] == Confirmed(ino, r)
    ensures Solo(longer, a) && longer[0] == ds[0] && Last(longer) == Archival(Last(ds), a, ino, r)
  {
    hide Inv, Do, Solo;
    var d := Last(ds);
    SoloInv(ds, a, |ds| - 1);
    Known(d, a);
    ArchivePath(d, a, ino, r);
    var d1 := At(d, a, Ready(ino, r));
    var d2 := Tombed(d, a, Linked(ino, r));
    var d3 := Tombed(d, a, Verified(ino, r));
    Extend(ds, a, d1);
    Extend(ds + [d1], a, d2);
    Extend(ds + [d1] + [d2], a, d3);
    Extend(ds + [d1] + [d2] + [d3], a, Archival(d, a, ino, r));
    longer := ds + [d1] + [d2] + [d3] + [Archival(d, a, ino, r)];
  }

  lemma Known(d: Disk, a: Agent)
    requires Inv(d) && a in d.phases
    ensures a in d.ids
  {
  }

  lemma FilesOf(d: Disk)
    requires Inv(d)
    ensures FilesInv(d)
  {
  }

  /** Whatever a crashed recovery left behind, a new one by any idle process can complete, provided probes can
      tell that the owner is dead: the orphan leaves the lock path and its tombstone is the only name left. */
  lemma RerunAccepted(d: Disk, a: Agent, ino: Ino, r: Record) returns (ds: seq<Disk>)
    requires Inv(d) && Orphan(d, ino, r) && ino !in d.flocks && a in d.phases && d.phases[a].Idle? && Recoverable(d, r)
    ensures Solo(ds, a) && ds[0] == d
    ensures var e := Last(ds);
      e.lock.None? && r in e.tombs && e.tombs[r] == ino && Links(e, ino) == 1 && e.files == d.files &&
          e.phases == d.phases
  {
    hide Inv, Links, By, Do, Solo, Concludes;
    var o := Conclusion(d, ino, r);
    Known(d, a);
    var ds1 := EnterRecovery(d, a, ino, r, o);
    var ds2 := Archive(ds1, a, ino, r);
    SoloInv(ds2, a, |ds2| - 1);
    var e := Done(Last(ds2), a);
    CloseArchived(Last(ds2), a);
    Extend(ds2, a, e);
    ds := ds2 + [e];
    SoloInv(ds, a, |ds| - 1);
    FilesOf(e);
    LinkCount(e, ino, r);
  }

  lemma CloseArchived(d: Disk, a: Agent)
    requires Inv(d) && a in d.phases && d.phases[a].Archived?
    ensures By(d, a, Done(d, a))
  {
    assert a in d.ids;
    hide Inv;
    assert Do(d, a, Close) == Some(Done(d, a));
  }

  // ---------------------------------------------------------------- when a dead owner's lock can be removed

  /** The lock of a dead owner that `a` cannot remove: its record is unwritten, another process has its flock,
      or probes cannot tell the owner from whoever has its id. */
  ghost predicate Stuck(d: Disk, a: Agent, ino: Ino)
  {
    && d.lock == Some(ino) && ino in d.files && d.files[ino].creator in d.ids && !Live(d, d.files[ino].creator)
    && (a in d.phases ==>
          var p := d.phases[a];
          var r := d.files[ino].record;
          && (ino in d.flocks ==> d.flocks[ino] != a)
          && (p.Idle? || p.Inspecting? || p.Opened?)
          && (p.Opened? ==> p.ino == ino)
          && (!d.files[ino].written || !Recoverable(d, r) || ino in d.flocks)
          && (!d.files[ino].written ==> p.Idle?)
          && (!Recoverable(d, r) ==> !p.Opened? && (p.Inspecting? ==> p.record == r && !Shown(p.watch))))
  }

  lemma StuckAsks(d: Disk, w: Watch, r: Record, x: Answer)
    requires Asks(w, x) && Sound(d, r.pid, x) && !Recoverable(d, r) && !Shown(w)
    ensures !Shown(Sees(w, r.token, x))
  {
  }

  lemma StuckIdle(d: Disk, a: Agent, act: Act, d': Disk, ino: Ino)
    requires Stuck(d, a, ino) && a in d.phases && a in d.ids && d.phases[a].Idle? && FromIdle(d, a, act) == Some(d')
    ensures Stuck(d', a, ino)
  {
  }

  lemma StuckInspecting(d: Disk, a: Agent, act: Act, d': Disk, ino: Ino)
    requires Stuck(d, a, ino) && a in d.phases && a in d.ids && d.phases[a].Inspecting?
    requires FromInspecting(d, a, d.phases[a], act) == Some(d')
    ensures Stuck(d', a, ino)
  {
    hide Sound, Sees, Asks;
    StuckDone(d, a, ino);
    if act.Ask? {
      if !Recoverable(d, d.files[ino].record) {
        StuckAsks(d, d.phases[a].watch, d.files[ino].record, act.answer);
      }
    }
  }

  lemma StuckOpened(d: Disk, a: Agent, act: Act, d': Disk, ino: Ino)
    requires Stuck(d, a, ino) && a in d.phases && a in d.ids && d.phases[a].Opened?
    requires FromInspecting(d, a, d.phases[a], act) == Some(d')
    ensures Stuck(d', a, ino)
  {
    StuckDone(d, a, ino);
    hide Done;
  }

  lemma StuckDone(d: Disk, a: Agent, ino: Ino)
    requires Stuck(d, a, ino) && a in d.phases
    ensures Stuck(Done(d, a), a, ino) && Stuck(Closed(d, a).(phases := d.phases - {a}), a, ino)
  {
  }

  lemma StuckStep(d: Disk, a: Agent, act: Act, d': Disk, ino: Ino)
    requires Stuck(d, a, ino) && a in d.ids && Do(d, a, act) == Some(d')
    ensures Stuck(d', a, ino)
  {
    hide Stuck, FromIdle, FromInspecting, FromOwning, FromRecovering, Done, Closed;
    StuckPhase(d, a, ino);
    if a in d.phases {
      StuckDone(d, a, ino);
      if act.Die? {
      } else if d.phases[a].Idle? {
        StuckIdle(d, a, act, d', ino);
      } else if act.Abort? {
      } else if d.phases[a].Inspecting? {
        StuckInspecting(d, a, act, d', ino);
      } else {
        StuckOpened(d, a, act, d', ino);
      }
    }
  }

  lemma StuckPhase(d: Disk, a: Agent, ino: Ino)
    requires Stuck(d, a, ino)
    ensures d.lock == Some(ino)
    ensures a in d.phases ==> d.phases[a].Idle? || d.phases[a].Inspecting? || d.phases[a].Opened?
  {
  }

  lemma {:induction false} StuckAlone(ds: seq<Disk>, a: Agent, ino: Ino, k: nat)
    requires Solo(ds, a) && k < |ds| && Stuck(ds[0], a, ino) && a in ds[0].ids
    ensures Stuck(ds[k], a, ino) && a in ds[k].ids
  {
    hide Stuck, Do;
    if k > 0 {
      StuckAlone(ds, a, ino, k - 1);
      assert By(ds[k - 1], a, ds[k - 1 + 1]);
      var act :| Do(ds[k - 1], a, act) == Some(ds[k]);
      StuckStep(ds[k - 1], a, act, ds[k], ino);
      StepEffects(ds[k - 1], a, act, ds[k]);
    }
  }

  /** An idle process can remove the lock of a dead owner if and only if the record is complete, nobody holds
      the file's flock, and the owner's id is free or its record has a token. */
  lemma RemovableExactly(d: Disk, a: Agent, ino: Ino)
    requires Inv(d) && d.lock == Some(ino) && a in d.phases && d.phases[a].Idle?
    requires ino in d.files && !Live(d, d.files[ino].creator)
    ensures (exists ds :: Solo(ds, a) && ds[0] == d && Last(ds).lock != Some(ino))
       <==> d.files[ino].written && ino !in d.flocks && Recoverable(d, d.files[ino].record)
  {
    hide Solo;
    if d.files[ino].written && ino !in d.flocks && Recoverable(d, d.files[ino].record) {
      var ds := RerunAccepted(d, a, ino, d.files[ino].record);
    } else {
      BeginsStuck(d, a, ino);
      hide Stuck, Inv;
      forall ds | Solo(ds, a) && ds[0] == d ensures Last(ds).lock == Some(ino) {
        StuckAlone(ds, a, ino, |ds| - 1);
        StuckPhase(Last(ds), a, ino);
      }
    }
  }

  lemma BeginsStuck(d: Disk, a: Agent, ino: Ino)
    requires Inv(d) && d.lock == Some(ino) && a in d.phases && d.phases[a].Idle?
    requires ino in d.files && !Live(d, d.files[ino].creator)
    requires !(d.files[ino].written && ino !in d.flocks && Recoverable(d, d.files[ino].record))
    ensures Stuck(d, a, ino) && a in d.ids
  {
    hide FilesInv, IdentityInv;
    PhaseOf(d, a);
    Known(d, a);
    CreatorKnown(d, ino);
  }

  // ---------------------------------------------------------------- a lock without a token

  /** No process has concluded, under its guard, that the owner of the named file is dead. */
  ghost predicate Unjudged(d: Disk)
  {
    forall b :: b in d.phases ==> !Recovering(d.phases[b]) && !(d.phases[b].Watched? && Shown(d.phases[b].watch))
  }

  lemma OnePhase(d: Disk, a: Agent, d': Disk)
    requires Unjudged(d) && a in d'.phases && d'.phases == d.phases[a := d'.phases[a]]
    requires !Recovering(d'.phases[a]) && !(d'.phases[a].Watched? && Shown(d'.phases[a].watch))
    ensures Unjudged(d')
  {
  }

  lemma UnjudgedInspecting(d: Disk, a: Agent, act: Act, d': Disk, ino: Ino)
    requires a in d.phases && PhaseOk(d, a) && Unjudged(d) && d.lock == Some(ino) && ino in d.files
    requires d.files[ino].record.token.None? && InUse(d, d.files[ino].record.pid)
    requires FromInspecting(d, a, d.phases[a], act) == Some(d')
    ensures Unjudged(d')
  {
    hide Unjudged, PhaseOk, Sound, Sees, Asks, InUse, Reads;
    UnjudgedPhase(d, a);
    if d.phases[a].Watched? && act.Ask? {
      WatchedNamed(d, a);
      StuckAsks(d, d.phases[a].watch, d.files[ino].record, act.answer);
    }
    OnePhase(d, a, d');
  }

  lemma UnjudgedPhase(d: Disk, a: Agent)
    requires Unjudged(d) && a in d.phases
    ensures !Recovering(d.phases[a]) && !(d.phases[a].Watched? && Shown(d.phases[a].watch))
  {
  }

  lemma WatchedNamed(d: Disk, a: Agent)
    requires a in d.phases && PhaseOk(d, a) && d.phases[a].Watched?
    ensures d.lock == Some(d.phases[a].ino) && d.phases[a].ino in d.files
    ensures d.files[d.phases[a].ino].record == d.phases[a].record
  {
  }

  lemma UnjudgedDone(d: Disk, a: Agent)
    requires Unjudged(d)
    ensures Unjudged(Done(d, a)) && Unjudged(Closed(d, a).(phases := d.phases - {a}))
  {
  }

  lemma UnjudgedIdle(d: Disk, a: Agent, act: Act, d': Disk)
    requires a in d.phases && a in d.ids && Unjudged(d) && FromIdle(d, a, act) == Some(d')
    ensures Unjudged(d')
  {
    hide Unjudged, Reads;
    OnePhase(d, a, d');
  }

  lemma UnjudgedOwning(d: Disk, a: Agent, act: Act, d': Disk)
    requires a in d.phases && Unjudged(d) && Owning(d.phases[a]) && FromOwning(d, a, d.phases[a], act) == Some(d')
    ensures Unjudged(d')
  {
    hide Unjudged, Done;
    UnjudgedDone(d, a);
    if d' != Done(d, a) {
      OnePhase(d, a, d');
    }
  }

  lemma UnjudgedSpawn(d: Disk, a: Agent, id: Identity)
    requires Unjudged(d)
    ensures Unjudged(At(d, a, Idle).(ids := d.ids[a := id]))
  {
  }

  lemma StepKeepsUnjudged(d: Disk, a: Agent, act: Act, d': Disk, ino: Ino)
    requires Inv(d) && Do(d, a, act) == Some(d') && Unjudged(d) && d.lock == Some(ino) && ino in d.files
    requires d.files[ino].record.token.None? && InUse(d, d.files[ino].record.pid)
    ensures Unjudged(d')
  {
    hide Inv, Unjudged, FreshIdentity, FromIdle, FromOwning, FromInspecting, FromRecovering, Done, Closed, InUse;
    UnjudgedDone(d, a);
    if act.Spawn? {
      UnjudgedSpawn(d, a, act.id);
    } else {
      PhaseOf(d, a);
      UnjudgedPhase(d, a);
      if act.Die? {
      } else if d.phases[a].Idle? {
        UnjudgedIdle(d, a, act, d');
      } else if Owning(d.phases[a]) {
        UnjudgedOwning(d, a, act, d');
      } else if d.phases[a].Unlinked? || d.phases[a].Archived? || act.Abort? {
      } else {
        UnjudgedInspecting(d, a, act, d', ino);
      }
    }
  }

  /** While some live process has the id of a dead owner whose record has no token, no process removes the
      owner's lock, unless it had concluded before that the owner is dead. */
  lemma {:induction false} TokenlessLockIsStuck(ds: seq<Disk>, j: nat, k: nat, ino: Ino)
    requires Run(ds) && j <= k < |ds| && ds[j].lock == Some(ino) && ino in ds[j].files && Unjudged(ds[j])
    requires ds[j].files[ino].record.token.None? && !Live(ds[j], ds[j].files[ino].creator)
    requires forall i :: j <= i < k ==> InUse(ds[i], ds[j].files[ino].record.pid)
    ensures ds[k].lock == Some(ino) && ino in ds[k].files && ds[k].files[ino].record == ds[j].files[ino].record
    ensures ds[k].files[ino].creator == ds[j].files[ino].creator
    ensures ds[k].files[ino].creator in ds[k].ids && !Live(ds[k], ds[k].files[ino].creator)
    ensures Unjudged(ds[k])
    decreases k
  {
    hide Inv, Do, Unjudged, InUse;
    RunInv(ds, j);
    CreatorKnown(ds[j], ino);
    if j < k {
      TokenlessLockIsStuck(ds, j, k - 1, ino);
      RunInv(ds, k - 1);
      assert Next(ds[k - 1], ds[k - 1 + 1]);
      var a, act :| Do(ds[k - 1], a, act) == Some(ds[k]);
      StepKeepsUnjudged(ds[k - 1], a, act, ds[k], ino);
      StepKeepsTokenless(ds[k - 1], a, act, ds[k], ino);
    }
  }

  lemma StepKeepsTokenless(d: Disk, a: Agent, act: Act, d': Disk, ino: Ino)
    requires Inv(d) && Do(d, a, act) == Some(d') && d.lock == Some(ino) && ino in d.files && Unjudged(d)
    requires d.files[ino].creator in d.ids && !Live(d, d.files[ino].creator)
    ensures d'.lock == Some(ino) && ino in d'.files && d'.files[ino].record == d.files[ino].record
    ensures d'.files[ino].creator == d.files[ino].creator
    ensures d.files[ino].creator in d'.ids && !Live(d', d.files[ino].creator)
  {
    StepEffects(d, a, act, d');
    NewFile(d);
    if a in d.phases {
      assert PhaseOk(d, a);
      UnjudgedPhase(d, a);
    }
    hide Inv, Do, Unjudged;
  }

  // ---------------------------------------------------------------- runs that end there

  const OWNER := Identity(7, "boot-1")
  const REUSER := Identity(7, "boot-2")
  const RECORD := Record(7, None, 0)
  const START := Disk(None, map[], map[], map[], map[], map[], 0, 0)
  const BORN := START.(ids := map[0 := OWNER], phases := map[0 := Idle])
  const MADE := BORN.(
    lock := Some(0), files := map[0 := LockFile(0, RECORD, false)], phases := map[0 := Created(0)], nextIno := 1,
        nextNonce := 1)
  const LEFT := MADE.(phases := map[])

  lemma FirstSteps()
    ensures Run([START] + [BORN] + [MADE])
  {
    hide Run;
    StartRun();
    assert At(START, 0, Idle).(ids := START.ids[0 := OWNER]) == BORN;
    Steps([START], BORN, 0, Spawn(OWNER));
    assert At(BORN, 0, Created(0)).phases == MADE.phases && BORN.files[0 := LockFile(0, RECORD, false)] == MADE.files;
    IdleDo(BORN, 0, Create(false));
    Steps([START] + [BORN], MADE, 0, Create(false));
  }

  lemma IdleDo(d: Disk, a: Agent, act: Act)
    requires a in d.phases && a in d.ids && d.phases[a].Idle? && !act.Spawn? && !act.Die?
    ensures Do(d, a, act) == FromIdle(d, a, act)
  {
    hide FromIdle;
  }

  lemma Steps(ds: seq<Disk>, d: Disk, a: Agent, act: Act)
    requires Run(ds) && Do(Last(ds), a, act) == Some(d)
    ensures Run(ds + [d])
  {
    hide Do;
    var longer := ds + [d];
    forall k | 0 <= k < |longer| - 1 ensures Next(longer[k], longer[k + 1]) {
      assert k + 1 < |ds| ==> Next(ds[k], ds[k + 1]);
    }
  }

  /** A crash right after the lock file is created leaves a lock that no later process removes. */
  lemma UnwrittenRun() returns (ds: seq<Disk>)
    ensures Run(ds) && Last(ds).lock == Some(0) && 0 in Last(ds).files && !Last(ds).files[0].written
    ensures !Live(Last(ds), Last(ds).files[0].creator)
  {
    hide Run;
    FirstSteps();
    assert Closed(MADE, 0).flocks == map[] && MADE.phases - {0} == map[];
    Steps([START] + [BORN] + [MADE], LEFT, 0, Die);
    ds := [START] + [BORN] + [MADE] + [LEFT];
  }

  lemma StartRun()
    ensures Run([START])
  {
  }

  const FLOCKED := MADE.(phases := map[0 := Flocked(0)], flocks := map[0 := 0])
  const WROTE := FLOCKED.(phases := map[0 := Wrote(0)], files := map[0 := LockFile(0, RECORD, true)])
  const HOLDS := WROTE.(phases := map[0 := Holding(0)])

  lemma HeldRun() returns (ds: seq<Disk>)
    ensures Run(ds) && Last(ds) == HOLDS
  {
    hide Run;
    FirstSteps();
    var ds1 := [START] + [BORN] + [MADE];
    assert MADE.flocks[0 := 0] == FLOCKED.flocks && MADE.phases[0 := Flocked(0)] == FLOCKED.phases;
    Steps(ds1, FLOCKED, 0, Flock);
    assert WROTE.files == FLOCKED.files[0 := FLOCKED.files[0].(written := true)] &&
        FLOCKED.phases[0 := Wrote(0)] == WROTE.phases;
    Steps(ds1 + [FLOCKED], WROTE, 0, Write);
    assert WROTE.phases[0 := Holding(0)] == HOLDS.phases;
    Steps(ds1 + [FLOCKED] + [WROTE], HOLDS, 0, Verify);
    ds := ds1 + [FLOCKED] + [WROTE] + [HOLDS];
  }

  /** An owner whose start token is unknown holds the lock and dies; a new process gets its id. */
  lemma TokenlessRun() returns (ds: seq<Disk>)
    ensures Run(ds) && Orphan(Last(ds), 0, RECORD) && 0 !in Last(ds).flocks
    ensures !Recoverable(Last(ds), RECORD) && Unjudged(Last(ds))
    ensures 1 in Last(ds).phases && Last(ds).phases[1].Idle?
  {
    hide Run;
    var died := HOLDS.(phases := map[], flocks := map[]);
    var reused := died.(phases := map[1 := Idle], ids := map[0 := OWNER, 1 := REUSER]);
    var ds1 := HeldRun();
    DieDoes(HOLDS, died);
    Steps(ds1, died, 0, Die);
    Steps(ds1 + [died], reused, 1, Spawn(REUSER));
    ds := ds1 + [died] + [reused];
    assert 1 in reused.phases && reused.ids[1].pid == 7;
  }

  lemma DieDoes(d: Disk, d': Disk)
    requires d.phases == map[0 := Holding(0)] && d.flocks == map[0 := 0]
    requires 0 in d.ids && d' == d.(phases := map[], flocks := map[])
    ensures Do(d, 0, Die) == Some(d')
  {
    assert Closed(d, 0).flocks == map[] && d.phases - {0} == map[];
  }
}
