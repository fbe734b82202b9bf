/** One process using the writer lock, while all the others run between any two of its steps. */
module LockProcess {
  import opened Basics
  import opened WriterLock
  import opened LockSafety

  // ---------------------------------------------------------------- observing the recorded owner

  /** The watch after a sequence of answers; None when an answer is not one that is asked for. */
  function Watching(w: Watch, recorded: Option<string>, xs: seq<Answer>): Option<Watch>
    decreases |xs|
  {
    if xs == [] then Some(w) else if Asks(w, xs[0]) then Watching(Sees(w, recorded, xs[0]), recorded, xs[1..]) else None
  }

  /** `_owner_observation` concludes that the owner is dead exactly on two dead answers, and that its id was
      reused exactly on an id twice alive with one and the same token, other than a recorded one. */
  lemma ObservationExactly(recorded: Option<string>, xs: seq<Answer>, t: string)
    ensures Watching(Unseen, recorded, xs) == Some(Seen(OwnerDead)) <==> xs == [Life(Dead), Life(Dead)]
    ensures Watching(Unseen, recorded, xs) == Some(Seen(PidReused(t)))
       <==> && xs == [Life(Alive), Token(Some(t)), Life(Alive), Token(Some(t))]
            && t != "" && IsToken(recorded) && recorded != Some(t)
  {
    if |xs| >= 1 && Asks(Unseen, xs[0]) {
      var w1, ys := Sees(Unseen, recorded, xs[0]), xs[1..];
      assert xs == [xs[0]] + ys && Watching(Unseen, recorded, xs) == Watching(w1, recorded, ys);
      if |ys| >= 1 && Asks(w1, ys[0]) {
        var w2, zs := Sees(w1, recorded, ys[0]), ys[1..];
        assert ys == [ys[0]] + zs && Watching(w1, recorded, ys) == Watching(w2, recorded, zs);
        TwoMore(w2, recorded, zs, t);
      }
    }
  }

  lemma TwoMore(w: Watch, recorded: Option<string>, xs: seq<Answer>, t: string)
    requires w.Seen? || w.WithToken?
    ensures w.Seen? ==> (Watching(w, recorded, xs).Some? <==> xs == [])
    ensures w.WithToken? ==> Watching(w, recorded, xs) != Some(Seen(OwnerDead))
    ensures w.WithToken? ==> (Watching(w, recorded, xs) == Some(Seen(PidReused(t)))
       <==> && xs == [Life(Alive), Token(Some(t))]
            && w.token1 == Some(t) && t != "" && IsToken(recorded) && recorded != Some(t))
  {
    if |xs| >= 1 && Asks(w, xs[0]) {
      var w1, ys := Sees(w, recorded, xs[0]), xs[1..];
      assert xs == [xs[0]] + ys && Watching(w, recorded, xs) == Watching(w1, recorded, ys);
      if |ys| >= 1 && Asks(w1, ys[0]) {
        assert ys == [ys[0]] + ys[1..];
        assert Watching(w1, recorded, ys) == Watching(Sees(w1, recorded, ys[0]), recorded, ys[1..]);
      }
    }
  }

  lemma {:induction false} DeadStaysDead(ds: seq<Disk>, j: nat, k: nat, a: Agent)
    requires Run(ds) && j <= k < |ds| && a in ds[j].ids && !Live(ds[j], a)
    ensures a in ds[k].ids && !Live(ds[k], a)
    decreases k
  {
    hide Do;
    if j < k {
      DeadStaysDead(ds, j, k - 1, a);
      assert Next(ds[k - 1], ds[k - 1 + 1]);
      var b, act :| Do(ds[k - 1], b, act) == Some(ds[k]);
      StepEffects(ds[k - 1], b, act, ds[k]);
    }
  }

  /** A conclusion reached from sound answers, at whatever moments of a run they were given, is right then and
      ever after: the creator of the watched file is dead. */
  lemma VerdictIsSound(ds: seq<Disk>, j: nat, k: nat, a: Agent)
    requires Run(ds) && j <= k < |ds| && a in ds[j].phases && ds[j].phases[a].Watched?
    requires ds[j].phases[a].watch.Seen? && ds[j].phases[a].watch.seen != Refused
    ensures ds[j].phases[a].ino in ds[j].files && ds[j].files[ds[j].phases[a].ino].record == ds[j].phases[a].record
    ensures !Live(ds[k], ds[j].files[ds[j].phases[a].ino].creator)
  {
    hide Run, Inv;
    RunInv(ds, j);
    PhaseOf(ds[j], a);
    CreatorKnown(ds[j], ds[j].phases[a].ino);
    DeadStaysDead(ds, j, k, ds[j].files[ds[j].phases[a].ino].creator);
  }

  /** What probes answer when nothing disturbs them. */
  ghost predicate Truth(d: Disk, pid: int, x: Answer)
  {
    match x
    case Life(p) => p == if InUse(d, pid) then Alive else Dead
    case Token(t) => Sound(d, pid, x) && (t.Some? <==> InUse(d, pid))
  }

  // ---------------------------------------------------------------- a process

  /** Files keep their creator and their record. */
  ghost predicate SameFiles(d: Disk, d': Disk)
  {
    forall i :: i in d.files ==>
        i in d'.files && d'.files[i].creator == d.files[i].creator && d'.files[i].record == d.files[i].record
  }

  /** `act` is the next move of a recovery in phase `p`. */
  predicate Fits(p: Phase, act: Act)
  {
    match p
    case Inspecting(_, w) => act.Open? && w.Seen? && w.seen != Refused
    case Opened(_, _, _) => act.Guard?
    case Guarded(_, _, _) => act.Snapshot?
    case Watched(_, _, o, w) => act.Confirm? && w == Seen(o) && o != Refused
    case Confirmed(_, _) => act.CheckLink?
    case Ready(_, _) => act.Link?
    case Linked(_, _) => act.VerifyLink?
    case Verified(_, _) => act.Remove?
    case _ => false
  }

  predicate Follows(p: Phase, q: Phase)
  {
    match p
    case Inspecting(r, w) => w.Seen? && q.Opened? && q.record == r && q.decided == w.seen
    case Opened(i, r, o) => q == Guarded(i, r, o)
    case Guarded(i, r, o) => q == Watched(i, r, o, Unseen)
    case Watched(i, r, _, _) => q == Confirmed(i, r)
    case Confirmed(i, r) => q == Ready(i, r)
    case Ready(i, r) => q == Linked(i, r)
    case Linked(i, r) => q == Verified(i, r)
    case Verified(i, r) => q == Archived(i, r)
    case _ => false
  }

  class Writer {
    const me: Agent
    var disk: Disk
    var held: Option<Ino>
    var released: bool
    /** Nothing disturbs the process: no other process moves, no fault strikes, and probes answer. */
    var calm: bool
    ghost var trace: seq<Disk>

    ghost predicate Good()
      reads this
    {
      trace != [] && Run(trace) && trace[|trace| - 1] == disk && me in disk.phases && me in disk.ids
    }

    /** The process holds the lock. */
    ghost predicate Holds()
      reads this
    {
      Good() && !released && held.Some? && disk.phases[me] == Holding(held.value)
    }

    lemma GoodInv()
      requires Good()
      ensures Inv(disk) && PhaseOk(disk, me)
    {
      hide Run, Inv;
      RunInv(trace, |trace| - 1);
      PhaseOf(disk, me);
    }

    /** A new process, with no descriptor open. */
    constructor (a: Agent, d: Disk, quiet: bool, ghost past: seq<Disk>)
      requires past != [] && Run(past) && past[|past| - 1] == d && a in d.phases && a in d.ids && d.phases[a].Idle?
      ensures Good() && me == a && disk == d && trace == past && held.None?
      ensures !released && disk.phases[me].Idle? && calm == quiet
    {
      me, disk, trace, held, released, calm := a, d, past, None, false, quiet;
    }

    /** An operating system fault. */
    method Fault() returns (strikes: bool)
      ensures calm ==> !strikes
    {
      strikes := *;
      strikes := strikes && !calm;
    }

    ghost method Record(d: Disk)
      requires trace != [] && Run(trace) && Next(trace[|trace| - 1], d)
      modifies this`trace
      ensures trace == old(trace) + [d] && Run(trace)
    {
      hide Init, Next;
      var longer := trace + [d];
      forall k | 0 <= k < |longer| - 1 ensures Next(longer[k], longer[k + 1]) {
        assert k + 1 < |trace| ==> Next(trace[k], trace[k + 1]);
      }
      trace := longer;
    }

    /** One step of this process. */
    method Step(act: Act)
      requires Good() && !act.Spawn? && !act.Die? && Do(disk, me, act).Some?
      modifies this`disk, this`trace
      ensures Good() && old(trace) <= trace && Some(disk) == Do(old(disk), me, act)
    {
      hide Run, FromIdle, FromOwning, FromInspecting, FromRecovering;
      var d := Do(disk, me, act).value;
      assert Next(disk, d);
      StepEffects(disk, me, act, d);
      StaysAlive(disk, me, act, d);
      hide Do, Next;
      Record(d);
      disk := d;
    }

    /** Any number of steps of other processes: acquisitions, releases, recoveries, births and deaths. */
    method Others()
      requires Good()
      modifies this`disk, this`trace
      ensures Good() && old(trace) <= trace && disk.phases[me] == old(disk.phases[me]) && SameFiles(old(disk), disk)
      ensures calm ==> disk == old(disk)
    {
      hide Run, Do, Inv, PhaseOk;
      var n: int := *;
      for k := 0 to if n < 0 || calm then 0 else n
        invariant Good() && old(trace) <= trace && disk.phases[me] == old(disk.phases[me]) && SameFiles(old(disk), disk)
        invariant calm ==> disk == old(disk)
      {
        var other: Agent, act: Act := *, *;
        var next := Do(disk, other, act);
        if other != me && next.Some? {
          assert Next(disk, next.value);
          StepEffects(disk, other, act, next.value);
          OthersLeaveMe(disk, other, act, next.value, me);
          GoodInv();
          FilesStay(disk, other, act, next.value);
          Record(next.value);
          disk := next.value;
        }
      }
    }

    /** `WriterLock.acquire`: undisturbed, it succeeds exactly when the lock path was free. */
    method Acquire() returns (ok: bool)
      requires Good() && disk.phases[me].Idle?
      modifies this`disk, this`trace, this`held, this`released
      ensures Good() && old(trace) <= trace
      ensures ok ==> Holds() && disk.lock == held && held.value !in old(disk.files)
                     && forall b :: b in disk.phases && disk.phases[b].Holding? ==> b == me
      ensures !ok ==> disk.phases[me].Idle?
      ensures calm ==> (ok <==> old(disk.lock).None?)
    {
      hide Run, Inv, Do, PhaseOk;
      held, released := None, false;
      var known: bool := *;
      if disk.lock.Some? {
        return false;
      }
      GoodInv();
      NewFile(disk);
      NewFlock(disk);
      IdleDo(disk, me, Create(known));
      var ino := disk.nextIno;
      Step(Create(known));
      ok := Publish();
      if ok {
        held := Some(ino);
        GoodInv();
        OwnedFile(disk, me);
        forall b | b in disk.phases && disk.phases[b].Holding? ensures b == me {
          OneLive(disk, me, b);
        }
      }
    }

    /** Flock, write and verify the created file; a fault, or a recovery that holds the flock of the new file
        for a moment, makes it clean up. */
    method Publish() returns (ok: bool)
      requires Good() && disk.phases[me].Created?
      modifies this`disk, this`trace
      ensures Good() && old(trace) <= trace
      ensures disk.phases[me] == if ok then Holding(old(disk.phases[me].ino)) else Idle
      ensures calm && old(disk.phases[me].ino !in disk.flocks) ==> ok
    {
      hide Run, Inv, Do, PhaseOk;
      var ino := disk.phases[me].ino;
      for step := 0 to 3
        invariant Good() && old(trace) <= trace
        invariant disk.phases[me] == (if step == 0 then Created(ino) else if step == 1 then Flocked(ino)
            else if step == 2 then Wrote(ino) else Holding(ino))
        invariant calm && step == 0 ==> disk == old(disk)
      {
        Others();
        GoodInv();
        OwnedFile(disk, me);
        var fault := Fault();
        var act := if fault then Abort else if step == 0 then Flock else if step == 1 then Write else Verify;
        OwningDoes(disk, me, act);
        Step(act);
        if disk.phases[me].Checked? {
          Others();
          var removed := RemoveChecked();
          return false;
        }
      }
      ok := true;
    }

    /** Unlink the checked file, synchronize the directory and close the descriptor. When unlinking fails the
        descriptor is only closed; when synchronizing fails the file is gone all the same. */
    method RemoveChecked() returns (removed: bool)
      requires Good() && disk.phases[me].Checked?
      modifies this`disk, this`trace
      ensures Good() && old(trace) <= trace && disk.phases[me].Idle?
      ensures calm ==> removed && disk.lock.None?
    {
      hide Run, Inv, Do, PhaseOk;
      var fault := Fault();
      OwningDoes(disk, me, if fault then Abort else Unlink);
      Step(if fault then Abort else Unlink);
      removed := false;
      if !fault {
        var unsynced := Fault();
        removed := !unsynced;
        Others();
        CloseDoes(disk, me);
        Step(Close);
      }
    }

    /** `WriterLock.release`: releasing twice is a no-op, and while the lock is held its checks cannot fail. */
    method Release() returns (ok: bool)
      requires Good() && (released || Holds() || (held.None? && disk.phases[me].Idle?))
      modifies this`disk, this`trace, this`held, this`released
      ensures Good() && old(trace) <= trace
      ensures old(released) ==> ok && disk == old(disk) && released
      ensures !old(released) ==> disk.phases[me].Idle? && (ok ==> old(held.Some?) && released)
      ensures held.None? || old(released)
      ensures calm && !old(released) ==> (ok <==> old(held).Some?) && (ok ==> disk.lock.None?)
    {
      hide Run, Inv, Do, PhaseOk;
      if released {
        return true;
      }
      if held.None? {
        return false;
      }
      Others();
      GoodInv();
      OwnedFile(disk, me);
      OwningDoes(disk, me, CheckRelease);
      Step(CheckRelease);
      held := None;
      Others();
      released := RemoveChecked();
      ok := released;
    }

    // ---------------------------------------------------------------- recovery

    /** The probe that the watch asks for next. */
    method ProbeOwner(w: Watch, pid: int) returns (x: Answer)
      requires !w.Seen?
      ensures Asks(w, x) && Sound(disk, pid, x) && (calm ==> Truth(disk, pid, x))
    {
      var used := InUse(disk, pid);
      var known: bool := *;
      if w.OnceAlive? || w.TwiceAlive? {
        x := Token(None);
        if used && (known || calm) {
          var b :| b in disk.phases && b in disk.ids && disk.ids[b].pid == pid;
          assert disk.ids[b] == Identity(pid, disk.ids[b].token);
          x := Token(Some(disk.ids[b].token));
        }
      } else {
        x := Life(if !known && !calm then Unknown else if used then Alive else Dead);
      }
    }

    /** Let the others run, then ask the next question about the recorded owner. */
    method AskNext() returns (x: Answer)
      requires Good() && (disk.phases[me].Inspecting? || disk.phases[me].Watched?) && !disk.phases[me].watch.Seen?
      modifies this`disk, this`trace
      ensures Good() && old(trace) <= trace && Asks(old(disk.phases[me].watch), x)
      ensures var p := old(disk.phases[me]); disk.phases[me] == Rewatch(p, Sees(p.watch, p.record.token, x))
      ensures calm ==>
        disk == At(old(disk), me, disk.phases[me]) && Truth(old(disk), old(disk.phases[me].record.pid), x)
    {
      hide Run, Do, Sees, Asks, Sound, Truth;
      Others();
      x := ProbeOwner(disk.phases[me].watch, disk.phases[me].record.pid);
      AskDoes(disk, me, x);
      Step(Ask(x));
    }

    /** `_owner_observation`: undisturbed, it concludes what the process table says. */
    method Observe() returns (seen: Observation)
      requires Good() && (disk.phases[me].Inspecting? || disk.phases[me].Watched?) && disk.phases[me].watch.Unseen?
      modifies this`disk, this`trace
      ensures Good() && old(trace) <= trace && disk.phases[me] == Rewatch(old(disk.phases[me]), Seen(seen))
      ensures calm ==> disk == At(old(disk), me, Rewatch(old(disk.phases[me]), Seen(seen)))
      ensures calm ==> Finds(old(disk), old(disk.phases[me].record), seen)
    {
      hide Run, Truth, Finds, Inv, PhaseOk, Do, SameFiles, IsToken, At, InUse;
      AtFacts(disk, me);
      ghost var d, r := disk, disk.phases[me].record;
      var x1 := AskNext();
      if disk.phases[me].watch.Seen? {
        if calm { TruthIsKnown(d, r.pid, x1); }
        return Refused;
      }
      ghost var d1 := disk;
      var x2 := AskNext();
      if calm {
        SameTruth(d, d1, r.pid, x2);
        FirstTwo(d, r, x1, x2);
        AtAt(d, me, d1.phases[me], disk.phases[me]);
      }
      if disk.phases[me].watch.Seen? {
        return disk.phases[me].watch.seen;
      }
      ghost var d2 := disk;
      if calm { SameTruth(d2, d1, r.pid, x2); SameUse(d, d2, r.pid); }
      seen := ObserveAlive();
      if calm {
        SameFinds(d, d2, r, seen);
        AtAt(d, me, d2.phases[me], disk.phases[me]);
      }
    }

    /** The second half: the id was alive once. */
    method ObserveAlive() returns (seen: Observation)
      requires Good() && (disk.phases[me].Inspecting? || disk.phases[me].Watched?) && disk.phases[me].watch.WithToken?
      requires calm ==>
        var pid := disk.phases[me].record.pid; InUse(disk, pid) && Truth(disk, pid, Token(disk.phases[me].watch.token1))
      modifies this`disk, this`trace
      ensures Good() && old(trace) <= trace && disk.phases[me] == Rewatch(old(disk.phases[me]), Seen(seen))
      ensures calm ==> disk == At(old(disk), me, Rewatch(old(disk.phases[me]), Seen(seen)))
      ensures calm ==> Finds(old(disk), old(disk.phases[me].record), seen)
    {
      hide Run, Truth, Finds, Inv, PhaseOk, Do, SameFiles, IsToken, InUse, IdentityInv;
      GoodInv();
      IdentityOf(disk);
      ghost var d, r, t := disk, disk.phases[me].record, disk.phases[me].watch.token1;
      var x3 := AskNext();
      if calm { ThirdAlive(d, r.pid, x3); }
      if disk.phases[me].watch.Seen? {
        return Refused;
      }
      ghost var d3 := disk;
      var x4 := AskNext();
      if calm { SameTruth(d, d3, r.pid, x4); LastTwo(d, r, t, x4); }
      seen := disk.phases[me].watch.seen;
    }

    /** Let the others run, then make the next move of a recovery, unless a fault stops it. */
    method Advance(act: Act) returns (going: bool)
      requires Good() && Fits(disk.phases[me], act)
      modifies this`disk, this`trace
      ensures Good() && old(trace) <= trace
      ensures if going then Follows(old(disk.phases[me]), disk.phases[me]) else disk.phases[me].Idle?
      ensures calm ==> Some(disk) == Do(old(disk), me, act)
    {
      hide Run, Do;
      Others();
      var fault := Fault();
      var chosen := if fault then Abort else act;
      RecoveryDoes(disk, me, chosen);
      Step(chosen);
      going := !disk.phases[me].Idle?;
    }

    /** Inspect the lock and observe its owner; the decision must be the reviewed one. */
    method InspectOwner(expected: Record, decision: Observation) returns (ok: bool)
      requires Good() && disk.phases[me].Idle?
      modifies this`disk, this`trace
      ensures Good() && old(trace) <= trace
      ensures disk.phases[me] == if ok then Inspecting(expected, Seen(decision)) else Idle
      ensures ok ==> decision != Refused
      ensures calm ==>
        (ok <==> && old(disk.lock).Some? && Reads(old(disk), old(disk.lock).value, expected)
                 && Concludes(old(disk), expected, decision))
      ensures calm ==> disk == if ok then At(old(disk), me, Inspecting(expected, Seen(decision))) else old(disk)
    {
      hide Run, Inv, Do, PhaseOk, Reads;
      if disk.lock.None? || !Reads(disk, disk.lock.value, expected) {
        return false;
      }
      InspectDoes(disk, me, expected);
      GoodInv();
      ghost var d := disk;
      Step(Inspect);
      ghost var d1 := disk;
      var seen := Observe();
      if calm {
        SameFinds(d, d1, expected, seen);
        Finding(d, expected, seen, decision);
      }
      ok := seen == decision && seen != Refused;
      if !ok {
        if calm {
          UnchangedDone(d, me, Inspecting(expected, Seen(seen)));
        }
        RecoveryDoes(disk, me, Abort);
        Step(Abort);
      }
    }

    /** Open the named file and take the kernel guard on it. */
    method TakeGuard(expected: Record, decision: Observation) returns (ok: bool)
      requires Good() && disk.phases[me] == Inspecting(expected, Seen(decision)) && decision != Refused
      modifies this`disk, this`trace
      ensures Good() && old(trace) <= trace
      ensures if ok then disk.phases[me].Guarded? && disk.phases[me] == Guarded(disk.phases[me].ino, expected, decision)
              else disk.phases[me].Idle?
      ensures calm && old(disk.lock).Some? && Reads(old(disk), old(disk.lock).value, expected) ==>
        disk == AfterGuard(old(disk), me, old(disk.lock).value, expected, decision) &&
            (ok <==> old(disk.lock).value !in old(disk.flocks))
    {
      hide Run, Inv, Do, Reads, PhaseOk, SameFiles, Done, Recovering, Owning, At, AfterGuard;
      GoodInv();
      if disk.lock.Some? && Reads(disk, disk.lock.value, expected) {
        GuardPath(disk, me, disk.lock.value, expected, decision);
      }
      ok := Advance(Open);
      if ok { ok := Advance(Guard); }
    }

    /** Read the record again under the guard and observe the owner again: record and decision must stay. */
    method Reinspect(expected: Record, decision: Observation) returns (ok: bool)
      requires Good() && disk.phases[me].Guarded? && decision != Refused
      requires disk.phases[me] == Guarded(disk.phases[me].ino, expected, decision)
      modifies this`disk, this`trace
      ensures Good() && old(trace) <= trace
      ensures disk.phases[me] == if ok then Confirmed(old(disk.phases[me].ino), expected) else Idle
      ensures calm ==>
        (Reads(old(disk), old(disk.phases[me].ino), expected) && Concludes(old(disk), expected, decision) ==> ok)
      ensures calm && ok ==> disk == At(old(disk), me, Confirmed(old(disk.phases[me].ino), expected))
    {
      hide Run, Inv, Do, PhaseOk, Concludes, Reads, SameFiles, Done, Recovering, Owning, At;
      ghost var d := disk;
      AtFacts(d, me);
      SnapshotDoes(d, me);
      ok := Advance(Snapshot);
      if ok {
        if calm && Concludes(d, expected, decision) {
          SameConclusion(d, disk, expected, decision);
        }
        ghost var p := disk.phases[me];
        ok := Reobserve(expected, decision);
        if calm && ok {
          AtAt(d, me, p, disk.phases[me]);
        }
      }
    }

    /** Observe the owner again under the guard: the decision must stay. */
    method Reobserve(expected: Record, decision: Observation) returns (ok: bool)
      requires Good() && disk.phases[me].Watched? && decision != Refused
      requires disk.phases[me] == Watched(disk.phases[me].ino, expected, decision, Unseen)
      modifies this`disk, this`trace
      ensures Good() && old(trace) <= trace
      ensures disk.phases[me] == if ok then Confirmed(old(disk.phases[me].ino), expected) else Idle
      ensures calm ==> (ok <==> Concludes(old(disk), expected, decision))
      ensures calm && ok ==> disk == At(old(disk), me, Confirmed(old(disk.phases[me].ino), expected))
    {
      hide Run, Inv, Do, PhaseOk, Concludes, Finds, SameFiles, Recovering, Owning, At;
      ghost var d := disk;
      AtFacts(d, me);
      var seen := Observe();
      if calm {
        Finding(d, expected, seen, decision);
        AtAt(d, me, disk.phases[me], Confirmed(d.phases[me].ino, expected));
      }
      ok := seen == decision;
      if ok {
        RecoveryDoes(disk, me, Confirm);
        ok := Advance(Confirm);
      } else {
        RecoveryDoes(disk, me, Abort);
        Step(Abort);
      }
    }

    /** Link the tombstone, verify both names, and unlink the lock path. */
    method ArchiveOrphan() returns (ok: bool)
      requires Good() && disk.phases[me].Confirmed?
      modifies this`disk, this`trace
      ensures Good() && old(trace) <= trace
      ensures disk.phases[me] == if ok then Archived(old(disk.phases[me].ino), old(disk.phases[me].record)) else Idle
      ensures calm ==> ok && disk == Archival(old(disk), me, old(disk.phases[me].ino), old(disk.phases[me].record))
    {
      hide Run, Inv, Do, PhaseOk, SameFiles, Done, Recovering, Owning, At, Archival, Tombed;
      GoodInv();
      var ino, record := disk.phases[me].ino, disk.phases[me].record;
      ArchivalMine(disk, me, ino, record);
      ArchivePath(disk, me, ino, record);
      ok := LinkTombstone();
      if ok { ok := Advance(VerifyLink); }
      if ok { ok := Advance(Remove); }
    }

    /** Check the hard links of the confirmed file and link its tombstone. */
    method LinkTombstone() returns (ok: bool)
      requires Good() && disk.phases[me].Confirmed?
      modifies this`disk, this`trace
      ensures Good() && old(trace) <= trace
      ensures disk.phases[me] == if ok then Linked(old(disk.phases[me].ino), old(disk.phases[me].record)) else Idle
      ensures calm ==>
        ok && disk == Tombed(old(disk), me, Linked(old(disk.phases[me].ino), old(disk.phases[me].record)))
    {
      hide Run, Inv, Do, PhaseOk, SameFiles, Done, Recovering, Owning, At, Archival, Tombed;
      GoodInv();
      var ino, record := disk.phases[me].ino, disk.phases[me].record;
      AtMine(disk, me);
      ArchivalMine(disk, me, ino, record);
      ArchivePath(disk, me, ino, record);
      ok := Advance(CheckLink);
      if ok { ok := Advance(Link); }
    }

    /** Everything up to the confirmed orphan under the guard. */
    method ConfirmOrphan(expected: Record, decision: Observation) returns (ok: bool)
      requires Good() && disk.phases[me].Idle?
      modifies this`disk, this`trace
      ensures Good() && old(trace) <= trace
      ensures if ok then disk.phases[me].Confirmed? && disk.phases[me].record == expected else disk.phases[me].Idle?
      ensures calm ==>
        (ok <==> && old(disk.lock).Some? && Reads(old(disk), old(disk.lock).value, expected)
                 && old(disk.lock).value !in old(disk.flocks) && Concludes(old(disk), expected, decision))
      ensures calm && !ok ==> disk == old(disk)
    {
      hide Run, Inv, Do, PhaseOk, Concludes, Reads, SameFiles, Done, Recovering, Owning, At, AfterGuard;
      ghost var d := disk;
      ok := InspectOwner(expected, decision);
      if !ok {
        return;
      }
      if calm {
        AtFacts(d, me);
        BeforeGuard(d, disk, me, d.lock.value, expected, decision);
      }
      ok := TakeGuard(expected, decision);
      if !ok {
        return;
      }
      if calm {
        SameConclusion(d, disk, expected, decision);
      }
      ok := Reinspect(expected, decision);
    }

    /** `recover_writer_lock`: success means that exactly the reviewed record, of a dead owner, left the lock
        path and that its file is archived under its tombstone. Undisturbed, it succeeds exactly when the lock
        path names that record, nobody has its flock, and the process table gives the reviewed decision. */
    method Recover(expected: Record, decision: Observation) returns (ok: bool, ghost archived: Ino)
      requires Good() && disk.phases[me].Idle?
      modifies this`disk, this`trace
      ensures Good() && old(trace) <= trace && disk.phases[me].Idle?
      ensures ok ==> Kept(disk, archived, expected) && disk.lock != Some(archived)
                     && expected in disk.tombs && disk.tombs[expected] == archived && Links(disk, archived) == 1
      ensures calm ==>
        (ok <==> && old(disk.lock).Some? && Reads(old(disk), old(disk.lock).value, expected)
                 && old(disk.lock).value !in old(disk.flocks) && Concludes(old(disk), expected, decision))
      ensures calm && !ok ==> disk == old(disk)
    {
      hide Run, Inv, Do, PhaseOk, Links, Kept, Orphan, Concludes, Reads, SameFiles, Recovering, Owning, Archival;
      archived := 0;
      ok := ConfirmOrphan(expected, decision);
      if !ok {
        return;
      }
      GoodInv();
      ConfirmedIsOrphan(disk, me);
      ghost var k := |trace| - 1;
      var ino := disk.phases[me].ino;
      ArchivalUnlocks(disk, me, ino, expected);
      ok := ArchiveOrphan();
      if !ok {
        return;
      }
      Others();
      archived := ino;
      OrphanStaysNamed(trace, k, |trace| - 1, ino, expected);
      var unsynced := Fault();
      GoodInv();
      ArchivedLinks(disk, ino, expected);
      ok := !unsynced && disk.lock != Some(ino) && expected in disk.tombs && disk.tombs[expected] == ino &&
          Links(disk, ino) == 1;
      CloseDoes(disk, me);
      ClosingKeeps(disk, me, ino, expected);
      Step(Close);
    }
  }

  // ---------------------------------------------------------------- steps a process can rely on

  lemma StaysAlive(d: Disk, a: Agent, act: Act, d': Disk)
    requires Do(d, a, act) == Some(d') && !act.Spawn? && !act.Die?
    ensures a in d'.phases && a in d'.ids
  {
    OneAgent(d, a, act, d');
  }

  lemma OneAgent(d: Disk, a: Agent, act: Act, d': Disk)
    requires Do(d, a, act) == Some(d')
    ensures forall b :: b != a ==>
      (b in d'.phases <==> b in d.phases) && (b in d.phases ==> d'.phases[b] == d.phases[b])
    ensures !act.Spawn? && !act.Die? ==> a in d.phases && a in d'.phases && d'.ids == d.ids && a in d.ids
  {
    hide FreshIdentity, FromIdle, FromOwning, FromInspecting, FromRecovering;
    if !act.Spawn? && !act.Die? {
      PhasesOnly(d, a, act);
    }
  }

  lemma PhasesOnly(d: Disk, a: Agent, act: Act)
    requires a in d.phases && a in d.ids
    ensures FromIdle(d, a, act).Some? ==> OnlyPhase(d, a, FromIdle(d, a, act).value)
    ensures Owning(d.phases[a]) && FromOwning(d, a, d.phases[a], act).Some? ==>
      OnlyPhase(d, a, FromOwning(d, a, d.phases[a], act).value)
    ensures FromInspecting(d, a, d.phases[a], act).Some? ==>
      OnlyPhase(d, a, FromInspecting(d, a, d.phases[a], act).value)
    ensures Recovering(d.phases[a]) && FromRecovering(d, a, d.phases[a], act).Some? ==>
      OnlyPhase(d, a, FromRecovering(d, a, d.phases[a], act).value)
  {
    hide *;
    IdleOnly(d, a, act);
    if Owning(d.phases[a]) {
      OwningOnly(d, a, act);
    }
    InspectingOnly(d, a, act);
    if Recovering(d.phases[a]) {
      RecoveringOnly(d, a, act);
    }
  }

  lemma IdleOnly(d: Disk, a: Agent, act: Act)
    requires a in d.phases && a in d.ids
    ensures FromIdle(d, a, act).Some? ==> OnlyPhase(d, a, FromIdle(d, a, act).value)
  {
    hide Reads;
  }

  lemma OwningOnly(d: Disk, a: Agent, act: Act)
    requires a in d.phases && Owning(d.phases[a])
    ensures FromOwning(d, a, d.phases[a], act).Some? ==> OnlyPhase(d, a, FromOwning(d, a, d.phases[a], act).value)
  {
    hide CleanUp, Done;
    CleanUpOnly(d, a, d.phases[a].ino);
  }

  lemma CleanUpOnly(d: Disk, a: Agent, ino: Ino)
    requires a in d.phases
    ensures OnlyPhase(d, a, CleanUp(d, a, ino)) && OnlyPhase(d, a, Done(d, a))
  {
  }

  lemma InspectingOnly(d: Disk, a: Agent, act: Act)
    requires a in d.phases
    ensures FromInspecting(d, a, d.phases[a], act).Some? ==>
      OnlyPhase(d, a, FromInspecting(d, a, d.phases[a], act).value)
  {
    hide Reads, Done;
    CleanUpOnly(d, a, 0);
  }

  lemma RecoveringOnly(d: Disk, a: Agent, act: Act)
    requires a in d.phases && Recovering(d.phases[a])
    ensures FromRecovering(d, a, d.phases[a], act).Some? ==>
      OnlyPhase(d, a, FromRecovering(d, a, d.phases[a], act).value)
  {
    hide Links, Done;
    CleanUpOnly(d, a, 0);
  }

  predicate OnlyPhase(d: Disk, a: Agent, d': Disk)
  {
    a in d'.phases && d'.phases == d.phases[a := d'.phases[a]] && d'.ids == d.ids
  }

  lemma OthersLeaveMe(d: Disk, b: Agent, act: Act, d': Disk, a: Agent)
    requires Do(d, b, act) == Some(d') && a != b && a in d.phases && a in d.ids
    ensures a in d'.phases && a in d'.ids && d'.phases[a] == d.phases[a]
  {
    hide Do;
    OneAgent(d, b, act, d');
    StepEffects(d, b, act, d');
  }

  lemma OwningDoes(d: Disk, a: Agent, act: Act)
    requires a in d.phases && a in d.ids && Owning(d.phases[a]) && !act.Spawn? && !act.Die?
    ensures Do(d, a, act) == FromOwning(d, a, d.phases[a], act)
  {
    hide FromOwning;
  }

  lemma CloseDoes(d: Disk, a: Agent)
    requires a in d.phases && a in d.ids && (d.phases[a].Unlinked? || d.phases[a].Archived?)
    ensures Do(d, a, Close) == Some(Done(d, a))
  {
    hide FromIdle, FromOwning, FromInspecting, FromRecovering;
  }

  lemma OwnedFile(d: Disk, a: Agent)
    requires a in d.phases && PhaseOk(d, a) && Owning(d.phases[a])
    ensures d.lock == Some(d.phases[a].ino) && d.phases[a].ino in d.files
    ensures d.phases[a].Holding? ==> d.files[d.phases[a].ino].written
  {
  }

  lemma OneLive(d: Disk, a: Agent, b: Agent)
    requires Inv(d) && a in d.phases && b in d.phases && d.phases[a].Holding? && d.phases[b].Holding?
    ensures a == b
  {
    if a != b {
      OneOwner(d, a, b);
    }
  }

  lemma FilesStay(d: Disk, a: Agent, act: Act, d': Disk)
    requires Inv(d) && Do(d, a, act) == Some(d')
    ensures SameFiles(d, d')
  {
    hide Inv, Do;
    StepEffects(d, a, act, d');
    NewFile(d);
  }

  /** What the next step of a recovery does, or that it can always stop. */
  lemma RecoveryDoes(d: Disk, a: Agent, act: Act)
    requires a in d.phases && a in d.ids
    requires var p := d.phases[a]; p.Inspecting? || p.Opened? || p.Guarded? || p.Watched? || Recovering(p)
    ensures act.Abort? ==> Do(d, a, act) == Some(Done(d, a)) && a in Done(d, a).phases && Done(d, a).phases[a].Idle?
    ensures Fits(d.phases[a], act) ==>
      && Do(d, a, act).Some? && a in Do(d, a, act).value.phases
      && var q := Do(d, a, act).value.phases[a]; q.Idle? || Follows(d.phases[a], q)
    ensures Fits(d.phases[a], act) && act.Confirm? ==>
      Do(d, a, act) == Some(At(d, a, Confirmed(d.phases[a].ino, d.phases[a].record)))
  {
    hide Links, Reads, Sees, Sound, Asks, Closed;
  }

  lemma AskDoes(d: Disk, a: Agent, x: Answer)
    requires a in d.phases && a in d.ids && (d.phases[a].Inspecting? || d.phases[a].Watched?)
    requires Asks(d.phases[a].watch, x) && Sound(d, d.phases[a].record.pid, x)
    ensures var p := d.phases[a]; Do(d, a, Ask(x)) == Some(At(d, a, Rewatch(p, Sees(p.watch, p.record.token, x))))
  {
    hide Sees, Sound, Asks, Reads;
  }

  lemma InspectDoes(d: Disk, a: Agent, r: Record)
    requires a in d.phases && a in d.ids && d.phases[a].Idle? && d.lock.Some? && Reads(d, d.lock.value, r)
    ensures Do(d, a, Inspect) == Some(At(d, a, Inspecting(r, Unseen)))
  {
    IdleDo(d, a, Inspect);
    hide Do;
  }

  /** Rewriting one phase again and again. */
  lemma AtFacts(d: Disk, a: Agent)
    requires a in d.phases
    ensures forall p ::
      At(d, a, p).phases.Keys == d.phases.Keys && At(d, a, p).ids == d.ids && At(d, a, p).phases[a] == p
  {
  }

  lemma AtAt(d: Disk, a: Agent, p: Phase, q: Phase)
    ensures At(At(d, a, p), a, q) == At(d, a, q) && a in At(d, a, q).phases && At(d, a, q).phases[a] == q
  {
    assert d.phases[a := p][a := q] == d.phases[a := q];
  }

  lemma SameUse(d: Disk, d': Disk, pid: int)
    requires InUse(d, pid) && d'.phases.Keys == d.phases.Keys && d'.ids == d.ids
    ensures InUse(d', pid)
  {
    assert forall b :: b in d'.phases <==> b in d'.phases.Keys;
  }

  lemma AtMine(d: Disk, a: Agent)
    ensures forall p :: a in At(d, a, p).phases && At(d, a, p).phases[a] == p
  {
  }

  lemma ArchivalMine(d: Disk, a: Agent, ino: Ino, r: Record)
    ensures a in Archival(d, a, ino, r).phases && Archival(d, a, ino, r).phases[a] == Archived(ino, r)
    ensures a in Tombed(d, a, Linked(ino, r)).phases && Tombed(d, a, Linked(ino, r)).phases[a] == Linked(ino, r)
    ensures a in Tombed(d, a, Verified(ino, r)).phases && Tombed(d, a, Verified(ino, r)).phases[a] == Verified(ino, r)
  {
  }

  /** The disk after opening the named file and trying to take its flock. */
  function AfterGuard(d: Disk, a: Agent, ino: Ino, r: Record, o: Observation): Disk
  {
    if ino in d.flocks then At(d, a, Idle) else At(d, a, Guarded(ino, r, o)).(flocks := d.flocks[ino := a])
  }

  lemma GuardPath(d: Disk, a: Agent, ino: Ino, r: Record, o: Observation)
    requires a in d.phases && a in d.ids && PhaseOk(d, a)
    requires d.phases[a] == Inspecting(r, Seen(o)) && o != Refused && Reads(d, ino, r)
    ensures var d1 := At(d, a, Opened(ino, r, o));
      && a in d1.phases && d1.phases[a].Opened?
      && Do(d, a, Open) == Some(d1) && Do(d1, a, Guard) == Some(AfterGuard(d, a, ino, r, o))
    ensures var d2 := AfterGuard(d, a, ino, r, o); a in d2.phases && (d2.phases[a].Idle? <==> ino in d.flocks)
  {
    hide Sees, Sound, Asks;
    var d1 := At(d, a, Opened(ino, r, o));
    assert ino !in d.flocks ==>
        AfterGuard(d, a, ino, r, o) == At(d1, a, Guarded(ino, r, o)).(flocks := d1.flocks[ino := a]);
    assert Closed(d1, a).flocks == d.flocks;
    assert Done(d1, a) == At(d, a, Idle);
  }

  /** A first inspection changes no name and no answer, and giving up changes nothing at all. */
  lemma BeforeGuard(d: Disk, d': Disk, a: Agent, ino: Ino, r: Record, o: Observation)
    requires a in d.phases && d.phases[a].Idle? && d' == At(d, a, Inspecting(r, Seen(o))) && Reads(d, ino, r)
    ensures Reads(d', ino, r) && d'.lock == d.lock && d'.flocks == d.flocks
    ensures ino in d.flocks ==> AfterGuard(d', a, ino, r, o) == d
    ensures ino !in d.flocks ==>
      var e := AfterGuard(d', a, ino, r, o);
      e.phases.Keys == d.phases.Keys && e.ids == d.ids && Reads(e, ino, r) && e.phases[a] == Guarded(ino, r, o)
  {
    assert d.phases[a := Inspecting(r, Seen(o))][a := Idle] == d.phases;
  }

  lemma ArchivalUnlocks(d: Disk, a: Agent, ino: Ino, r: Record)
    ensures Archival(d, a, ino, r).lock.None?
  {
  }

  lemma SnapshotDoes(d: Disk, a: Agent)
    requires a in d.phases && a in d.ids && d.phases[a].Guarded?
    ensures Do(d, a, Snapshot) == Some(
      var p := d.phases[a];
      if Reads(d, p.ino, p.record) then At(d, a, Watched(p.ino, p.record, p.decided, Unseen)) else Done(d, a))
    ensures a in Done(d, a).phases && Done(d, a).phases[a].Idle?
  {
    hide Sees, Sound, Asks;
  }

  // ---------------------------------------------------------------- undisturbed observations

  /** Observing finds exactly what sound answers can conclude. */
  ghost predicate Finds(d: Disk, r: Record, seen: Observation)
  {
    forall o :: Concludes(d, r, o) <==> o == seen && o != Refused
  }

  lemma Finding(d: Disk, r: Record, seen: Observation, o: Observation)
    requires Finds(d, r, seen)
    ensures Concludes(d, r, o) <==> o == seen && o != Refused
  {
    hide Concludes;
  }

  lemma TruthIsKnown(d: Disk, pid: int, x: Answer)
    requires Truth(d, pid, x)
    ensures x != Life(Unknown)
  {
  }

  lemma SameTruth(d: Disk, d': Disk, pid: int, x: Answer)
    requires Truth(d', pid, x) && d'.phases.Keys == d.phases.Keys && d'.ids == d.ids
    ensures Truth(d, pid, x)
  {
    assert forall b :: b in d'.phases <==> b in d'.phases.Keys;
  }

  lemma SameFinds(d: Disk, d': Disk, r: Record, seen: Observation)
    requires Finds(d', r, seen) && d'.phases.Keys == d.phases.Keys && d'.ids == d.ids
    ensures Finds(d, r, seen)
  {
    hide Concludes;
    forall o ensures Concludes(d, r, o) <==> Concludes(d', r, o) {
      if Concludes(d, r, o) { SameConclusion(d, d', r, o); }
      if Concludes(d', r, o) { SameConclusion(d', d, r, o); }
    }
  }

  lemma FirstTwo(d: Disk, r: Record, x1: Answer, x2: Answer)
    requires Truth(d, r.pid, x1) && Truth(d, r.pid, x2) && x1.Life? && x1.probe != Unknown
    requires x2.Life? <==> x1.probe == Dead
    ensures x1.probe == Dead ==> x2 == Life(Dead) && Finds(d, r, OwnerDead)
    ensures x1.probe == Alive ==> InUse(d, r.pid)
  {
  }

  lemma IdentityOf(d: Disk)
    requires Inv(d)
    ensures IdentityInv(d)
  {
    hide IdentityInv;
  }

  lemma ThirdAlive(d: Disk, pid: int, x: Answer)
    requires Truth(d, pid, x) && InUse(d, pid) && x.Life?
    ensures x == Life(Alive)
  {
  }

  lemma LastTwo(d: Disk, r: Record, t: Option<string>, x: Answer)
    requires IdentityInv(d) && InUse(d, r.pid) && Truth(d, r.pid, Token(t)) && Truth(d, r.pid, x) && x.Token?
    ensures Asks(TwiceAlive(t), x) && Finds(d, r, Sees(TwiceAlive(t), r.token, x).seen)
  {
    var b :| b in d.phases && b in d.ids && d.ids[b] == Identity(r.pid, t.value);
    var c :| c in d.phases && c in d.ids && d.ids[c] == Identity(r.pid, x.token.value);
    assert d.ids[b].pid == d.ids[c].pid;
    forall o: Observation | o.PidReused? && Concludes(d, r, o) ensures o.token == t.value {
      var e :| e in d.phases && e in d.ids && d.ids[e] == Identity(r.pid, o.token);
      assert d.ids[b].pid == d.ids[e].pid;
    }
  }

  lemma UnchangedDone(d: Disk, a: Agent, p: Phase)
    requires a in d.phases && d.phases[a].Idle? && PhaseOk(d, a)
    ensures Done(At(d, a, p), a) == d
  {
    assert Closed(At(d, a, p), a).flocks == d.flocks;
    assert d.phases[a := p][a := Idle] == d.phases;
  }

  lemma ConfirmedIsOrphan(d: Disk, a: Agent)
    requires a in d.phases && PhaseOk(d, a) && d.phases[a].Confirmed?
    ensures Orphan(d, d.phases[a].ino, d.phases[a].record)
  {
  }

  lemma ClosingKeeps(d: Disk, a: Agent, ino: Ino, r: Record)
    requires a in d.phases && Kept(d, ino, r)
    ensures Kept(Done(d, a), ino, r) && Links(Done(d, a), ino) == Links(d, ino)
  {
  }

  /** Reading a kept file's names. */
  lemma ArchivedLinks(d: Disk, ino: Ino, r: Record)
    requires Inv(d) && Kept(d, ino, r)
    ensures d.lock != Some(ino) ==> Links(d, ino) == 1 && r in d.tombs && d.tombs[r] == ino
  {
    hide RecordsInv, PhaseOk, IdentityInv;
    FilesOf(d);
    LinkCount(d, ino, r);
  }

  lemma NewFlock(d: Disk)
    requires Inv(d)
    ensures d.nextIno !in d.flocks
  {
    NewFile(d);
  }
}
