/** The writer lock on POSIX: one lock path shared by any number of processes that acquire it, release
    it, recover it from a dead owner, or die, at any point. */
module WriterLock {
  import opened Basics

  /** A process instance. Process ids are reused; a start token tells instances of one id apart. */
  type Agent = nat
  type Ino = nat
  datatype Identity = Identity(pid: int, token: string)

  /** The owner record written into a lock file; its digest names the tombstone. */
  datatype Record = Record(pid: int, token: Option<string>, nonce: nat)

  /** A lock file: who created it, the record its creator writes, and whether the write is complete. */
  datatype LockFile = LockFile(creator: Agent, record: Record, written: bool)

  // ---------------------------------------------------------------- observing the recorded owner

  datatype Probe = Alive | Dead | Unknown

  /** The answer of a liveness probe or of a token probe. */
  datatype Answer = Life(probe: Probe) | Token(token: Option<string>)

  /** What an observation of the recorded owner concludes. */
  datatype Observation = OwnerDead | PidReused(token: string) | Refused

  /** How far `_owner_observation` has come: two liveness probes, around the first of two token probes. */
  datatype Watch = Unseen | OnceDead | OnceAlive | WithToken(token1: Option<string>)
      | TwiceAlive(token1: Option<string>) | Seen(seen: Observation)

  predicate Asks(w: Watch, x: Answer)
  {
    match w
    case Unseen => x.Life?
    case OnceDead => x.Life?
    case OnceAlive => x.Token?
    case WithToken(_) => x.Life?
    case TwiceAlive(_) => x.Token?
    case Seen(_) => false
  }

  predicate IsToken(token: Option<string>) { token.Some? && token.value != "" }

  /** The next answer to an owner recorded with the token `recorded`. */
  function Sees(w: Watch, recorded: Option<string>, x: Answer): Watch
    requires Asks(w, x)
  {
    match w
    case Unseen => if x.probe == Unknown then Seen(Refused) else if x.probe == Dead then OnceDead else OnceAlive
    case OnceDead => if x.probe == Dead then Seen(OwnerDead) else Seen(Refused)
    case OnceAlive => WithToken(x.token)
    case WithToken(t) => if x.probe == Alive then TwiceAlive(t) else Seen(Refused)
    case TwiceAlive(t) =>
      if !IsToken(t) || !IsToken(x.token) || t != x.token || !IsToken(recorded) || t == recorded then Seen(Refused)
      else Seen(PidReused(t.value))
  }

  datatype Phase =
    | Idle
    // acquire and release
    | Created(ino: Ino) | Flocked(ino: Ino) | Wrote(ino: Ino) | Holding(ino: Ino) | Checked(ino: Ino)
        | Unlinked(ino: Ino)
    // recover
    | Inspecting(record: Record, watch: Watch)
    | Opened(ino: Ino, record: Record, decided: Observation) | Guarded(ino: Ino, record: Record, decided: Observation)
    | Watched(ino: Ino, record: Record, decided: Observation, watch: Watch)
    | Confirmed(ino: Ino, record: Record) | Ready(ino: Ino, record: Record) | Linked(ino: Ino, record: Record)
    | Verified(ino: Ino, record: Record) | Archived(ino: Ino, record: Record)

  datatype Disk = Disk(
    lock: Option<Ino>,
    tombs: map<Record, Ino>,
    files: map<Ino, LockFile>,
    flocks: map<Ino, Agent>,
    ids: map<Agent, Identity>,
    phases: map<Agent, Phase>,
    nextIno: nat,
    nextNonce: nat)

  predicate Live(d: Disk, a: Agent) { a in d.phases }

  /** The number of names of a file. */
  function Links(d: Disk, ino: Ino): nat
  {
    (if d.lock == Some(ino) then 1 else 0) + |set r | r in d.tombs && d.tombs[r] == ino|
  }

  datatype Act =
    | Spawn(id: Identity) | Die
    | Create(tokenKnown: bool) | Flock | Write | Verify | Abort
    | CheckRelease | Unlink | Close
    | Inspect | Ask(answer: Answer) | Open | Guard | Snapshot | Confirm | CheckLink | Link | VerifyLink | Remove

  function At(d: Disk, a: Agent, p: Phase): Disk
  {
    d.(phases := d.phases[a := p])
  }

  /** Close every descriptor of `a`; the kernel drops its flock. */
  function Closed(d: Disk, a: Agent): Disk
  {
    d.(flocks := map i | i in d.flocks && d.flocks[i] != a :: d.flocks[i])
  }

  function Done(d: Disk, a: Agent): Disk
  {
    At(Closed(d, a), a, Idle)
  }

  /** The lock path names the completely written file `ino` with this record. */
  predicate Reads(d: Disk, ino: Ino, r: Record)
  {
    d.lock == Some(ino) && ino in d.files && d.files[ino].written && d.files[ino].record == r
  }

  /** And its creator is gone. */
  predicate Orphan(d: Disk, ino: Ino, r: Record)
  {
    Reads(d, ino, r) && !Live(d, d.files[ino].creator)
  }

  /** A live process has this id. */
  predicate InUse(d: Disk, pid: int) { exists b :: b in d.phases && b in d.ids && d.ids[b].pid == pid }

  /** Probes do not lie: a dead id is not in use, and a token is that of the live process with the id. */
  predicate Sound(d: Disk, pid: int, x: Answer)
  {
    match x
    case Life(p) => p == Dead ==> !InUse(d, pid)
    case Token(t) => t.Some? ==> exists b :: b in d.phases && b in d.ids && d.ids[b] == Identity(pid, t.value)
  }

  predicate FreshIdentity(d: Disk, a: Agent, id: Identity)
  {
    && a !in d.ids && id.pid > 0 && id.token != ""
    && (forall b :: b in d.phases && b in d.ids ==> d.ids[b].pid != id.pid)
    && (forall b :: b in d.ids ==> d.ids[b] != id)
  }

  /** One atomic step of agent `a`; None when the step is not possible. */
  function Do(d: Disk, a: Agent, act: Act): Option<Disk>
  {
    if act.Spawn? then
      if !Live(d, a) && FreshIdentity(d, a, act.id) then Some(At(d, a, Idle).(ids := d.ids[a := act.id])) else None
    else if !Live(d, a) || a !in d.ids then None
    else if act.Die? then Some(Closed(d, a).(phases := d.phases - {a}))
    else if d.phases[a].Idle? then FromIdle(d, a, act)
    else if Owning(d.phases[a]) then FromOwning(d, a, d.phases[a], act)
    else if d.phases[a].Unlinked? || d.phases[a].Archived? then if act.Close? then Some(Done(d, a)) else None
    else if act.Abort? then Some(Done(d, a))
    else if Recovering(d.phases[a]) then FromRecovering(d, a, d.phases[a], act)
    else FromInspecting(d, a, d.phases[a], act)
  }

  function FromIdle(d: Disk, a: Agent, act: Act): Option<Disk>
    requires a in d.ids
  {
    match act
    case Create(known) =>
      if d.lock.Some? then None
      else
        var record := Record(d.ids[a].pid, if known then Some(d.ids[a].token) else None, d.nextNonce);
        Some(At(d, a, Created(d.nextIno)).(
          lock := Some(d.nextIno), files := d.files[d.nextIno := LockFile(a, record, false)],
          nextIno := d.nextIno + 1, nextNonce := d.nextNonce + 1))
    case Inspect =>
      if d.lock.Some? && d.lock.value in d.files && Reads(d, d.lock.value, d.files[d.lock.value].record)
      then Some(At(d, a, Inspecting(d.files[d.lock.value].record, Unseen))) else None
    case _ => None
  }

  /** Acquiring and releasing. */
  function FromOwning(d: Disk, a: Agent, p: Phase, act: Act): Option<Disk>
    requires Owning(p)
  {
    match p
    case Created(ino) =>
      if act.Flock? then
        if ino !in d.flocks then Some(At(d, a, Flocked(ino)).(flocks := d.flocks[ino := a]))
            else Some(CleanUp(d, a, ino))
      else if act.Abort? then Some(CleanUp(d, a, ino)) else None
    case Flocked(ino) =>
      if act.Write? && ino in d.files
          then Some(At(d, a, Wrote(ino)).(files := d.files[ino := d.files[ino].(written := true)]))
      else if act.Abort? then Some(CleanUp(d, a, ino)) else None
    case Wrote(ino) =>
      if act.Verify? then if d.lock == Some(ino) then Some(At(d, a, Holding(ino))) else Some(CleanUp(d, a, ino))
      else if act.Abort? then Some(CleanUp(d, a, ino)) else None
    case Holding(ino) =>
      if act.CheckRelease? then
        if d.lock == Some(ino) && ino in d.files && d.files[ino].written then Some(At(d, a, Checked(ino)))
            else Some(Done(d, a))
      else None
    case Checked(ino) =>
      if act.Unlink? then Some(At(d, a, Unlinked(ino)).(lock := None))
      else if act.Abort? then Some(Done(d, a)) else None
  }

  /** Recovery up to the second observation of the owner, under the kernel guard, which must repeat the first. */
  function FromInspecting(d: Disk, a: Agent, p: Phase, act: Act): Option<Disk>
  {
    match p
    case Inspecting(r, w) =>
      if act.Ask? && Asks(w, act.answer) && Sound(d, r.pid, act.answer) then
        Some(At(d, a, Inspecting(r, Sees(w, r.token, act.answer))))
      else if act.Open? && w.Seen? && w.seen != Refused then
        if d.lock.Some? then Some(At(d, a, Opened(d.lock.value, r, w.seen))) else Some(Done(d, a))
      else None
    case Opened(ino, r, o) =>
      if !act.Guard? then None
      else if ino !in d.flocks then Some(At(d, a, Guarded(ino, r, o)).(flocks := d.flocks[ino := a]))
          else Some(Done(d, a))
    case Guarded(ino, r, o) =>
      if !act.Snapshot? then None
      else if Reads(d, ino, r) then Some(At(d, a, Watched(ino, r, o, Unseen))) else Some(Done(d, a))
    case Watched(ino, r, o, w) =>
      if act.Ask? && Asks(w, act.answer) && Sound(d, r.pid, act.answer) then
        Some(At(d, a, Watched(ino, r, o, Sees(w, r.token, act.answer))))
      else if act.Confirm? && w == Seen(o) && o != Refused then Some(At(d, a, Confirmed(ino, r)))
      else None
    case _ => None
  }

  /** Recovery under the kernel guard. */
  function FromRecovering(d: Disk, a: Agent, p: Phase, act: Act): Option<Disk>
    requires Recovering(p)
  {
    match p
    case Confirmed(ino, r) =>
      if !act.CheckLink? then None
      else if d.lock == Some(ino) &&
          (if r in d.tombs then d.tombs[r] == ino && Links(d, ino) == 2 else Links(d, ino) == 1)
      then Some(At(d, a, Ready(ino, r))) else Some(Done(d, a))
    case Ready(ino, r) =>
      if !act.Link? then None
      else if r in d.tombs then Some(At(d, a, Linked(ino, r)))
      else if d.lock.Some? then Some(At(d, a, Linked(ino, r)).(tombs := d.tombs[r := d.lock.value]))
      else Some(Done(d, a))
    case Linked(ino, r) =>
      if !act.VerifyLink? then None
      else if d.lock == Some(ino) && r in d.tombs && d.tombs[r] == ino && Links(d, ino) == 2
      then Some(At(d, a, Verified(ino, r))) else Some(Done(d, a))
    case Verified(ino, r) =>
      if !act.Remove? then None else Some(At(d, a, Archived(ino, r)).(lock := None))
  }

  /** The failure path of an acquisition: unlink the lock path only while it names the created file. */
  function CleanUp(d: Disk, a: Agent, ino: Ino): Disk
  {
    if d.lock == Some(ino) then At(d, a, Checked(ino)) else Done(d, a)
  }

  ghost predicate Init(d: Disk)
  {
    d == Disk(None, map[], map[], map[], map[], map[], 0, 0)
  }

  ghost predicate Next(d: Disk, d': Disk)
  {
    exists a, act :: Do(d, a, act) == Some(d')
  }

  ghost predicate Run(ds: seq<Disk>)
  {
    ds != [] && Init(ds[0]) && forall k :: 0 <= k < |ds| - 1 ==> Next(ds[k], ds[k + 1])
  }

  // ---------------------------------------------------------------- the invariant

  predicate Owning(p: Phase)
  {
    p.Created? || p.Flocked? || p.Wrote? || p.Holding? || p.Checked?
  }

  predicate Recovering(p: Phase)
  {
    p.Confirmed? || p.Ready? || p.Linked? || p.Verified?
  }

  /** A file's record names its creator. */
  ghost predicate RecordOk(d: Disk, i: Ino)
    requires i in d.files
  {
    var f := d.files[i];
    && i < d.nextIno && f.record.nonce < d.nextNonce && f.creator in d.ids
    && f.record.pid == d.ids[f.creator].pid
    && (f.record.token.Some? ==> f.record.token.value == d.ids[f.creator].token)
  }

  ghost predicate RecordsInv(d: Disk)
  {
    forall i :: i in d.files ==> RecordOk(d, i)
  }

  /** Nonces tell files apart. */
  ghost predicate NonceInv(d: Disk)
  {
    forall i, j :: i in d.files && j in d.files && d.files[i].record.nonce == d.files[j].record.nonce ==> i == j
  }

  ghost predicate NamesInv(d: Disk)
  {
    && (d.lock.Some? ==> d.lock.value in d.files)
    && (forall r :: r in d.tombs ==>
          d.tombs[r] in d.files && d.files[d.tombs[r]].written && d.files[d.tombs[r]].record == r)
    && (forall i :: i in d.flocks ==> i in d.files && Live(d, d.flocks[i]))
  }

  ghost predicate FilesInv(d: Disk)
  {
    RecordsInv(d) && NonceInv(d) && NamesInv(d)
  }

  ghost predicate IdentityInv(d: Disk)
  {
    && (forall a :: a in d.phases ==> a in d.ids)
    && (forall a :: a in d.ids ==> d.ids[a].token != "")
    && (forall a, b :: a in d.phases && b in d.phases && a in d.ids && b in d.ids && d.ids[a].pid == d.ids[b].pid ==>
          a == b)
    && (forall a, b :: a in d.ids && b in d.ids && d.ids[a] == d.ids[b] ==> a == b)
  }

  /** A watch that has already shown the owner to be dead. */
  predicate Shown(w: Watch) { w.OnceDead? || (w.Seen? && w.seen != Refused) }

  /** `a` holds no flock. */
  ghost predicate Unguarded(d: Disk, a: Agent) { forall i :: i in d.flocks ==> d.flocks[i] != a }

  /** What agent `a` knows in each phase. */
  ghost predicate PhaseOk(d: Disk, a: Agent)
    requires a in d.phases
  {
    var p := d.phases[a];
    && (Owning(p) ==> d.lock == Some(p.ino) && p.ino in d.files && d.files[p.ino].creator == a)
    && (p.Created? ==> !d.files[p.ino].written)
    && (p.Wrote? || p.Holding? ==> d.files[p.ino].written)
    && (Owning(p) && d.files[p.ino].written ==> p.ino in d.flocks && d.flocks[p.ino] == a)
    && (p.Flocked? ==> p.ino in d.flocks && d.flocks[p.ino] == a)
    && (p.Opened? ==> p.ino in d.files)
    && (p.Idle? || p.Inspecting? || p.Opened? ==> Unguarded(d, a))
    && (p.Guarded? || p.Watched? || p.Archived? || Recovering(p) ==> p.ino in d.flocks && d.flocks[p.ino] == a)
    && (p.Watched? ==> Reads(d, p.ino, p.record) && (Shown(p.watch) ==> Orphan(d, p.ino, p.record)))
    && (Recovering(p) ==> Orphan(d, p.ino, p.record))
    && (p.Verified? || p.Archived? ==> p.record in d.tombs && d.tombs[p.record] == p.ino)
  }

  ghost predicate Inv(d: Disk)
  {
    FilesInv(d) && IdentityInv(d) && forall a :: a in d.phases ==> PhaseOk(d, a)
  }

  // ---------------------------------------------------------------- every step keeps it

  /** Nothing changes but the phase and the flocks of `a`, and `a` takes only free flocks. */
  ghost predicate Calm(d: Disk, d': Disk, a: Agent)
  {
    && d' == d.(phases := d'.phases, flocks := d'.flocks)
    && (forall b :: b in d'.phases ==> b in d.phases)
    && (forall b :: b in d.phases && b != a ==> b in d'.phases && d'.phases[b] == d.phases[b])
    && (forall i :: i in d.flocks && d.flocks[i] != a ==> i in d'.flocks && d'.flocks[i] == d.flocks[i])
    && (forall i :: i in d'.flocks ==>
          if d'.flocks[i] == a then a in d'.phases && i in d.files else i in d.flocks && d'.flocks[i] == d.flocks[i])
  }

  lemma CalmFiles(d: Disk, d': Disk, a: Agent)
    requires FilesInv(d) && Calm(d, d', a)
    ensures FilesInv(d')
  {
    SameRecords(d, d');
    hide RecordsInv, NonceInv;
  }

  lemma CalmIdentity(d: Disk, d': Disk, a: Agent)
    requires IdentityInv(d) && Calm(d, d', a)
    ensures IdentityInv(d')
  {
  }

  /** Another agent's knowledge survives when its file, its flock and the lock path are left alone. */
  lemma CalmOther(d: Disk, d': Disk, a: Agent, b: Agent)
    requires b in d.phases && b != a && PhaseOk(d, b) && Calm(d, d', a)
    ensures b in d'.phases && PhaseOk(d', b)
  {
  }

  lemma CalmKeeps(d: Disk, d': Disk, a: Agent)
    requires Inv(d) && Calm(d, d', a) && (a in d'.phases ==> PhaseOk(d', a))
    ensures Inv(d')
  {
    hide FilesInv, IdentityInv, PhaseOk;
    CalmFiles(d, d', a);
    CalmIdentity(d, d', a);
    forall b | b in d'.phases ensures PhaseOk(d', b) {
      if b != a {
        CalmOther(d, d', a, b);
      }
    }
  }

  lemma ClosedIsCalm(d: Disk, a: Agent)
    requires a in d.phases && FilesInv(d)
    ensures Calm(d, Done(d, a), a) && Calm(d, Closed(d, a).(phases := d.phases - {a}), a)
  {
  }

  lemma DoneKeeps(d: Disk, a: Agent)
    requires Inv(d) && a in d.phases
    ensures Inv(Done(d, a)) && Inv(Closed(d, a).(phases := d.phases - {a}))
  {
    hide FilesInv, IdentityInv, Calm;
    ClosedIsCalm(d, a);
    IdleIsOk(Done(d, a), a);
    CalmKeeps(d, Done(d, a), a);
    CalmKeeps(d, Closed(d, a).(phases := d.phases - {a}), a);
  }

  lemma IdleIsOk(d: Disk, a: Agent)
    requires a in d.phases && d.phases[a].Idle? && Unguarded(d, a)
    ensures PhaseOk(d, a)
  {
  }

  /** A phase change of `a` alone. */
  lemma MoveOnKeeps(d: Disk, a: Agent, p: Phase)
    requires Inv(d) && a in d.phases && PhaseOk(At(d, a, p), a)
    ensures Inv(At(d, a, p))
  {
    AtIsCalm(d, a, p);
    hide FilesInv, IdentityInv, Calm, PhaseOk;
    CalmKeeps(d, At(d, a, p), a);
  }

  lemma AtIsCalm(d: Disk, a: Agent, p: Phase)
    requires a in d.phases && FilesInv(d)
    ensures Calm(d, At(d, a, p), a)
  {
  }

  lemma FlockKeeps(d: Disk, a: Agent, p: Phase, ino: Ino)
    requires Inv(d) && a in d.phases && ino in d.files && ino !in d.flocks
    requires PhaseOk(At(d, a, p).(flocks := d.flocks[ino := a]), a)
    ensures Inv(At(d, a, p).(flocks := d.flocks[ino := a]))
  {
    hide FilesInv, IdentityInv, PhaseOk, Calm;
    FlockIsCalm(d, a, p, ino);
    CalmKeeps(d, At(d, a, p).(flocks := d.flocks[ino := a]), a);
  }

  lemma FlockIsCalm(d: Disk, a: Agent, p: Phase, ino: Ino)
    requires a in d.phases && FilesInv(d) && ino in d.files && ino !in d.flocks
    ensures Calm(d, At(d, a, p).(flocks := d.flocks[ino := a]), a)
  {
  }

  // ---------------------------------------------------------------- steps that change names or files

  /** Whoever relies on the lock path shares its file, so only one agent does. */
  lemma OneOwner(d: Disk, a: Agent, b: Agent)
    requires Inv(d) && a in d.phases && b in d.phases && a != b
    requires Owning(d.phases[a]) || d.phases[a].Verified?
    ensures !Owning(d.phases[b]) && !Recovering(d.phases[b]) && !d.phases[b].Watched?
  {
    assert PhaseOk(d, a) && PhaseOk(d, b);
  }

  lemma UnlockKeeps(d: Disk, a: Agent, p: Phase)
    requires Inv(d) && a in d.phases && (d.phases[a].Checked? || d.phases[a].Verified?)
    requires PhaseOk(At(d, a, p).(lock := None), a)
    ensures Inv(At(d, a, p).(lock := None))
  {
    var d' := At(d, a, p).(lock := None);
    UnlockFiles(d, a, p);
    hide FilesInv, IdentityInv;
    forall b | b in d'.phases ensures PhaseOk(d', b) {
      if b != a {
        OneOwner(d, a, b);
        UnlockOther(d, a, p, b);
      }
    }
  }

  lemma UnlockFiles(d: Disk, a: Agent, p: Phase)
    requires FilesInv(d) && IdentityInv(d) && a in d.phases
    ensures var d' := At(d, a, p).(lock := None); FilesInv(d') && IdentityInv(d')
  {
    SameRecords(d, At(d, a, p).(lock := None));
    hide RecordsInv, NonceInv;
  }

  lemma UnlockOther(d: Disk, a: Agent, p: Phase, b: Agent)
    requires b in d.phases && b != a && PhaseOk(d, b) && !Owning(d.phases[b])
    requires !Recovering(d.phases[b]) && !d.phases[b].Watched?
    ensures PhaseOk(At(d, a, p).(lock := None), b)
  {
  }

  lemma CreateKeeps(d: Disk, a: Agent, known: bool)
    requires Inv(d) && a in d.phases && a in d.ids && d.phases[a].Idle? && d.lock.None?
    ensures FromIdle(d, a, Create(known)).Some? && Inv(FromIdle(d, a, Create(known)).value)
  {
    var d' := FromIdle(d, a, Create(known)).value;
    CreateFiles(d, a, known);
    CreateMine(d, a, known);
    hide FilesInv, IdentityInv, PhaseOk;
    forall b | b in d'.phases ensures PhaseOk(d', b) {
      if b != a {
        CreateOther(d, a, known, b);
      }
    }
  }

  lemma CreateFiles(d: Disk, a: Agent, known: bool)
    requires FilesInv(d) && IdentityInv(d) && a in d.phases && a in d.ids && d.lock.None?
    ensures var d' := FromIdle(d, a, Create(known)).value; FilesInv(d') && IdentityInv(d')
  {
    hide RecordsInv, NonceInv, NamesInv;
    CreateRecords(d, a, known);
    CreateNames(d, a, known);
  }

  lemma CreateRecords(d: Disk, a: Agent, known: bool)
    requires RecordsInv(d) && NonceInv(d) && a in d.phases && a in d.ids && d.lock.None?
    ensures var d' := FromIdle(d, a, Create(known)).value; RecordsInv(d') && NonceInv(d')
  {
    var d' := FromIdle(d, a, Create(known)).value;
    forall i | i in d'.files ensures RecordOk(d', i) {
      assert i in d.files ==> RecordOk(d, i);
    }
    assert forall i :: i in d.files ==> RecordOk(d, i) && d.files[i].record.nonce < d.nextNonce;
  }

  lemma CreateNames(d: Disk, a: Agent, known: bool)
    requires RecordsInv(d) && NamesInv(d) && a in d.phases && a in d.ids && d.lock.None?
    ensures var d' := FromIdle(d, a, Create(known)).value; NamesInv(d')
  {
    assert forall i :: i in d.files ==> RecordOk(d, i);
  }

  lemma CreateMine(d: Disk, a: Agent, known: bool)
    requires FilesInv(d) && a in d.phases && a in d.ids && d.phases[a].Idle? && d.lock.None?
    ensures var d' := FromIdle(d, a, Create(known)).value; a in d'.phases && PhaseOk(d', a)
  {
  }

  lemma CreateOther(d: Disk, a: Agent, known: bool, b: Agent)
    requires FilesInv(d) && a in d.ids && d.lock.None? && b in d.phases && b != a && PhaseOk(d, b)
    ensures var d' := FromIdle(d, a, Create(known)).value; b in d'.phases && PhaseOk(d', b)
  {
  }

  lemma WriteKeeps(d: Disk, a: Agent, ino: Ino)
    requires Inv(d) && a in d.phases && d.phases[a] == Flocked(ino) && ino in d.files
    ensures Inv(At(d, a, Wrote(ino)).(files := d.files[ino := d.files[ino].(written := true)]))
  {
    var d' := At(d, a, Wrote(ino)).(files := d.files[ino := d.files[ino].(written := true)]);
    hide FilesInv, IdentityInv, PhaseOk;
    WriteFiles(d, a, ino);
    WriteMine(d, a, ino);
    forall b | b in d'.phases ensures PhaseOk(d', b) {
      if b != a {
        WriteOther(d, a, ino, b);
      }
    }
  }

  lemma WriteMine(d: Disk, a: Agent, ino: Ino)
    requires a in d.phases && d.phases[a] == Flocked(ino) && PhaseOk(d, a)
    ensures PhaseOk(At(d, a, Wrote(ino)).(files := d.files[ino := d.files[ino].(written := true)]), a)
  {
  }

  lemma WriteFiles(d: Disk, a: Agent, ino: Ino)
    requires FilesInv(d) && IdentityInv(d) && a in d.phases && ino in d.files
    ensures var d' := At(d, a, Wrote(ino)).(files := d.files[ino := d.files[ino].(written := true)]);
      FilesInv(d') && IdentityInv(d')
  {
    hide RecordsInv, NonceInv, NamesInv;
    var d' := At(d, a, Wrote(ino)).(files := d.files[ino := d.files[ino].(written := true)]);
    SameRecords(d, d');
    SameNames(d, d');
  }

  lemma SameNames(d: Disk, d': Disk)
    requires NamesInv(d) && d'.lock == d.lock && d'.tombs == d.tombs
    requires d'.flocks == d.flocks && d'.phases.Keys == d.phases.Keys
    requires d'.files.Keys == d.files.Keys
    requires forall i :: i in d.files ==>
      d'.files[i].record == d.files[i].record && (d.files[i].written ==> d'.files[i].written)
    ensures NamesInv(d')
  {
  }

  lemma SameRecords(d: Disk, d': Disk)
    requires RecordsInv(d) && NonceInv(d) && d'.files.Keys == d.files.Keys
    requires d'.ids == d.ids && d'.nextIno == d.nextIno && d'.nextNonce == d.nextNonce
    requires forall i :: i in d.files ==>
      d'.files[i].creator == d.files[i].creator && d'.files[i].record == d.files[i].record
    ensures RecordsInv(d') && NonceInv(d')
  {
    forall i | i in d'.files ensures RecordOk(d', i) {
      assert RecordOk(d, i);
    }
  }

  lemma WriteOther(d: Disk, a: Agent, ino: Ino, b: Agent)
    requires a in d.phases && b in d.phases && b != a && PhaseOk(d, a)
    requires PhaseOk(d, b) && d.phases[a] == Flocked(ino) && ino in d.files
    ensures PhaseOk(At(d, a, Wrote(ino)).(files := d.files[ino := d.files[ino].(written := true)]), b)
  {
  }

  lemma LinkKeeps(d: Disk, a: Agent, ino: Ino, r: Record)
    requires Inv(d) && a in d.phases && d.phases[a] == Ready(ino, r) && r !in d.tombs && d.lock.Some?
    ensures Inv(At(d, a, Linked(ino, r)).(tombs := d.tombs[r := d.lock.value]))
  {
    hide FilesInv, IdentityInv, PhaseOk;
    var d' := At(d, a, Linked(ino, r)).(tombs := d.tombs[r := d.lock.value]);
    LinkMine(d, a, ino, r);
    LinkFiles(d, a, ino, r);
    forall b | b in d'.phases ensures PhaseOk(d', b) {
      if b != a {
        LinkOther(d, a, ino, r, b);
      }
    }
  }

  lemma LinkMine(d: Disk, a: Agent, ino: Ino, r: Record)
    requires a in d.phases && d.phases[a] == Ready(ino, r) && PhaseOk(d, a)
    ensures Orphan(d, ino, r) && d.lock == Some(ino)
    ensures PhaseOk(At(d, a, Linked(ino, r)).(tombs := d.tombs[r := ino]), a)
  {
  }

  lemma LinkFiles(d: Disk, a: Agent, ino: Ino, r: Record)
    requires FilesInv(d) && IdentityInv(d) && a in d.phases && Orphan(d, ino, r)
    ensures var d' := At(d, a, Linked(ino, r)).(tombs := d.tombs[r := ino]); FilesInv(d') && IdentityInv(d')
  {
    hide RecordsInv, NonceInv, NamesInv;
    SameRecords(d, At(d, a, Linked(ino, r)).(tombs := d.tombs[r := ino]));
    LinkNames(d, a, ino, r);
  }

  lemma LinkNames(d: Disk, a: Agent, ino: Ino, r: Record)
    requires NamesInv(d) && a in d.phases && Orphan(d, ino, r)
    ensures NamesInv(At(d, a, Linked(ino, r)).(tombs := d.tombs[r := ino]))
  {
  }

  lemma LinkOther(d: Disk, a: Agent, ino: Ino, r: Record, b: Agent)
    requires a in d.phases && b in d.phases && b != a && PhaseOk(d, b) && r !in d.tombs && d.lock.Some?
    ensures PhaseOk(At(d, a, Linked(ino, r)).(tombs := d.tombs[r := d.lock.value]), b)
  {
  }

  lemma SpawnKeeps(d: Disk, a: Agent, id: Identity)
    requires Inv(d) && a !in d.phases && FreshIdentity(d, a, id)
    ensures Inv(At(d, a, Idle).(ids := d.ids[a := id]))
  {
    var d' := At(d, a, Idle).(ids := d.ids[a := id]);
    SpawnFiles(d, a, id);
    hide IdentityInv, FreshIdentity;
    forall b | b in d'.phases ensures PhaseOk(d', b) {
      if b != a {
        SpawnOther(d, a, id, b);
      }
    }
  }

  lemma SpawnFiles(d: Disk, a: Agent, id: Identity)
    requires FilesInv(d) && IdentityInv(d) && a !in d.phases && FreshIdentity(d, a, id)
    ensures var d' := At(d, a, Idle).(ids := d.ids[a := id]); FilesInv(d') && IdentityInv(d')
  {
    hide RecordsInv, NonceInv, NamesInv, IdentityInv;
    SpawnRecords(d, a, id);
    SpawnIdentity(d, a, id);
  }

  lemma SpawnRecords(d: Disk, a: Agent, id: Identity)
    requires RecordsInv(d) && NonceInv(d) && NamesInv(d) && a !in d.phases && a !in d.ids
    ensures FilesInv(At(d, a, Idle).(ids := d.ids[a := id]))
  {
    var d' := At(d, a, Idle).(ids := d.ids[a := id]);
    forall i | i in d'.files ensures RecordOk(d', i) {
      assert RecordOk(d, i);
    }
  }

  lemma SpawnIdentity(d: Disk, a: Agent, id: Identity)
    requires IdentityInv(d) && a !in d.phases && FreshIdentity(d, a, id)
    ensures IdentityInv(At(d, a, Idle).(ids := d.ids[a := id]))
  {
  }

  lemma SpawnOther(d: Disk, a: Agent, id: Identity, b: Agent)
    requires FilesInv(d) && b in d.phases && b != a && PhaseOk(d, b) && a !in d.ids
    ensures PhaseOk(At(d, a, Idle).(ids := d.ids[a := id]), b)
  {
  }

  // ---------------------------------------------------------------- all steps

  lemma CleanUpKeeps(d: Disk, a: Agent, ino: Ino)
    requires Inv(d) && a in d.phases && Owning(d.phases[a]) && d.phases[a].ino == ino
    ensures Inv(CleanUp(d, a, ino)) && Inv(Done(d, a))
  {
    MineOwning(d, a);
    hide Inv, PhaseOk;
    DoneKeeps(d, a);
    MoveOnKeeps(d, a, Checked(ino));
  }

  /** What an owner may claim in its next phase. */
  lemma MineOwning(d: Disk, a: Agent)
    requires Inv(d) && a in d.phases && Owning(d.phases[a])
    ensures var ino := d.phases[a].ino;
      && d.lock == Some(ino) && ino in d.files
      && PhaseOk(At(d, a, Checked(ino)), a)
      && PhaseOk(At(d, a, Flocked(ino)).(flocks := d.flocks[ino := a]), a)
      && (d.phases[a].Wrote? ==> PhaseOk(At(d, a, Holding(ino)), a))
      && PhaseOk(At(d, a, Unlinked(ino)).(lock := None), a)
  {
    hide FilesInv, IdentityInv;
    assert PhaseOk(d, a);
  }

  lemma IdleKeeps(d: Disk, a: Agent, act: Act, d': Disk)
    requires Inv(d) && a in d.phases && a in d.ids && d.phases[a].Idle? && FromIdle(d, a, act) == Some(d')
    ensures Inv(d')
  {
    hide Inv, PhaseOk;
    if act.Create? {
      CreateKeeps(d, a, act.tokenKnown);
    } else {
      PhaseOf(d, a);
      InspectingIsOk(d, a, d.files[d.lock.value].record, Unseen);
      MoveOnKeeps(d, a, d'.phases[a]);
    }
  }

  lemma OwningKeeps(d: Disk, a: Agent, act: Act, d': Disk)
    requires Inv(d) && a in d.phases && Owning(d.phases[a]) && FromOwning(d, a, d.phases[a], act) == Some(d')
    ensures Inv(d')
  {
    hide Inv, PhaseOk, CleanUp, Done;
    var ino := d.phases[a].ino;
    MineOwning(d, a);
    CleanUpKeeps(d, a, ino);
    match d.phases[a]
    case Created(_) => if ino !in d.flocks { FlockKeeps(d, a, Flocked(ino), ino); }
    case Flocked(_) => WriteKeeps(d, a, ino);
    case Wrote(_) => MoveOnKeeps(d, a, Holding(ino));
    case Holding(_) => MoveOnKeeps(d, a, Checked(ino));
    case Checked(_) => UnlockKeeps(d, a, Unlinked(ino));
  }

  lemma MineOpening(d: Disk, a: Agent, o: Observation)
    requires NamesInv(d) && a in d.phases && PhaseOk(d, a) && d.phases[a].Inspecting? && d.lock.Some?
    ensures PhaseOk(At(d, a, Opened(d.lock.value, d.phases[a].record, o)), a)
  {
  }

  lemma MineGuarding(d: Disk, a: Agent)
    requires a in d.phases && PhaseOk(d, a) && d.phases[a].Opened?
    ensures var p := d.phases[a];
      p.ino in d.files && PhaseOk(At(d, a, Guarded(p.ino, p.record, p.decided)).(flocks := d.flocks[p.ino := a]), a)
  {
  }

  lemma MineWatching(d: Disk, a: Agent)
    requires a in d.phases && PhaseOk(d, a) && d.phases[a].Guarded? && Reads(d, d.phases[a].ino, d.phases[a].record)
    ensures PhaseOk(At(d, a, Watched(d.phases[a].ino, d.phases[a].record, d.phases[a].decided, Unseen)), a)
  {
  }

  lemma MineConfirming(d: Disk, a: Agent)
    requires a in d.phases && PhaseOk(d, a) && d.phases[a].Watched? && Shown(d.phases[a].watch)
    ensures PhaseOk(At(d, a, Confirmed(d.phases[a].ino, d.phases[a].record)), a)
  {
  }

  lemma NamesOf(d: Disk)
    requires Inv(d)
    ensures NamesInv(d)
  {
    hide RecordsInv, NonceInv, NamesInv;
  }

  /** A sound answer that shows the owner to be dead is right: its id is free, or another live process has it. */
  lemma AnswerIsRight(d: Disk, ino: Ino, r: Record, w: Watch, x: Answer)
    requires RecordsInv(d) && IdentityInv(d) && Reads(d, ino, r) && (Shown(w) ==> Orphan(d, ino, r))
    requires Asks(w, x) && Sound(d, r.pid, x) && Shown(Sees(w, r.token, x))
    ensures Orphan(d, ino, r)
  {
    assert RecordOk(d, ino);
    var creator := d.files[ino].creator;
    if w.TwiceAlive? {
      var b :| b in d.phases && b in d.ids && d.ids[b] == Identity(r.pid, x.token.value);
      assert d.ids[b].pid == d.ids[creator].pid;
    }
  }

  lemma AskKeeps(d: Disk, a: Agent, x: Answer)
    requires Inv(d) && a in d.phases && d.phases[a].Watched?
    requires Asks(d.phases[a].watch, x) && Sound(d, d.phases[a].record.pid, x)
    ensures var p := d.phases[a]; PhaseOk(At(d, a,
        Watched(p.ino, p.record, p.decided, Sees(p.watch, p.record.token, x))), a)
  {
    hide NonceInv, NamesInv, IdentityInv, Sound, RecordsInv;
    assert PhaseOk(d, a);
    var p := d.phases[a];
    if Shown(Sees(p.watch, p.record.token, x)) {
      AnswerIsRight(d, p.ino, p.record, p.watch, x);
    }
  }

  lemma InspectingKeeps(d: Disk, a: Agent, act: Act, d': Disk)
    requires Inv(d) && a in d.phases && FromInspecting(d, a, d.phases[a], act) == Some(d')
    ensures Inv(d')
  {
    hide Inv, PhaseOk, Done, Reads, Sound, Sees, NamesInv;
    DoneKeeps(d, a);
    PhaseOf(d, a);
    match d.phases[a]
    case Inspecting(r, w) =>
      if act.Ask? {
        InspectingIsOk(d, a, r, Sees(w, r.token, act.answer));
        MoveOnKeeps(d, a, Inspecting(r, Sees(w, r.token, act.answer)));
      } else if d.lock.Some? {
        NamesOf(d);
        MineOpening(d, a, w.seen);
        MoveOnKeeps(d, a, Opened(d.lock.value, r, w.seen));
      }
    case Opened(ino, r, o) =>
      MineGuarding(d, a);
      if ino !in d.flocks { FlockKeeps(d, a, Guarded(ino, r, o), ino); }
    case Guarded(ino, r, o) =>
      if Reads(d, ino, r) {
        MineWatching(d, a);
        MoveOnKeeps(d, a, Watched(ino, r, o, Unseen));
      }
    case Watched(ino, r, o, w) =>
      if act.Ask? {
        AskKeeps(d, a, act.answer);
        MoveOnKeeps(d, a, Watched(ino, r, o, Sees(w, r.token, act.answer)));
      } else {
        MineConfirming(d, a);
        MoveOnKeeps(d, a, Confirmed(ino, r));
      }
    case _ =>
  }

  lemma InspectingIsOk(d: Disk, a: Agent, r: Record, w: Watch)
    requires a in d.phases && (d.phases[a].Idle? || d.phases[a].Inspecting?) && PhaseOk(d, a)
    ensures PhaseOk(At(d, a, Inspecting(r, w)), a)
  {
  }

  lemma PhaseOf(d: Disk, a: Agent)
    requires Inv(d) && a in d.phases
    ensures PhaseOk(d, a)
  {
    hide PhaseOk;
  }

  lemma MineRecovering(d: Disk, a: Agent)
    requires Inv(d) && a in d.phases && Recovering(d.phases[a])
    ensures var ino, r := d.phases[a].ino, d.phases[a].record;
      && PhaseOk(At(d, a, Ready(ino, r)), a) && PhaseOk(At(d, a, Linked(ino, r)), a)
      && (r in d.tombs && d.tombs[r] == ino ==> PhaseOk(At(d, a, Verified(ino, r)), a))
      && (d.phases[a].Verified? ==> PhaseOk(At(d, a, Archived(ino, r)).(lock := None), a))
  {
    hide FilesInv, IdentityInv;
    assert PhaseOk(d, a);
  }

  lemma RecoveringKeeps(d: Disk, a: Agent, act: Act, d': Disk)
    requires Inv(d) && a in d.phases && Recovering(d.phases[a]) && FromRecovering(d, a, d.phases[a], act) == Some(d')
    ensures Inv(d')
  {
    hide Inv, PhaseOk, Done, Links;
    MineRecovering(d, a);
    DoneKeeps(d, a);
    match d.phases[a]
    case Confirmed(ino, r) => MoveOnKeeps(d, a, Ready(ino, r));
    case Ready(ino, r) =>
      if r in d.tombs { MoveOnKeeps(d, a, Linked(ino, r)); }
      else if d.lock.Some? { LinkKeeps(d, a, ino, r); }
    case Linked(ino, r) => if r in d.tombs && d.tombs[r] == ino { MoveOnKeeps(d, a, Verified(ino, r)); }
    case Verified(ino, r) => UnlockKeeps(d, a, Archived(ino, r));
  }

  /** Every step of every agent keeps the invariant. */
  lemma StepInv(d: Disk, a: Agent, act: Act, d': Disk)
    requires Inv(d) && Do(d, a, act) == Some(d')
    ensures Inv(d')
  {
    hide Inv, FromIdle, FromOwning, FromInspecting, FromRecovering, FreshIdentity, Done, Closed;
    if act.Spawn? {
      SpawnKeeps(d, a, act.id);
    } else {
      DoneKeeps(d, a);
      if act.Die? {
      } else if d.phases[a].Idle? {
        IdleKeeps(d, a, act, d');
      } else if Owning(d.phases[a]) {
        OwningKeeps(d, a, act, d');
      } else if d.phases[a].Unlinked? || d.phases[a].Archived? {
      } else if act.Abort? {
      } else if Recovering(d.phases[a]) {
        RecoveringKeeps(d, a, act, d');
      } else {
        InspectingKeeps(d, a, act, d');
      }
    }
  }
}
