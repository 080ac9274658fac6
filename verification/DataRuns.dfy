/**
 * The data manager as a state machine: insertions and item updates of many clients interleave step
 * by step, over pages in memory, pages on disk and the log.
 */
module DataRuns {
  import opened Types
  import opened Bytes
  import opened LogRecords
  import opened Recovery
  import opened DataItems
  import opened PageIndex
  import A = Allocation

  /** Where a data item lives; its UUID encodes just this. */
  datatype Addr = Addr(pgno: nat, off: nat)

  datatype Phase = Seeks | Fetched | Logged(off: nat) | Applied(off: nat) | Released(off: nat) | Done(addr: Addr) | Failed

  datatype Ins = Ins(xid: nat, raw: seq<Byte>, at: Phase)

  /** An item between `Before` and `After`, with the image it had. */
  datatype Lock = Lock(owner: nat, was: seq<Byte>)

  /** `vals` is the plain map from addresses to data that the pages are to represent. */
  datatype State = State(
    a: A.State,
    mem: Pages,
    disk: Pages,
    log: seq<Rec>,
    ins: map<nat, Ins>,
    pinned: set<nat>,
    users: map<nat, Addr>,
    locks: map<Addr, Lock>,
    vals: map<Addr, seq<Byte>>
  )

  datatype Op =
    | Begin(t: nat, xid: nat, data: seq<Byte>)
    | Seek(t: nat)
    | Grow(t: nat)
    | Shelve(t: nat)
    | GiveUp(t: nat)
    | Fetch(t: nat)
    | FetchFail(t: nat)
    | Log(t: nat)
    | LogFail(t: nat)
    | Apply(t: nat)
    | Release(t: nat)
    | Return(t: nat)
    | Open(t: nat, addr: Addr)
    | Before(t: nat)
    | Modify(t: nat, data: seq<Byte>)
    | UnBefore(t: nat)
    | After(t: nat, xid: nat)
    | Close(t: nat)

  /* ----- derived notions ----- */

  function Place(u: Addr, v: seq<Byte>): Item {
    Item(u.pgno, u.off, 3 + |v|)
  }

  /** An insertion that is logged but not yet on its page. */
  datatype Cover = Cover(off: nat, raw: seq<Byte>)

  predicate InPhase(a: A.State, ins: map<nat, Ins>, p: nat, logged: bool) {
    && p in a.holder && a.holder[p] in ins
    && var at := ins[a.holder[p]].at; at.Logged? || (!logged && (at.Fetched? || at.Applied?))
  }

  function Covers(a: A.State, ins: map<nat, Ins>): map<nat, Cover> {
    map p | p in a.holder && InPhase(a, ins, p, true) :: CoverBy(HolderOf(a, ins, p))
  }

  /** The insertion that has the page. */
  function HolderOf(a: A.State, ins: map<nat, Ins>, p: nat): Option<Ins> {
    if p in a.holder && a.holder[p] in ins then Some(ins[a.holder[p]]) else None
  }

  function CoverBy(i: Option<Ins>): Cover {
    if i.Some? && i.value.at.Logged? then Cover(i.value.at.off, i.value.raw) else Cover(0, [])
  }

  /** The pages insertions have a reference to. */
  function Busy(a: A.State, ins: map<nat, Ins>): set<nat> {
    set p | p in a.holder && InPhase(a, ins, p, false)
  }

  function Used(users: map<nat, Addr>): set<nat> {
    set t | t in users :: users[t].pgno
  }

  /** The pages somebody has a reference to. */
  function Held(s: State): set<nat> {
    s.pinned + Used(s.users) + Busy(s.a, s.ins)
  }

  /** The page is written back if the release left it unheld. */
  function WriteBack(s: State, p: nat): State
    requires p in s.mem
  {
    if p in Held(s) then s else s.(disk := s.disk[p := s.mem[p]])
  }

  /* ----- which operations make sense when ----- */

  predicate InsertsIn(s: State, t: nat) {
    t in s.ins && t in s.a.own
  }

  predicate HasPage(s: State, t: nat) {
    && InsertsIn(s, t) && s.a.own[t].Holding? && s.a.own[t].pgno in s.mem && s.a.own[t].pgno in s.a.free
    && |s.mem[s.a.own[t].pgno]| == PAGE_SIZE
  }

  predicate Uses(s: State, t: nat) {
    && t in s.users && s.users[t].pgno in s.mem && |s.mem[s.users[t].pgno]| == PAGE_SIZE
    && s.users[t] in s.vals && s.users[t].off + 3 + |s.vals[s.users[t]]| <= PAGE_SIZE
  }

  predicate Writes(s: State, t: nat) {
    Uses(s, t) && s.users[t] in s.locks && s.locks[s.users[t]].owner == t
  }

  /** A selection is set aside only where it would give a large item a page that is too small for it. */
  predicate Legal(s: State, op: Op) {
    match op
    case Begin(t, _, _) => t !in s.ins
    case Seek(t) =>
      && InsertsIn(s, t) && s.a.own[t].Seeking? && s.a.own[t].tries < A.TRIES
      && Roomy(s.a.lists, s.a.own[t].size)
    case Grow(t) => InsertsIn(s, t) && s.a.own[t].Growing?
    case Shelve(t) => InsertsIn(s, t) && s.a.own[t].Fresh?
    case GiveUp(t) => InsertsIn(s, t) && s.a.own[t].Seeking? && s.a.own[t].tries >= A.TRIES
    case Fetch(t) => HasPage(s, t) && s.ins[t].at.Seeks?
    case FetchFail(t) => HasPage(s, t) && s.ins[t].at.Seeks? && Bucket(s.a.own[t].listed) <= INTERVALS
    case Log(t) => HasPage(s, t) && s.ins[t].at.Fetched?
    case LogFail(t) => HasPage(s, t) && s.ins[t].at.Fetched? && Bucket(s.a.free[s.a.own[t].pgno]) <= INTERVALS
    case Apply(t) =>
      && HasPage(s, t) && s.ins[t].at.Logged? && |s.ins[t].raw| >= 3
      && Fso(s.mem[s.a.own[t].pgno]) + |s.ins[t].raw| <= PAGE_SIZE
      && s.a.own[t].size <= s.a.free[s.a.own[t].pgno]
    case Release(t) => HasPage(s, t) && s.ins[t].at.Applied?
    case Return(t) => HasPage(s, t) && s.ins[t].at.Released? && Bucket(s.a.free[s.a.own[t].pgno]) <= INTERVALS
    case Open(t, u) => t !in s.users && u in s.vals
    case Before(t) => Uses(s, t) && s.users[t] !in s.locks
    case Modify(t, data) => Writes(s, t) && |data| == |s.vals[s.users[t]]|
    case UnBefore(t) => Writes(s, t) && |s.locks[s.users[t]].was| == 3 + |s.vals[s.users[t]]|
    case After(t, _) => Writes(s, t) && |s.locks[s.users[t]].was| == 3 + |s.vals[s.users[t]]|
    case Close(t) => Uses(s, t) && !Writes(s, t)
  }

  /* ----- the steps ----- */

  function To(s: State, t: nat, at: Phase): map<nat, Ins>
    requires t in s.ins
  {
    s.ins[t := Ins(s.ins[t].xid, s.ins[t].raw, at)]
  }

  function Step(s: State, op: Op): State
    requires Legal(s, op)
  {
    match op
    case Begin(t, xid, data) =>
      var raw := Wrap(data);
      if |raw| > MAX_FREE then s.(ins := s.ins[t := Ins(xid, raw, Failed)])
      else s.(a := A.Begin(s.a, t, |raw|), ins := s.ins[t := Ins(xid, raw, Seeks)])
    case Seek(t) => s.(a := A.Seek(s.a, t))
    case Grow(t) =>
      var p := s.a.noPages + 1;
      s.(a := A.Grow(s.a, t), mem := s.mem[p := InitPage()], disk := s.disk[p := InitPage()])
    case Shelve(t) => s.(a := A.Shelve(s.a, t))
    case GiveUp(t) => s.(a := A.Leave(s.a, t), ins := To(s, t, Failed))
    case Fetch(t) => s.(ins := To(s, t, Fetched))
    case FetchFail(t) => s.(a := A.Restore(s.a, t), ins := To(s, t, Failed))
    case Log(t) =>
      var p := s.a.own[t].pgno;
      var off := Fso(s.mem[p]);
      s.(log := s.log + [Insertion(s.ins[t].xid, p, off, s.ins[t].raw)], ins := To(s, t, Logged(off)))
    case LogFail(t) =>
      s.(a := A.Return(s.a, t), ins := To(s, t, Failed), pinned := s.pinned + {s.a.own[t].pgno})
    case Apply(t) =>
      var p, raw := s.a.own[t].pgno, s.ins[t].raw;
      var off := Fso(s.mem[p]);
      s.(mem := s.mem[p := PxInsert(s.mem[p], raw)], a := A.Use(s.a, t), ins := To(s, t, Applied(off)),
         vals := s.vals[Addr(p, off) := raw[3..]])
    case Release(t) =>
      WriteBack(s.(ins := To(s, t, Released(s.ins[t].at.off))), s.a.own[t].pgno)
    case Return(t) =>
      s.(a := A.Return(s.a, t), ins := To(s, t, Done(Addr(s.a.own[t].pgno, s.ins[t].at.off))))
    case Open(t, u) => s.(users := s.users[t := u])
    case Before(t) =>
      var u := s.users[t];
      s.(locks := s.locks[u := Lock(t, RawAt(s.mem[u.pgno], u.off))])
    case Modify(t, data) =>
      var u := s.users[t];
      s.(mem := s.mem[u.pgno := Splice(s.mem[u.pgno], u.off + 3, data)], vals := s.vals[u := data])
    case UnBefore(t) =>
      var u := s.users[t];
      var was := s.locks[u].was;
      s.(mem := s.mem[u.pgno := Splice(s.mem[u.pgno], u.off, was)], locks := s.locks - {u}, vals := s.vals[u := was[3..]])
    case After(t, xid) =>
      var u := s.users[t];
      var was := s.locks[u].was;
      var now := s.mem[u.pgno][u.off..u.off + |was|];
      s.(log := s.log + [Update(xid, u.pgno, u.off, was, now)], locks := s.locks - {u})
    case Close(t) =>
      WriteBack(s.(users := s.users - {t}), s.users[t].pgno)
  }

  /* ----- the invariant ----- */

  ghost predicate Sized(noPages: nat, free: map<nat, nat>, mem: Pages, disk: Pages) {
    && (forall p :: p in mem <==> 1 <= p <= noPages)
    && (forall p :: p in disk <==> 1 <= p <= noPages)
    && AllPages(mem) && AllPages(disk)
    && (forall p :: p in free <==> 2 <= p <= noPages)
    && (forall p :: p in free ==> ValidFso(Fso(mem[p])) && free[p] == PAGE_SIZE - Fso(mem[p]))
  }

  /** The log is well formed, names data pages, and every inserted item ends before the free space. */
  ghost predicate LogOk(noPages: nat, log: seq<Rec>) {
    && WellFormed(log)
    && (forall i :: 0 <= i < |log| ==> 2 <= log[i].pgno <= noPages)
    && (forall i :: 0 <= i < |log| && log[i].Insertion? ==>
          log[i].off + |log[i].raw| <= Fso(Replay(log, log[i].pgno)))
  }

  predicate InItem(u: Addr, v: seq<Byte>, p: nat, k: int) {
    u.pgno == p && u.off <= k < u.off + 3 + |v|
  }

  predicate InCover(cov: map<nat, Cover>, p: nat, k: int) {
    p in cov && (k < 2 || cov[p].off <= k < cov[p].off + |cov[p].raw|)
  }

  /** Byte `k` of page `p` belongs to a change that is under way. */
  ghost predicate UnderWay(cov: map<nat, Cover>, locks: map<Addr, Lock>, vals: map<Addr, seq<Byte>>, p: nat, k: int) {
    InCover(cov, p, k) || exists u :: u in locks && u in vals && InItem(u, vals[u], p, k)
  }

  /** Everything else on the page is just what the log says. */
  ghost predicate SyncedPage(now: seq<Byte>, logged: seq<Byte>, cov: map<nat, Cover>, locks: map<Addr, Lock>,
                             vals: map<Addr, seq<Byte>>, p: nat)
    requires |now| == PAGE_SIZE && |logged| == PAGE_SIZE
  {
    forall k :: 0 <= k < PAGE_SIZE && !UnderWay(cov, locks, vals, p, k) ==> now[k] == logged[k]
  }

  ghost predicate Synced(mem: Pages, log: seq<Rec>, free: map<nat, nat>, cov: map<nat, Cover>, locks: map<Addr, Lock>,
                         vals: map<Addr, seq<Byte>>)
  {
    forall p :: p in free ==> p in mem && |mem[p]| == PAGE_SIZE && SyncedPage(mem[p], Replay(log, p), cov, locks, vals, p)
  }

  /** A logged insertion is on the page of the log, at the free space of the page in memory. */
  ghost predicate CoverOk(pg: seq<Byte>, logged: seq<Byte>, c: Cover)
    requires |pg| == PAGE_SIZE && |logged| == PAGE_SIZE
  {
    && 2 <= c.off == Fso(pg) && c.off + |c.raw| <= PAGE_SIZE
    && Fso(logged) == c.off + |c.raw| && logged[c.off..c.off + |c.raw|] == c.raw
  }

  ghost predicate CoverHolds(mem: Pages, log: seq<Rec>, free: map<nat, nat>, p: nat, c: Cover) {
    && p in free && p in mem && |mem[p]| == PAGE_SIZE && CoverOk(mem[p], Replay(log, p), c)
    && Inserted(log, Item(p, c.off, |c.raw|))
  }

  ghost predicate CoversOk(mem: Pages, log: seq<Rec>, free: map<nat, nat>, cov: map<nat, Cover>) {
    forall p :: p in cov ==> CoverHolds(mem, log, free, p, cov[p])
  }

  /** The item at `u` holds `v`, in front of the free space. */
  ghost predicate ValOk(u: Addr, v: seq<Byte>, pg: seq<Byte>)
    requires |pg| == PAGE_SIZE
  {
    && 2 <= u.off && u.off + 3 + |v| <= Fso(pg) <= PAGE_SIZE
    && pg[u.off..u.off + 3 + |v|] == Wrap(v)
  }

  ghost predicate Inserted(log: seq<Rec>, it: Item) {
    exists i :: InsertsAt(log, i, it)
  }

  ghost predicate ValsOk(vals: map<Addr, seq<Byte>>, mem: Pages, free: map<nat, nat>) {
    forall u :: u in vals ==>
      u.pgno in free && u.pgno in mem && |mem[u.pgno]| == PAGE_SIZE && ValOk(u, vals[u], mem[u.pgno])
  }

  ghost predicate ValsLogged(vals: map<Addr, seq<Byte>>, log: seq<Rec>) {
    forall u :: u in vals ==> Inserted(log, Place(u, vals[u]))
  }

  ghost predicate ValsApart(vals: map<Addr, seq<Byte>>) {
    forall u, v :: u in vals && v in vals && u != v ==> Apart(Place(u, vals[u]), Place(v, vals[v]))
  }

  /** An item being changed has its old image in the log, and its changer holds it. */
  ghost predicate LockOk(u: Addr, l: Lock, v: seq<Byte>, logged: seq<Byte>)
    requires |logged| == PAGE_SIZE
  {
    && |l.was| == 3 + |v| && l.was == Wrap(l.was[3..])
    && 2 <= u.off && u.off + |l.was| <= PAGE_SIZE
    && logged[u.off..u.off + |l.was|] == l.was
  }

  ghost predicate LocksOk(locks: map<Addr, Lock>, vals: map<Addr, seq<Byte>>, log: seq<Rec>) {
    forall u :: u in locks ==> u in vals && LockOk(u, locks[u], vals[u], Replay(log, u.pgno))
  }

  ghost predicate UsersOk(users: map<nat, Addr>, locks: map<Addr, Lock>, vals: map<Addr, seq<Byte>>) {
    && (forall t :: t in users ==> users[t] in vals)
    && (forall u :: u in locks ==> locks[u].owner in users && users[locks[u].owner] == u)
  }

  ghost predicate Flies(o: A.Own, i: Ins, free: map<nat, nat>, vals: map<Addr, seq<Byte>>) {
    && o.size == |i.raw| && 3 <= |i.raw| <= MAX_FREE && i.raw == Wrap(i.raw[3..])
    && !i.at.Done? && !i.at.Failed?
    && (!i.at.Seeks? ==> o.Holding?)
    && (o.Holding? ==> o.pgno in free)
    && (o.Holding? && i.at.Seeks? ==> o.listed == free[o.pgno])
    && (o.Holding? && (i.at.Seeks? || i.at.Fetched? || i.at.Logged?) ==> |i.raw| <= free[o.pgno])
    && (i.at.Applied? || i.at.Released? ==> Addr(o.pgno, i.at.off) in vals)
  }

  ghost predicate InsOk(own: map<nat, A.Own>, free: map<nat, nat>, ins: map<nat, Ins>, vals: map<Addr, seq<Byte>>) {
    && (forall t :: t in own ==> t in ins && Flies(own[t], ins[t], free, vals))
    && (forall t :: t in ins && t !in own ==> ins[t].at.Failed? || (ins[t].at.Done? && ins[t].at.addr in vals))
  }

  /** The page on disk is what some prefix of the log says. */
  ghost predicate OnDisk(pg: seq<Byte>, log: seq<Rec>, p: nat) {
    exists n :: 0 <= n <= |log| && pg == Replay(log[..n], p)
  }

  ghost predicate DiskOk(mem: Pages, disk: Pages, log: seq<Rec>, free: map<nat, nat>, held: set<nat>) {
    forall p :: p in free ==> p in mem && p in disk && OnDisk(disk[p], log, p) && (p !in held ==> disk[p] == mem[p])
  }

  ghost predicate Core(s: State) {
    && A.Inv(s.a)
    && Sized(s.a.noPages, s.a.free, s.mem, s.disk)
    && LogOk(s.a.noPages, s.log)
    && Synced(s.mem, s.log, s.a.free, Covers(s.a, s.ins), s.locks, s.vals)
    && CoversOk(s.mem, s.log, s.a.free, Covers(s.a, s.ins))
    && ValsOk(s.vals, s.mem, s.a.free) && ValsLogged(s.vals, s.log) && ValsApart(s.vals)
    && LocksOk(s.locks, s.vals, s.log)
    && UsersOk(s.users, s.locks, s.vals)
    && InsOk(s.a.own, s.a.free, s.ins, s.vals)
  }

  ghost predicate Inv(s: State) {
    Core(s) && DiskOk(s.mem, s.disk, s.log, s.a.free, Held(s))
  }

  /* ----- steps that touch neither pages nor log ----- */

  lemma DiskMonotone(mem: Pages, disk: Pages, log: seq<Rec>, free: map<nat, nat>, held: set<nat>, more: set<nat>)
    requires DiskOk(mem, disk, log, free, held) && held <= more
    ensures DiskOk(mem, disk, log, free, more)
  {
  }

  lemma QuietStep(s: State, s1: State)
    requires Inv(s) && A.Inv(s1.a)
    requires s1.a.noPages == s.a.noPages && s1.a.free == s.a.free
    requires s1.mem == s.mem && s1.disk == s.disk && s1.log == s.log && s1.locks == s.locks && s1.vals == s.vals
    requires Covers(s1.a, s1.ins) == Covers(s.a, s.ins) && Held(s) <= Held(s1)
    requires UsersOk(s1.users, s1.locks, s1.vals) && InsOk(s1.a.own, s1.a.free, s1.ins, s1.vals)
    ensures Inv(s1)
  {
    DiskMonotone(s.mem, s.disk, s.log, s.a.free, Held(s), Held(s1));
  }

  /** Only insertion `t` may be at another point. */
  ghost predicate Others(ins: map<nat, Ins>, ins1: map<nat, Ins>, t: nat) {
    forall v :: v != t ==> (v in ins1 <==> v in ins) && (v in ins ==> ins1[v] == ins[v])
  }

  ghost predicate SameHolders(holder: map<nat, nat>, holder1: map<nat, nat>, t: nat) {
    && (forall p :: p in holder && holder[p] != t ==> p in holder1 && holder1[p] == holder[p])
    && (forall p :: p in holder1 && holder1[p] != t ==> p in holder && holder1[p] == holder[p])
  }

  /** `t` has no reference to a page. */
  predicate Idle(ins: map<nat, Ins>, t: nat) {
    t in ins ==> !ins[t].at.Fetched? && !ins[t].at.Logged? && !ins[t].at.Applied?
  }

  lemma PhasesFrame(a: A.State, ins: map<nat, Ins>, a1: A.State, ins1: map<nat, Ins>, t: nat)
    requires SameHolders(a.holder, a1.holder, t) && Others(ins, ins1, t) && Idle(ins, t) && Idle(ins1, t)
    ensures Covers(a1, ins1) == Covers(a, ins) && Busy(a1, ins1) == Busy(a, ins)
  {
    forall p, logged
      ensures InPhase(a1, ins1, p, logged) <==> InPhase(a, ins, p, logged)
      ensures InPhase(a, ins, p, logged) ==> HolderOf(a1, ins1, p) == HolderOf(a, ins, p)
    {
      PhaseSame(a, ins, a1, ins1, t, p, logged);
    }
    CoversSame(a, ins, a1, ins1);
    BusySame(a, ins, a1, ins1);
  }

  ghost predicate SamePhases(a: A.State, ins: map<nat, Ins>, a1: A.State, ins1: map<nat, Ins>) {
    && (forall p, logged :: InPhase(a1, ins1, p, logged) <==> InPhase(a, ins, p, logged))
    && (forall p, logged :: InPhase(a, ins, p, logged) ==> HolderOf(a1, ins1, p) == HolderOf(a, ins, p))
  }

  lemma CoversSame(a: A.State, ins: map<nat, Ins>, a1: A.State, ins1: map<nat, Ins>)
    requires SamePhases(a, ins, a1, ins1)
    ensures Covers(a1, ins1) == Covers(a, ins)
  {
    assert forall p :: p in Covers(a1, ins1) <==> InPhase(a1, ins1, p, true);
    assert forall p :: p in Covers(a, ins) <==> InPhase(a, ins, p, true);
    assert forall p :: InPhase(a, ins, p, true) ==> HolderOf(a1, ins1, p) == HolderOf(a, ins, p);
  }

  lemma BusySame(a: A.State, ins: map<nat, Ins>, a1: A.State, ins1: map<nat, Ins>)
    requires SamePhases(a, ins, a1, ins1)
    ensures Busy(a1, ins1) == Busy(a, ins)
  {
    forall p ensures p in Busy(a1, ins1) <==> p in Busy(a, ins) {
      assert InPhase(a1, ins1, p, false) <==> InPhase(a, ins, p, false);
    }
  }

  lemma PhaseSame(a: A.State, ins: map<nat, Ins>, a1: A.State, ins1: map<nat, Ins>, t: nat, p: nat, logged: bool)
    requires SameHolders(a.holder, a1.holder, t) && Others(ins, ins1, t) && Idle(ins, t) && Idle(ins1, t)
    ensures InPhase(a1, ins1, p, logged) <==> InPhase(a, ins, p, logged)
    ensures InPhase(a, ins, p, logged) ==> HolderOf(a1, ins1, p) == HolderOf(a, ins, p)
  {
    if p in a.holder && a.holder[p] != t {
      assert p in a1.holder && a1.holder[p] == a.holder[p];
    }
  }

  lemma InsFrame(own: map<nat, A.Own>, own1: map<nat, A.Own>, free: map<nat, nat>, ins: map<nat, Ins>, ins1: map<nat, Ins>,
                 vals: map<Addr, seq<Byte>>, t: nat)
    requires InsOk(own, free, ins, vals) && A.Others(own, own1, t) && Others(ins, ins1, t)
    requires t in own1 ==> t in ins1 && Flies(own1[t], ins1[t], free, vals)
    requires t in ins1 && t !in own1 ==> ins1[t].at.Failed? || (ins1[t].at.Done? && ins1[t].at.addr in vals)
    ensures InsOk(own1, free, ins1, vals)
  {
  }

  /** A move of insertion `t` outside the stretch in which it has a reference to its page. */
  ghost predicate IdleMove(a: A.State, ins: map<nat, Ins>, a1: A.State, ins1: map<nat, Ins>, vals: map<Addr, seq<Byte>>, t: nat) {
    && A.Inv(a1) && a1.noPages == a.noPages && a1.free == a.free
    && SameHolders(a.holder, a1.holder, t) && A.Others(a.own, a1.own, t) && Others(ins, ins1, t)
    && Idle(ins, t) && Idle(ins1, t)
    && (t in a1.own ==> t in ins1 && Flies(a1.own[t], ins1[t], a.free, vals))
    && (t in ins1 && t !in a1.own ==> ins1[t].at.Failed? || (ins1[t].at.Done? && ins1[t].at.addr in vals))
  }

  lemma IdleStep(s: State, s1: State, t: nat)
    requires Inv(s) && s1 == s.(a := s1.a, ins := s1.ins)
    requires IdleMove(s.a, s.ins, s1.a, s1.ins, s.vals, t)
    ensures Inv(s1)
  {
    PhasesFrame(s.a, s.ins, s1.a, s1.ins, t);
    InsFrame(s.a.own, s1.a.own, s.a.free, s.ins, s1.ins, s.vals, t);
    QuietStep(s, s1);
  }

  lemma BeginMove(a: A.State, ins: map<nat, Ins>, vals: map<Addr, seq<Byte>>, t: nat, i: Ins)
    requires A.Inv(a) && t !in a.own && t !in ins && i.at.Seeks? && 3 <= |i.raw| <= MAX_FREE && i.raw == Wrap(i.raw[3..])
    ensures IdleMove(a, ins, A.Begin(a, t, |i.raw|), ins[t := i], vals, t)
  {
    A.BeginKeeps(a, t, |i.raw|);
  }

  lemma RefuseMove(a: A.State, ins: map<nat, Ins>, vals: map<Addr, seq<Byte>>, t: nat, i: Ins)
    requires A.Inv(a) && t !in a.own && t !in ins && i.at.Failed?
    ensures IdleMove(a, ins, a, ins[t := i], vals, t)
  {
  }

  lemma SeekMove(a: A.State, ins: map<nat, Ins>, vals: map<Addr, seq<Byte>>, t: nat)
    requires A.Inv(a) && t in a.own && a.own[t].Seeking? && t in ins && Flies(a.own[t], ins[t], a.free, vals)
    requires Roomy(a.lists, a.own[t].size)
    ensures IdleMove(a, ins, A.Seek(a, t), ins, vals, t)
  {
    A.SeekKeeps(a, t);
    SeekOthers(a, t);
    SeekFlies(a, ins[t], vals, t);
  }

  lemma SeekOthers(a: A.State, t: nat)
    requires A.Counts(Multi(a.lists), a.free, a.holder) && t in a.own && a.own[t].Seeking?
    ensures var a1 := A.Seek(a, t);
            && a1.noPages == a.noPages && a1.free == a.free && t in a1.own
            && A.Others(a.own, a1.own, t) && SameHolders(a.holder, a1.holder, t)
  {
    SelectMeans(a.lists, a.own[t].size);
  }

  lemma SeekFlies(a: A.State, i: Ins, vals: map<Addr, seq<Byte>>, t: nat)
    requires A.Inv(a) && t in a.own && a.own[t].Seeking? && Flies(a.own[t], i, a.free, vals) && Roomy(a.lists, a.own[t].size)
    ensures Flies(A.Seek(a, t).own[t], i, a.free, vals)
  {
    if A.Seek(a, t).own[t].Holding? {
      A.SeekFits(a, t);
    }
  }

  /** Giving a page away changes no other insertion's page. */
  lemma GivesUpOwn(a: A.State, t: nat, p: nat)
    requires A.Agree(a.own, a.holder) && t in a.own && A.Has(a.own[t], p)
    ensures SameHolders(a.holder, a.holder - {p}, t) && p in a.holder && a.holder[p] == t
  {
  }

  lemma ShelveMove(a: A.State, ins: map<nat, Ins>, vals: map<Addr, seq<Byte>>, t: nat)
    requires A.Inv(a) && t in a.own && a.own[t].Fresh? && t in ins && Flies(a.own[t], ins[t], a.free, vals)
    ensures IdleMove(a, ins, A.Shelve(a, t), ins, vals, t)
  {
    A.ShelveKeeps(a, t);
    GivesUpOwn(a, t, a.own[t].pgno);
  }

  lemma LeaveMove(a: A.State, ins: map<nat, Ins>, vals: map<Addr, seq<Byte>>, t: nat, i: Ins)
    requires A.Inv(a) && t in a.own && a.own[t].Seeking? && t in ins && Flies(a.own[t], ins[t], a.free, vals) && i.at.Failed?
    ensures IdleMove(a, ins, A.Leave(a, t), ins[t := i], vals, t)
  {
    A.LeaveKeeps(a, t);
  }

  lemma ReturnMove(a: A.State, ins: map<nat, Ins>, vals: map<Addr, seq<Byte>>, t: nat, i: Ins)
    requires A.Inv(a) && t in a.own && a.own[t].Holding? && t in ins && Idle(ins, t)
    requires i.at.Failed? || (i.at.Done? && i.at.addr in vals)
    ensures a.own[t].pgno in a.free && Bucket(a.free[a.own[t].pgno]) <= INTERVALS
    ensures IdleMove(a, ins, A.Return(a, t), ins[t := i], vals, t)
  {
    A.ReturnKeeps(a, t);
    ReturnOthers(a, t);
  }

  lemma ReturnOthers(a: A.State, t: nat)
    requires A.Agree(a.own, a.holder) && t in a.own && a.own[t].Holding?
    requires a.own[t].pgno in a.free && Bucket(a.free[a.own[t].pgno]) <= INTERVALS
    ensures var a1 := A.Return(a, t);
            && a1.noPages == a.noPages && a1.free == a.free && t !in a1.own
            && A.Others(a.own, a1.own, t) && SameHolders(a.holder, a1.holder, t)
  {
    GivesUpOwn(a, t, a.own[t].pgno);
  }

  lemma BeginKeeps(s: State, t: nat, xid: nat, data: seq<Byte>, s1: State)
    requires Inv(s) && t !in s.ins && |Wrap(data)| <= MAX_FREE
    requires s1 == s.(a := A.Begin(s.a, t, |Wrap(data)|), ins := s.ins[t := Ins(xid, Wrap(data), Seeks)])
    ensures Inv(s1)
  {
    assert t !in s.a.own;
    assert Wrap(data)[3..] == data;
    BeginMove(s.a, s.ins, s.vals, t, s1.ins[t]);
    IdleStep(s, s1, t);
  }

  lemma TooLargeKeeps(s: State, t: nat, xid: nat, raw: seq<Byte>, s1: State)
    requires Inv(s) && t !in s.ins && s1 == s.(ins := s.ins[t := Ins(xid, raw, Failed)])
    ensures Inv(s1)
  {
    assert t !in s.a.own;
    RefuseMove(s.a, s.ins, s.vals, t, s1.ins[t]);
    IdleStep(s, s1, t);
  }

  lemma SeekKeeps(s: State, t: nat, s1: State)
    requires Inv(s) && t in s.a.own && s.a.own[t].Seeking? && Roomy(s.a.lists, s.a.own[t].size) && s1 == s.(a := A.Seek(s.a, t))
    ensures Inv(s1)
  {
    SeekMove(s.a, s.ins, s.vals, t);
    IdleStep(s, s1, t);
  }

  lemma ShelveKeeps(s: State, t: nat, s1: State)
    requires Inv(s) && t in s.a.own && s.a.own[t].Fresh? && s1 == s.(a := A.Shelve(s.a, t))
    ensures Inv(s1)
  {
    ShelveMove(s.a, s.ins, s.vals, t);
    IdleStep(s, s1, t);
  }

  lemma GiveUpKeeps(s: State, t: nat, s1: State)
    requires Inv(s) && t in s.a.own && s.a.own[t].Seeking?
    requires t in s.ins && s1 == s.(a := A.Leave(s.a, t), ins := To(s, t, Failed))
    ensures Inv(s1)
  {
    LeaveMove(s.a, s.ins, s.vals, t, s1.ins[t]);
    IdleStep(s, s1, t);
  }

  lemma RestoreIsReturn(a: A.State, i: Ins, vals: map<Addr, seq<Byte>>, t: nat)
    requires t in a.own && a.own[t].Holding? && Bucket(a.own[t].listed) <= INTERVALS
    requires i.at.Seeks? && Flies(a.own[t], i, a.free, vals)
    ensures A.Restore(a, t) == A.Return(a, t)
  {
  }

  lemma FetchFailKeeps(s: State, t: nat, s1: State)
    requires Inv(s) && t in s.a.own && s.a.own[t].Holding? && t in s.ins && s.ins[t].at.Seeks?
    requires Bucket(s.a.own[t].listed) <= INTERVALS
    requires s1 == s.(a := A.Restore(s.a, t), ins := To(s, t, Failed))
    ensures Inv(s1)
  {
    RestoreIsReturn(s.a, s.ins[t], s.vals, t);
    ReturnMove(s.a, s.ins, s.vals, t, s1.ins[t]);
    IdleStep(s, s1, t);
  }

  lemma ReturnKeeps(s: State, t: nat, s1: State)
    requires Inv(s) && t in s.a.own && s.a.own[t].Holding? && t in s.ins && s.ins[t].at.Released?
    requires s.a.own[t].pgno in s.a.free && Bucket(s.a.free[s.a.own[t].pgno]) <= INTERVALS
    requires s1 == s.(a := A.Return(s.a, t), ins := To(s, t, Done(Addr(s.a.own[t].pgno, s.ins[t].at.off))))
    ensures Inv(s1)
  {
    assert Flies(s.a.own[t], s.ins[t], s.a.free, s.vals);
    ReturnMove(s.a, s.ins, s.vals, t, s1.ins[t]);
    IdleStep(s, s1, t);
  }

  lemma OpenKeeps(s: State, t: nat, u: Addr, s1: State)
    requires Inv(s) && t !in s.users && u in s.vals && s1 == s.(users := s.users[t := u])
    ensures Inv(s1)
  {
    UsersOpen(s.users, s.locks, s.vals, t, u);
    QuietStep(s, s1);
  }

  lemma UsersOpen(users: map<nat, Addr>, locks: map<Addr, Lock>, vals: map<Addr, seq<Byte>>, t: nat, u: Addr)
    requires UsersOk(users, locks, vals) && t !in users && u in vals
    ensures UsersOk(users[t := u], locks, vals) && Used(users) <= Used(users[t := u])
  {
    var users1 := users[t := u];
    forall p | p in Used(users) ensures p in Used(users1) {
      var v :| v in users && users[v].pgno == p;
      assert v in users1 && users1[v].pgno == p;
    }
  }

  /** The pages in use while `t` goes from one phase with a page to another. */
  lemma PhaseMoves(a: A.State, ins: map<nat, Ins>, ins1: map<nat, Ins>, t: nat, p: nat)
    requires A.Agree(a.own, a.holder) && t in a.own && A.Has(a.own[t], p) && Others(ins, ins1, t)
    requires t in ins && t in ins1
    ensures p in a.holder && a.holder[p] == t
    ensures forall q, logged :: q != p ==> (InPhase(a, ins1, q, logged) <==> InPhase(a, ins, q, logged))
    ensures Busy(a, ins1) - {p} == Busy(a, ins) - {p} && Covers(a, ins1) - {p} == Covers(a, ins) - {p}
    ensures p in Busy(a, ins1) <==> !Idle(ins1, t)
    ensures p in Covers(a, ins1) <==> ins1[t].at.Logged?
    ensures ins1[t].at.Logged? ==> Covers(a, ins1)[p] == Cover(ins1[t].at.off, ins1[t].raw)
  {
    forall q, logged | q != p && q in a.holder ensures InPhase(a, ins1, q, logged) <==> InPhase(a, ins, q, logged) {
      assert A.Has(a.own[a.holder[q]], q);
      assert a.holder[q] != t;
    }
  }

  /** From seeking to fetched: the page is now referred to, and nothing is logged yet. */
  lemma FetchMove(a: A.State, ins: map<nat, Ins>, ins1: map<nat, Ins>, free: map<nat, nat>, vals: map<Addr, seq<Byte>>, t: nat)
    requires A.Agree(a.own, a.holder) && t in a.own && a.own[t].Holding? && t in ins && ins[t].at.Seeks?
    requires InsOk(a.own, free, ins, vals) && ins1 == ins[t := Ins(ins[t].xid, ins[t].raw, Fetched)]
    ensures InsOk(a.own, free, ins1, vals) && Covers(a, ins1) == Covers(a, ins) && Busy(a, ins) <= Busy(a, ins1)
  {
    var p := a.own[t].pgno;
    PhaseMoves(a, ins, ins1, t, p);
    PhaseMoves(a, ins, ins, t, p);
    assert Covers(a, ins1) == Covers(a, ins1) - {p};
    assert Covers(a, ins) == Covers(a, ins) - {p};
    assert Flies(a.own[t], ins[t], free, vals);
    InsFrame(a.own, a.own, free, ins, ins1, vals, t);
  }

  lemma FetchKeeps(s: State, t: nat, s1: State)
    requires Inv(s) && t in s.a.own && s.a.own[t].Holding? && t in s.ins && s.ins[t].at.Seeks?
    requires s1 == s.(ins := To(s, t, Fetched))
    ensures Inv(s1)
  {
    FetchMove(s.a, s.ins, s1.ins, s.a.free, s.vals, t);
    QuietStep(s, s1);
  }

  /** A failed log write: the page goes back to the index, and its reference is never given up. */
  lemma LogFailMove(a: A.State, ins: map<nat, Ins>, a1: A.State, ins1: map<nat, Ins>, vals: map<Addr, seq<Byte>>, t: nat)
    requires A.Inv(a) && t in a.own && a.own[t].Holding? && t in ins && ins[t].at.Fetched?
    requires InsOk(a.own, a.free, ins, vals) && ins1 == ins[t := Ins(ins[t].xid, ins[t].raw, Failed)]
    requires a.own[t].pgno in a.free && Bucket(a.free[a.own[t].pgno]) <= INTERVALS && a1 == A.Return(a, t)
    ensures A.Inv(a1) && InsOk(a1.own, a1.free, ins1, vals)
    ensures Covers(a1, ins1) == Covers(a, ins) && Busy(a, ins) <= Busy(a1, ins1) + {a.own[t].pgno}
  {
    A.ReturnKeeps(a, t);
    ReturnOthers(a, t);
    InsFrame(a.own, a1.own, a.free, ins, ins1, vals, t);
    GiveFetched(a, ins, a1, ins1, t, a.own[t].pgno);
  }

  lemma GiveFetched(a: A.State, ins: map<nat, Ins>, a1: A.State, ins1: map<nat, Ins>, t: nat, p: nat)
    requires A.Agree(a.own, a.holder) && t in a.own && A.Has(a.own[t], p) && t in ins && ins[t].at.Fetched?
    requires ins1 == ins[t := Ins(ins[t].xid, ins[t].raw, Failed)] && a1.holder == a.holder - {p}
    ensures Covers(a1, ins1) == Covers(a, ins) && Busy(a, ins) <= Busy(a1, ins1) + {p}
  {
    forall q, logged | q != p ensures InPhase(a1, ins1, q, logged) <==> InPhase(a, ins, q, logged) {
      assert q in a.holder ==> A.Has(a.own[a.holder[q]], q) && a.holder[q] != t;
    }
  }

  lemma LogFailKeeps(s: State, t: nat, s1: State)
    requires Inv(s) && t in s.a.own && s.a.own[t].Holding? && t in s.ins && s.ins[t].at.Fetched?
    requires s.a.own[t].pgno in s.a.free && Bucket(s.a.free[s.a.own[t].pgno]) <= INTERVALS
    requires s1 == s.(a := A.Return(s.a, t), ins := To(s, t, Failed), pinned := s.pinned + {s.a.own[t].pgno})
    ensures Inv(s1)
  {
    LogFailMove(s.a, s.ins, s1.a, s1.ins, s.vals, t);
    FailHeld(s, s1, s.a.own[t].pgno);
    FailSame(s.a, t);
    QuietStep(s, s1);
  }

  lemma FailHeld(s: State, s1: State, p: nat)
    requires s1.pinned == s.pinned + {p} && s1.users == s.users && Busy(s.a, s.ins) <= Busy(s1.a, s1.ins) + {p}
    ensures Held(s) <= Held(s1)
  {
  }

  lemma FailSame(a: A.State, t: nat)
    requires t in a.own && a.own[t].Holding? && a.own[t].pgno in a.free && Bucket(a.free[a.own[t].pgno]) <= INTERVALS
    ensures A.Return(a, t).noPages == a.noPages && A.Return(a, t).free == a.free
  {
  }
}
