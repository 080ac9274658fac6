/**
 * The data manager's pages live in the page cache: every step of `DataRuns` is what some sections of
 * the cache do, so that a page reaches the file just when the cache writes it back.
 */
module CacheRefinement {
  import opened Types
  import opened Bytes
  import opened Recovery
  import opened DataItems
  import opened PageIndex
  import opened DataRuns
  import opened DataSteps
  import A = Allocation
  import C = PageCaching
  import F = PageFetching
  import P = PageCacher
  import G = DataGuarantees

  type Cache = C.Machine<seq<Byte>>

  /** What the data manager knows of its pages, and who refers to them. */
  datatype Side = Side(mem: Pages, disk: Pages, pages: nat, users: map<nat, Addr>, busy: set<nat>, pinned: set<nat>)

  function SideOf(s: State): Side {
    Side(s.mem, s.disk, s.a.noPages, s.users, Busy(s.a, s.ins), s.pinned)
  }

  function UsersOf(users: map<nat, Addr>, p: nat): set<nat> {
    set t | t in users && users[t].pgno == p
  }

  /** How many calls refer to the page; a reference that was leaked is not among them. */
  function Claims(d: Side, p: nat): nat {
    |UsersOf(d.users, p)| + if p in d.busy then 1 else 0
  }

  predicate Referred(d: Side, p: nat) {
    p in d.pinned || Claims(d, p) > 0
  }

  lemma ReferredIsHeld(s: State, p: nat)
    ensures Referred(SideOf(s), p) <==> p in Held(s)
  {
    UsedIff(s.users, p);
  }

  lemma UsedIff(users: map<nat, Addr>, p: nat)
    ensures p in Used(users) <==> UsersOf(users, p) != {}
  {
    if p in Used(users) {
      var t :| t in users && users[t].pgno == p;
      assert t in UsersOf(users, p);
    }
    if UsersOf(users, p) != {} {
      var t :| t in UsersOf(users, p);
      assert p in Used(users);
    }
  }

  /**
   * The cache behind the data manager's pages: through it the file shows the pages in memory, its
   * file is the disk, and a page has as many references as calls refer to it, and more exactly if
   * one was leaked.
   */
  ghost predicate Backed(d: Side, m: Cache) {
    && P.Kept(m, d.mem) && m.s.getting == map[] && m.s.disk == d.disk && m.s.noPages == d.pages
    && forall p :: Counted(d, m.es, p)
  }

  ghost predicate Counted(d: Side, es: seq<C.Event>, p: nat) {
    && Claims(d, p) <= C.Outstanding(es, p)
    && (Claims(d, p) < C.Outstanding(es, p) <==> p in d.pinned)
  }

  /* ----- what the steps do to the pages ----- */

  datatype Kind =
    | Quiet
    | Takes(p: nat)
    | Drops(p: nat)
    | Writes(p: nat, data: seq<Byte>)
    | Grows(data: seq<Byte>)
    | Leaks(p: nat)

  ghost predicate Claiming(d: Side, d1: Side, p: nat, n: int) {
    forall q :: Claims(d1, q) == Claims(d, q) + if q == p then n else 0
  }

  ghost predicate Shifts(d: Side, d1: Side, k: Kind) {
    match k
    case Quiet => d1 == d
    case Takes(p) => p in d.mem && Claiming(d, d1, p, 1) && d1 == d.(users := d1.users, busy := d1.busy)
    case Drops(p) =>
      && p in d.mem && p in d.disk && Claiming(d, d1, p, -1)
      && d1 == d.(users := d1.users, busy := d1.busy,
                  disk := if Referred(d1, p) then d.disk else d.disk[p := d.mem[p]])
    case Writes(p, data) => Claims(d, p) > 0 && d1 == d.(mem := d.mem[p := data])
    case Grows(data) =>
      var p := d.pages + 1;
      d1 == d.(mem := d.mem[p := data], disk := d.disk[p := data], pages := p)
    case Leaks(p) =>
      Claiming(d, d1, p, -1) && d1 == d.(users := d1.users, busy := d1.busy, pinned := d.pinned + {p})
  }

  /** The sections of the cache that a step runs. */
  ghost function Next(m: Cache, k: Kind): Cache
    requires Ready(m, k)
  {
    match k
    case Quiet => m
    case Takes(p) => var (s, r) := F.Fetch(m.s, p); C.Machine(s, F.FetchEvents(m.es, p, r))
    case Drops(p) => C.Machine(C.ReleaseStep(m.s, p), P.Released(m.s, m.es, p))
    case Writes(p, data) => C.Machine(C.StoreStep(m.s, p, data), m.es)
    case Grows(data) => C.Machine(C.NewPageStep(m.s, data), m.es)
    case Leaks(_) => m
  }

  ghost predicate Ready(m: Cache, k: Kind) {
    match k
    case Takes(p) => p !in m.s.getting
    case Drops(p) => P.Releasable(m.s, p)
    case Writes(p, _) => p in m.s.cache
    case _ => true
  }

  /** The cache has a place for the page if it needs one. */
  predicate Room(m: Cache, k: Kind) {
    k.Takes? ==> k.p in m.s.cache || m.s.max == 0 || |m.s.cache.Keys| + |m.s.getting.Keys| != m.s.max
  }

  /* ----- the cache follows every such shift ----- */

  lemma TakeBacked(d: Side, d1: Side, p: nat, m: Cache)
    requires Backed(d, m) && Shifts(d, d1, Takes(p)) && Room(m, Takes(p))
    ensures Ready(m, Takes(p)) && Backed(d1, Next(m, Takes(p)))
  {
    var (s, r) := F.Fetch(m.s, p);
    P.FetchRuns(m.s, m.es, d.mem, p);
    FetchRest(m.s, p);
    TakeCounts(d, d1, p, m.es, r.handle);
  }

  lemma FetchRest(s: C.State<seq<Byte>>, p: nat)
    requires s.getting == map[]
    ensures var t := F.Fetch(s, p).0; t.getting == map[] && t.disk == s.disk && t.noPages == s.noPages && t.max == s.max
  {
  }

  lemma TakeCounts(d: Side, d1: Side, p: nat, es: seq<C.Event>, h: nat)
    requires (forall q :: Counted(d, es, q)) && Claiming(d, d1, p, 1) && d1.pinned == d.pinned
    ensures forall q :: Counted(d1, es + [C.Got(p, h)], q)
  {
    forall q ensures Counted(d1, es + [C.Got(p, h)], q) {
      assert Counted(d, es, q);
      OutstandingGot(es, p, h, q);
    }
  }

  lemma OutstandingGot(es: seq<C.Event>, p: nat, h: nat, q: nat)
    ensures C.Outstanding(es + [C.Got(p, h)], q) == C.Outstanding(es, q) + if q == p then 1 else 0
  {
    assert (es + [C.Got(p, h)])[..|es|] == es;
  }

  lemma OutstandingPut(es: seq<C.Event>, p: nat, rest: seq<C.Event>, q: nat)
    requires rest == [] || (|rest| == 1 && rest[0].Freed?)
    ensures C.Outstanding(es + [C.Put(p)] + rest, q) == C.Outstanding(es, q) - if q == p then 1 else 0
  {
    var es1 := es + [C.Put(p)];
    assert es1[..|es|] == es;
    if rest == [] {
      assert es1 + rest == es1;
    } else {
      assert (es1 + rest)[..|es1|] == es1;
    }
  }

  lemma DropBacked(d: Side, d1: Side, p: nat, m: Cache)
    requires Backed(d, m) && Shifts(d, d1, Drops(p))
    ensures Ready(m, Drops(p)) && Backed(d1, Next(m, Drops(p)))
  {
    assert Counted(d, m.es, p) && Claims(d1, p) == Claims(d, p) - 1;
    P.ReleaseRuns(m.s, m.es, d.mem, p);
    DropCounts(d, d1, p, m);
    DropDisk(d, d1, p, m);
  }

  lemma DropCounts(d: Side, d1: Side, p: nat, m: Cache)
    requires (forall q :: Counted(d, m.es, q)) && Claiming(d, d1, p, -1) && d1.pinned == d.pinned && P.Releasable(m.s, p)
    ensures forall q :: Counted(d1, P.Released(m.s, m.es, p), q)
  {
    forall q ensures Counted(d1, P.Released(m.s, m.es, p), q) {
      assert Counted(d, m.es, q);
      OutstandingPut(m.es, p, if m.s.refs[p] == 1 then [C.Freed(p, m.s.cache[p].handle)] else [], q);
    }
  }

  /** The file gets the page just when the last reference goes, and then what is in memory. */
  lemma DropDisk(d: Side, d1: Side, p: nat, m: Cache)
    requires Backed(d, m) && Shifts(d, d1, Drops(p)) && P.Releasable(m.s, p)
    ensures C.ReleaseStep(m.s, p).disk == d1.disk
  {
    P.KeptInv(m, d.mem);
    assert m.s.refs[p] == C.Outstanding(m.es, p) && Counted(d, m.es, p);
    assert C.View(m.s, p) == Some(d.mem[p]);
    assert m.s.refs[p] == 1 <==> !Referred(d1, p);
  }

  lemma WriteBacked(d: Side, d1: Side, p: nat, data: seq<Byte>, m: Cache)
    requires Backed(d, m) && Shifts(d, d1, Writes(p, data))
    ensures Ready(m, Writes(p, data)) && Backed(d1, Next(m, Writes(p, data)))
  {
    assert Counted(d, m.es, p);
    P.WriteRuns(m.s, m.es, d.mem, p, data);
    SameCounts(d, d1, m.es);
  }

  lemma SameCounts(d: Side, d1: Side, es: seq<C.Event>)
    requires (forall q :: Counted(d, es, q)) && d1.users == d.users && d1.busy == d.busy && d1.pinned == d.pinned
    ensures forall q :: Counted(d1, es, q)
  {
    forall q ensures Counted(d1, es, q) {
      assert Counted(d, es, q) && Claims(d1, q) == Claims(d, q);
    }
  }

  lemma GrowBacked(d: Side, d1: Side, data: seq<Byte>, m: Cache)
    requires Backed(d, m) && Shifts(d, d1, Grows(data))
    ensures Backed(d1, Next(m, Grows(data)))
  {
    SameCounts(d, d1, m.es);
    GrowKept(d.mem, d1.mem, data, m.s, m.es);
  }

  lemma GrowKept(mem: Pages, mem1: Pages, data: seq<Byte>, s: C.State<seq<Byte>>, es: seq<C.Event>)
    requires P.Kept(C.Machine(s, es), mem) && mem1 == mem[s.noPages + 1 := data]
    ensures P.Kept(C.Machine(C.NewPageStep(s, data), es), mem1)
  {
    P.NewPageRuns(s, es, mem, data);
  }

  lemma LeakBacked(d: Side, d1: Side, p: nat, m: Cache)
    requires Backed(d, m) && Shifts(d, d1, Leaks(p))
    ensures Backed(d1, m)
  {
    forall q ensures Counted(d1, m.es, q) {
      assert Counted(d, m.es, q);
    }
  }

  lemma ShiftBacked(d: Side, d1: Side, k: Kind, m: Cache)
    requires Backed(d, m) && Shifts(d, d1, k) && Room(m, k)
    ensures Ready(m, k) && Backed(d1, Next(m, k))
  {
    match k {
      case Quiet =>
      case Takes(p) => TakeBacked(d, d1, p, m);
      case Drops(p) => DropBacked(d, d1, p, m);
      case Writes(p, data) => WriteBacked(d, d1, p, data, m);
      case Grows(data) => GrowBacked(d, d1, data, m);
      case Leaks(p) => LeakBacked(d, d1, p, m);
    }
  }

  /* ----- every step of the data manager is such a shift ----- */

  function KindOf(s: State, op: Op): Kind
    requires Legal(s, op)
  {
    match op
    case Grow(_) => Grows(InitPage())
    case Fetch(t) => Takes(s.a.own[t].pgno)
    case LogFail(t) => Leaks(s.a.own[t].pgno)
    case Apply(t) =>
      var p := s.a.own[t].pgno;
      Writes(p, PxInsert(s.mem[p], s.ins[t].raw))
    case Release(t) => Drops(s.a.own[t].pgno)
    case Open(_, u) => Takes(u.pgno)
    case Modify(t, data) =>
      var u := s.users[t];
      Writes(u.pgno, Splice(s.mem[u.pgno], u.off + 3, data))
    case UnBefore(t) =>
      var u := s.users[t];
      Writes(u.pgno, Splice(s.mem[u.pgno], u.off, s.locks[u].was))
    case Close(t) => Drops(s.users[t].pgno)
    case _ => Quiet
  }

  /** The pages in use when insertion `t` goes from one phase with its page to another. */
  lemma BusyMoves(a: A.State, ins: map<nat, Ins>, ins1: map<nat, Ins>, t: nat, p: nat)
    requires A.Agree(a.own, a.holder) && t in a.own && A.Has(a.own[t], p) && DataRuns.Others(ins, ins1, t)
    requires t in ins && t in ins1
    ensures p in Busy(a, ins) <==> !Idle(ins, t)
    ensures Busy(a, ins1) == if Idle(ins1, t) then Busy(a, ins) - {p} else Busy(a, ins) + {p}
  {
    PhaseMoves(a, ins, ins1, t, p);
    PhaseMoves(a, ins, ins, t, p);
    var b, b1 := Busy(a, ins), Busy(a, ins1);
    assert b1 == if p in b1 then (b1 - {p}) + {p} else b1 - {p};
    assert b + {p} == (b - {p}) + {p};
  }

  lemma ClaimsByBusy(d: Side, d1: Side, p: nat)
    requires d1.users == d.users
    ensures p !in d.busy && d1.busy == d.busy + {p} ==> Claiming(d, d1, p, 1)
    ensures p in d.busy && d1.busy == d.busy - {p} ==> Claiming(d, d1, p, -1)
  {
  }

  lemma ClaimsByOpen(d: Side, d1: Side, t: nat, u: Addr)
    requires t !in d.users && d1.users == d.users[t := u] && d1.busy == d.busy
    ensures Claiming(d, d1, u.pgno, 1)
  {
    forall q ensures Claims(d1, q) == Claims(d, q) + if q == u.pgno then 1 else 0 {
      OneMore(d.users, t, u, q);
    }
  }

  lemma ClaimsByClose(d: Side, d1: Side, t: nat)
    requires t in d.users && d1.users == d.users - {t} && d1.busy == d.busy
    ensures Claiming(d, d1, d.users[t].pgno, -1)
  {
    assert d1.users[t := d.users[t]] == d.users;
    forall q ensures Claims(d1, q) == Claims(d, q) + if q == d.users[t].pgno then -1 else 0 {
      OneMore(d1.users, t, d.users[t], q);
    }
  }

  lemma OneMore(users: map<nat, Addr>, t: nat, u: Addr, q: nat)
    requires t !in users
    ensures |UsersOf(users[t := u], q)| == |UsersOf(users, q)| + if q == u.pgno then 1 else 0
  {
    var a, b := UsersOf(users, q), UsersOf(users[t := u], q);
    assert t !in a;
    assert b == if q == u.pgno then a + {t} else a;
  }

  /** Nothing about the pages changes. */
  lemma SameSide(s: State, s1: State)
    requires s1.mem == s.mem && s1.disk == s.disk && s1.users == s.users && s1.pinned == s.pinned
    requires s1.a.noPages == s.a.noPages && Busy(s1.a, s1.ins) == Busy(s.a, s.ins)
    ensures SideOf(s1) == SideOf(s)
  {
  }

  lemma IdleShifts(s: State, s1: State, t: nat)
    requires s1 == s.(a := s1.a, ins := s1.ins) && IdleMove(s.a, s.ins, s1.a, s1.ins, s.vals, t)
    ensures SideOf(s1) == SideOf(s)
  {
    PhasesFrame(s.a, s.ins, s1.a, s1.ins, t);
    SameSide(s, s1);
  }

  /** The step shifts the pages as its kind says. */
  ghost predicate Shifted(s: State, op: Op)
    requires Legal(s, op)
  {
    Shifts(SideOf(s), SideOf(Step(s, op)), KindOf(s, op))
  }

  lemma BeginShifts(s: State, t: nat, xid: nat, data: seq<Byte>)
    requires A.Inv(s.a) && t !in s.a.own && Legal(s, Begin(t, xid, data))
    ensures Shifted(s, Begin(t, xid, data))
  {
    if |Wrap(data)| > MAX_FREE {
      RefuseSide(s, t, Ins(xid, Wrap(data), Failed));
    } else {
      assert Wrap(data)[3..] == data;
      BeginSide(s, t, Ins(xid, Wrap(data), Seeks));
    }
  }

  lemma RefuseSide(s: State, t: nat, i: Ins)
    requires A.Inv(s.a) && t !in s.a.own && t !in s.ins && i.at.Failed?
    ensures SideOf(s.(ins := s.ins[t := i])) == SideOf(s)
  {
    RefuseMove(s.a, s.ins, s.vals, t, i);
    IdleShifts(s, s.(ins := s.ins[t := i]), t);
  }

  lemma BeginSide(s: State, t: nat, i: Ins)
    requires A.Inv(s.a) && t !in s.a.own && t !in s.ins
    requires i.at.Seeks? && 3 <= |i.raw| <= MAX_FREE && i.raw == Wrap(i.raw[3..])
    ensures SideOf(s.(a := A.Begin(s.a, t, |i.raw|), ins := s.ins[t := i])) == SideOf(s)
  {
    BeginMove(s.a, s.ins, s.vals, t, i);
    IdleShifts(s, s.(a := A.Begin(s.a, t, |i.raw|), ins := s.ins[t := i]), t);
  }

  lemma SeekShifts(s: State, t: nat)
    requires A.Inv(s.a) && InsOk(s.a.own, s.a.free, s.ins, s.vals) && Legal(s, Seek(t))
    ensures Shifted(s, Seek(t))
  {
    SeekMove(s.a, s.ins, s.vals, t);
    IdleShifts(s, Step(s, Seek(t)), t);
  }

  lemma ShelveShifts(s: State, t: nat)
    requires A.Inv(s.a) && InsOk(s.a.own, s.a.free, s.ins, s.vals) && Legal(s, Shelve(t))
    ensures Shifted(s, Shelve(t))
  {
    ShelveMove(s.a, s.ins, s.vals, t);
    IdleShifts(s, Step(s, Shelve(t)), t);
  }

  lemma GiveUpShifts(s: State, t: nat)
    requires A.Inv(s.a) && InsOk(s.a.own, s.a.free, s.ins, s.vals) && Legal(s, GiveUp(t))
    ensures Shifted(s, GiveUp(t))
  {
    LeaveMove(s.a, s.ins, s.vals, t, To(s, t, Failed)[t]);
    IdleShifts(s, Step(s, GiveUp(t)), t);
  }

  lemma ReturnShifts(s: State, op: Op)
    requires A.Inv(s.a) && InsOk(s.a.own, s.a.free, s.ins, s.vals)
    requires Legal(s, op) && (op.FetchFail? || op.Return?)
    ensures Shifted(s, op)
  {
    var s1, t := Step(s, op), op.t;
    assert Flies(s.a.own[t], s.ins[t], s.a.free, s.vals);
    if op.FetchFail? {
      RestoreIsReturn(s.a, s.ins[t], s.vals, t);
    }
    ReturnMove(s.a, s.ins, s.vals, t, s1.ins[t]);
    IdleShifts(s, s1, t);
  }

  lemma GrowShifts(s: State, t: nat)
    requires A.Inv(s.a) && InsOk(s.a.own, s.a.free, s.ins, s.vals) && Legal(s, Grow(t))
    ensures Shifted(s, Grow(t))
  {
    assert Flies(s.a.own[t], s.ins[t], s.a.free, s.vals);
    var s1 := Step(s, Grow(t));
    GrowSide(s, s1, InitPage());
    GrowPhases(s, t, s1);
  }

  lemma GrowSide(s: State, s1: State, pg: seq<Byte>)
    requires var p := s.a.noPages + 1;
      && s1.mem == s.mem[p := pg] && s1.disk == s.disk[p := pg] && s1.a.noPages == p
      && s1.users == s.users && s1.pinned == s.pinned
    ensures Busy(s1.a, s1.ins) == Busy(s.a, s.ins) ==> Shifts(SideOf(s), SideOf(s1), Grows(pg))
  {
  }

  lemma FetchShifts(s: State, t: nat)
    requires A.Agree(s.a.own, s.a.holder) && Legal(s, Fetch(t))
    ensures Shifted(s, Fetch(t))
  {
    var s1, p := Step(s, Fetch(t)), s.a.own[t].pgno;
    BusyMoves(s.a, s.ins, s1.ins, t, p);
    ClaimsByBusy(SideOf(s), SideOf(s1), p);
  }

  lemma LogShifts(s: State, t: nat)
    requires A.Agree(s.a.own, s.a.holder) && Legal(s, Log(t))
    ensures Shifted(s, Log(t))
  {
    var s1, p := Step(s, Log(t)), s.a.own[t].pgno;
    BusyMoves(s.a, s.ins, s1.ins, t, p);
    assert Busy(s.a, s.ins) + {p} == Busy(s.a, s.ins);
    SameSide(s, s1);
  }

  lemma ApplyShifts(s: State, t: nat)
    requires A.Agree(s.a.own, s.a.holder) && Legal(s, Apply(t))
    ensures Shifted(s, Apply(t))
  {
    G.ApplyStep(s, t);
    ApplyPhases(s, t, s.a.own[t].pgno, Step(s, Apply(t)));
  }

  lemma LogFailBusy(a: A.State, ins: map<nat, Ins>, a1: A.State, ins1: map<nat, Ins>, t: nat, p: nat)
    requires A.Agree(a.own, a.holder) && t in a.own && A.Has(a.own[t], p) && t in ins && ins[t].at.Fetched?
    requires ins1 == ins[t := Ins(ins[t].xid, ins[t].raw, Failed)] && a1.holder == a.holder - {p}
    ensures p in Busy(a, ins) && Busy(a1, ins1) == Busy(a, ins) - {p}
  {
    forall q ensures q in Busy(a1, ins1) <==> q != p && q in Busy(a, ins) {
      assert q != p && q in a.holder ==> A.Has(a.own[a.holder[q]], q) && a.holder[q] != t;
      assert InPhase(a1, ins1, q, false) <==> q != p && InPhase(a, ins, q, false);
    }
    assert InPhase(a, ins, p, false);
  }

  lemma LogFailShifts(s: State, t: nat)
    requires A.Agree(s.a.own, s.a.holder) && Legal(s, LogFail(t))
    ensures Shifted(s, LogFail(t))
  {
    var s1, p := Step(s, LogFail(t)), s.a.own[t].pgno;
    LogFailBusy(s.a, s.ins, s1.a, s1.ins, t, p);
    ClaimsByBusy(SideOf(s), SideOf(s1), p);
  }

  lemma DropShifts(s: State, s1: State, p: nat)
    requires p in s.mem && p in s.disk && Claiming(SideOf(s), SideOf(s1), p, -1)
    requires s1.mem == s.mem && s1.a == s.a && s1.pinned == s.pinned
    requires s1.disk == if p in Held(s1) then s.disk else s.disk[p := s.mem[p]]
    ensures Shifts(SideOf(s), SideOf(s1), Drops(p))
  {
    ReferredIsHeld(s1, p);
  }

  lemma ReleaseShifts(s: State, t: nat)
    requires A.Agree(s.a.own, s.a.holder) && s.disk.Keys == s.mem.Keys && Legal(s, Release(t))
    ensures Shifted(s, Release(t))
  {
    var s1, p := Step(s, Release(t)), s.a.own[t].pgno;
    ReleaseBusy(s, t);
    ClaimsByBusy(SideOf(s), SideOf(s1), p);
    DropShifts(s, s1, p);
  }

  lemma ReleaseBusy(s: State, t: nat)
    requires A.Agree(s.a.own, s.a.holder) && Legal(s, Release(t))
    ensures var s1, p := Step(s, Release(t)), s.a.own[t].pgno;
      && p in Busy(s.a, s.ins) && Busy(s1.a, s1.ins) == Busy(s.a, s.ins) - {p}
      && s1.users == s.users && s1.mem == s.mem && s1.a == s.a && s1.pinned == s.pinned
      && s1.disk == if p in Held(s1) then s.disk else s.disk[p := s.mem[p]]
  {
    var ins1, p := To(s, t, Released(s.ins[t].at.off)), s.a.own[t].pgno;
    BusyMoves(s.a, s.ins, ins1, t, p);
    BackShape(s.(ins := ins1), p);
  }

  lemma BackShape(s: State, p: nat)
    requires p in s.mem
    ensures var s1 := WriteBack(s, p);
      s1 == s.(disk := s1.disk) && s1.disk == if p in Held(s1) then s.disk else s.disk[p := s.mem[p]]
  {
  }

  lemma CloseShifts(s: State, t: nat)
    requires s.disk.Keys == s.mem.Keys && Legal(s, Close(t))
    ensures Shifted(s, Close(t))
  {
    var s1, p := Step(s, Close(t)), s.users[t].pgno;
    ClaimsByClose(SideOf(s), SideOf(s1), t);
    DropShifts(s, s1, p);
  }

  lemma UserClaims(d: Side, t: nat)
    requires t in d.users
    ensures Claims(d, d.users[t].pgno) > 0
  {
    assert t in UsersOf(d.users, d.users[t].pgno);
  }

  lemma OpenShifts(s: State, t: nat, u: Addr)
    requires ValsOk(s.vals, s.mem, s.a.free) && Legal(s, Open(t, u))
    ensures Shifted(s, Open(t, u))
  {
    ClaimsByOpen(SideOf(s), SideOf(Step(s, Open(t, u))), t, u);
  }

  lemma ItemShifts(s: State, op: Op)
    requires Legal(s, op) && (op.Before? || op.Modify? || op.UnBefore? || op.After?)
    ensures Shifted(s, op)
  {
    UserClaims(SideOf(s), op.t);
  }

  lemma PageShifts(s: State, op: Op)
    requires Inv(s) && Legal(s, op)
    requires op.Fetch? || op.Log? || op.LogFail? || op.Apply? || op.Release?
    ensures Shifted(s, op)
  {
    match op {
      case Fetch(t) => FetchShifts(s, t);
      case Log(t) => LogShifts(s, t);
      case LogFail(t) => LogFailShifts(s, t);
      case Apply(t) => ApplyShifts(s, t);
      case Release(t) => ReleaseShifts(s, t);
    }
  }

  lemma InsertionShifts(s: State, op: Op)
    requires Inv(s) && Legal(s, op)
    requires op.Begin? || op.Seek? || op.Grow? || op.Shelve? || op.GiveUp? || op.FetchFail? || op.Return?
    ensures Shifted(s, op)
  {
    match op {
      case Begin(t, xid, data) => BeginShifts(s, t, xid, data);
      case Grow(t) => GrowShifts(s, t);
      case FetchFail(_) => ReturnShifts(s, op);
      case Return(_) => ReturnShifts(s, op);
      case Seek(t) => SeekShifts(s, t);
      case Shelve(t) => ShelveShifts(s, t);
      case GiveUp(t) => GiveUpShifts(s, t);
    }
  }

  lemma UseShifts(s: State, op: Op)
    requires Inv(s) && Legal(s, op)
    requires op.Open? || op.Before? || op.Modify? || op.UnBefore? || op.After? || op.Close?
    ensures Shifted(s, op)
  {
    match op {
      case Open(t, u) => OpenShifts(s, t, u);
      case Close(t) => CloseShifts(s, t);
      case _ => ItemShifts(s, op);
    }
  }

  lemma StepShifts(s: State, op: Op)
    requires Inv(s) && Legal(s, op)
    ensures Shifted(s, op)
  {
    if op.Fetch? || op.Log? || op.LogFail? || op.Apply? || op.Release? {
      PageShifts(s, op);
    } else if op.Open? || op.Before? || op.Modify? || op.UnBefore? || op.After? || op.Close? {
      UseShifts(s, op);
    } else {
      InsertionShifts(s, op);
    }
  }

  /* ----- the refinement ----- */

  /**
   * Every step of the data manager is a step of its cache, or a few: the cache that backs the pages
   * before it, if it has room for a page that is fetched, backs them afterwards.
   */
  lemma CacheFollows(s: State, op: Op, m: Cache)
    requires Inv(s) && Legal(s, op) && Backed(SideOf(s), m) && Room(m, KindOf(s, op))
    ensures Ready(m, KindOf(s, op)) && Backed(SideOf(Step(s, op)), Next(m, KindOf(s, op)))
  {
    StepShifts(s, op);
    ShiftBacked(SideOf(s), SideOf(Step(s, op)), KindOf(s, op), m);
  }

  lemma MaxStays(m: Cache, k: Kind)
    requires Ready(m, k)
    ensures Next(m, k).s.max == m.s.max
  {
  }

  lemma {:induction false} CacheFollowsRun(s: State, ops: seq<Op>, s1: State, m: Cache) returns (m1: Cache)
    requires Inv(s) && G.Reaches(s, ops, s1) && Backed(SideOf(s), m) && m.s.max == 0
    ensures Backed(SideOf(s1), m1) && m1.s.max == 0
    decreases |ops|
  {
    if ops == [] {
      m1 := m;
    } else {
      var k := KindOf(s, ops[0]);
      CacheFollows(s, ops[0], m);
      MaxStays(m, k);
      G.StepKeeps(s, ops[0]);
      m1 := CacheFollowsRun(Step(s, ops[0]), ops[1..], s1, Next(m, k));
    }
  }

  lemma InitialBacked(page1: seq<Byte>)
    requires |page1| == PAGE_SIZE
    ensures Backed(SideOf(G.Initial(page1)), C.Initial(0, map[1 := page1], 1))
  {
    var file, m := map[1 := page1], C.Initial(0, map[1 := page1], 1);
    assert C.Traced(C.Trace(0, file, 1, []), m, file);
    var d := SideOf(G.Initial(page1));
    forall p ensures Counted(d, m.es, p) {
      assert UsersOf(d.users, p) == {};
    }
  }

  /**
   * In every reachable state of the data manager its pages are those of a page cache in some run of
   * that cache: the disk is the cache's file, and a page is held exactly if the cache counts
   * references to it.
   */
  lemma PagesAreCached(s: State) returns (m: Cache)
    requires G.Reachable(s)
    ensures Backed(SideOf(s), m) && m.s.disk == s.disk
    ensures forall p :: p in Held(s) <==> C.Outstanding(m.es, p) > 0
    ensures forall p :: p in s.mem ==> C.View(m.s, p) == Some(s.mem[p])
  {
    var page1, ops :| |page1| == PAGE_SIZE && G.Reaches(G.Initial(page1), ops, s);
    G.InitialKept(page1);
    InitialBacked(page1);
    m := CacheFollowsRun(G.Initial(page1), ops, s, C.Initial(0, map[1 := page1], 1));
    BackedMeans(s, m);
  }

  lemma BackedMeans(s: State, m: Cache)
    requires Backed(SideOf(s), m)
    ensures forall p :: p in Held(s) <==> C.Outstanding(m.es, p) > 0
    ensures forall p :: p in s.mem ==> C.View(m.s, p) == Some(s.mem[p])
  {
    P.KeptInv(m, s.mem);
    forall p ensures p in Held(s) <==> C.Outstanding(m.es, p) > 0 {
      assert Counted(SideOf(s), m.es, p);
      ReferredIsHeld(s, p);
    }
  }
}
