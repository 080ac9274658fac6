/** What the data manager guarantees in every run. */
module DataGuarantees {
  import opened Types
  import opened Bytes
  import opened LogRecords
  import opened Recovery
  import opened RecoveryPass
  import opened DataItems
  import opened PageIndex
  import opened DataRuns
  import opened DataSteps
  import opened DataUpdates
  import A = Allocation

  /* ----- every operation is one of the moves already treated ----- */

  lemma GrowStep(s: State, t: nat)
    requires Legal(s, Grow(t))
    ensures var s1 := Step(s, Grow(t));
            && Grown(s, s1) && s1.a == A.Grow(s.a, t)
            && s1.a.own == s.a.own[t := A.Fresh(s.a.own[t].size, s.a.own[t].tries, s1.a.noPages)]
  {
  }

  function LogRec(s: State, t: nat): Rec
    requires HasPage(s, t)
  {
    Insertion(s.ins[t].xid, s.a.own[t].pgno, Fso(s.mem[s.a.own[t].pgno]), s.ins[t].raw)
  }

  lemma LogStep(s: State, t: nat)
    requires Legal(s, Log(t))
    ensures LogShape(s, t, LogRec(s, t), Step(s, Log(t)))
  {
  }

  lemma ApplyStep(s: State, t: nat)
    requires Legal(s, Apply(t))
    ensures ApplyShape(s, t, s.a.own[t].pgno, Step(s, Apply(t)))
  {
  }

  lemma ReleaseStep(s: State, t: nat)
    requires Legal(s, Release(t))
    ensures var s1 := Step(s, Release(t));
            && ReleaseShape(s, s1, s.a.own[t].pgno) && s1.users == s.users
            && s1.ins == s.ins[t := Ins(s.ins[t].xid, s.ins[t].raw, Released(s.ins[t].at.off))]
  {
  }

  lemma CloseStep(s: State, t: nat)
    requires Legal(s, Close(t))
    ensures var s1 := Step(s, Close(t));
            ReleaseShape(s, s1, s.users[t].pgno) && s1.users == s.users - {t} && s1.ins == s.ins
  {
  }

  /** Writing the data of a wrapped item is rewriting the item. */
  lemma DataIsTail(pg: seq<Byte>, off: nat, v: seq<Byte>, data: seq<Byte>)
    requires |pg| == PAGE_SIZE && |data| == |v| && off + 3 + |v| <= PAGE_SIZE && pg[off..off + 3 + |v|] == Wrap(v)
    ensures Splice(pg, off + 3, data) == Splice(pg, off, Wrap(data))
  {
    assert Wrap(data)[..3] == Wrap(v)[..3];
    assert pg[off..off + 3] == pg[off..off + 3 + |v|][..3];
    assert pg[..off + 3] == pg[..off] + pg[off..off + 3];
    assert Wrap(data) == Wrap(data)[..3] + data;
  }

  lemma ModifyStep(s: State, t: nat, data: seq<Byte>)
    requires Legal(s, Modify(t, data)) && ValOk(s.users[t], s.vals[s.users[t]], s.mem[s.users[t].pgno])
    ensures RewriteShape(s, s.users[t], data, Step(s, Modify(t, data)))
  {
    var u := s.users[t];
    DataIsTail(s.mem[u.pgno], u.off, s.vals[u], data);
  }

  /** `UnBefore` rewrites the item with its old image and unlocks it. */
  function Reverted(s: State, u: Addr): State
    requires u in s.locks && u.pgno in s.mem && |s.locks[u].was| >= 3 && u.off + |s.locks[u].was| <= |s.mem[u.pgno]|
  {
    s.(mem := s.mem[u.pgno := Splice(s.mem[u.pgno], u.off, s.locks[u].was)], vals := s.vals[u := s.locks[u].was[3..]])
  }

  lemma UnBeforeStep(s: State, t: nat)
    requires Legal(s, UnBefore(t)) && LockOk(s.users[t], s.locks[s.users[t]], s.vals[s.users[t]], Replay(s.log, s.users[t].pgno))
    ensures var u := s.users[t];
            && RewriteShape(s, u, s.locks[u].was[3..], Reverted(s, u))
            && Step(s, UnBefore(t)) == Reverted(s, u).(locks := s.locks - {u})
  {
  }

  function UpdateRec(s: State, t: nat, xid: nat): Rec
    requires Legal(s, After(t, xid))
  {
    var u := s.users[t];
    Update(xid, u.pgno, u.off, s.locks[u].was, Wrap(s.vals[u]))
  }

  /** `After` logs the change and unlocks the item. */
  function Relogged(s: State, t: nat, xid: nat): State
    requires Legal(s, After(t, xid))
  {
    var u := s.users[t];
    s.(log := s.log + [UpdateRec(s, t, xid)], locks := s.locks[u := Lock(s.locks[u].owner, Wrap(s.vals[u]))])
  }

  lemma AfterStep(s: State, t: nat, xid: nat)
    requires Legal(s, After(t, xid)) && ValOk(s.users[t], s.vals[s.users[t]], s.mem[s.users[t].pgno])
    ensures var u := s.users[t];
            var s1 := Relogged(s, t, xid);
            && RelogShape(s, u, UpdateRec(s, t, xid), s1)
            && u in s1.locks && u in s1.vals && s1.locks[u].was == Wrap(s1.vals[u])
            && Step(s, After(t, xid)) == s1.(locks := s1.locks - {u})
  {
    var s1 := Relogged(s, t, xid);
    assert s1.locks - {s.users[t]} == s.locks - {s.users[t]};
  }

  lemma BeforeStep(s: State, t: nat)
    requires Legal(s, Before(t)) && ValOk(s.users[t], s.vals[s.users[t]], s.mem[s.users[t].pgno])
    ensures Step(s, Before(t)) == s.(locks := s.locks[s.users[t] := Lock(t, Wrap(s.vals[s.users[t]]))])
  {
    var u := s.users[t];
    ReadWrap(s.mem[u.pgno], u.off, s.vals[u]);
  }

  /* ----- every operation keeps the invariant ----- */

  /** The invariant holds again after the operation. */
  ghost predicate Kept(s: State, op: Op)
    requires Legal(s, op)
  {
    Inv(Step(s, op))
  }

  lemma InsertStepKeeps(s: State, op: Op)
    requires Inv(s) && Legal(s, op)
    requires op.Begin? || op.Seek? || op.Grow? || op.Shelve? || op.GiveUp? || op.Fetch?
    ensures Kept(s, op)
  {
    var s1 := Step(s, op);
    match op {
      case Begin(t, xid, data) =>
        if |Wrap(data)| > MAX_FREE {
          TooLargeKeeps(s, t, xid, Wrap(data), s1);
        } else {
          BeginKeeps(s, t, xid, data, s1);
        }
      case Seek(t) => SeekKeeps(s, t, s1);
      case Grow(t) =>
        GrowStep(s, t);
        GrowKeeps(s, t, s1);
      case Shelve(t) => ShelveKeeps(s, t, s1);
      case GiveUp(t) => GiveUpKeeps(s, t, s1);
      case Fetch(t) => FetchKeeps(s, t, s1);
    }
  }

  lemma LogStepKeeps(s: State, t: nat)
    requires Inv(s) && Legal(s, Log(t))
    ensures Inv(Step(s, Log(t)))
  {
    LogStep(s, t);
    LogKeeps(s, t, LogRec(s, t), Step(s, Log(t)));
  }

  lemma ApplyStepKeeps(s: State, t: nat)
    requires Inv(s) && Legal(s, Apply(t))
    ensures Inv(Step(s, Apply(t)))
  {
    ApplyStep(s, t);
    ApplyKeeps(s, t, s.a.own[t].pgno, Step(s, Apply(t)));
  }

  lemma WriteStepKeeps(s: State, op: Op)
    requires Inv(s) && Legal(s, op)
    requires op.FetchFail? || op.Log? || op.LogFail? || op.Apply? || op.Return?
    ensures Kept(s, op)
  {
    match op {
      case FetchFail(t) => FetchFailKeeps(s, t, Step(s, op));
      case Log(t) => LogStepKeeps(s, t);
      case LogFail(t) => LogFailKeeps(s, t, Step(s, op));
      case Apply(t) => ApplyStepKeeps(s, t);
      case Return(t) => DataRuns.ReturnKeeps(s, t, Step(s, op));
    }
  }

  lemma ReleaseStepKeeps(s: State, t: nat)
    requires Inv(s) && Legal(s, Release(t))
    ensures Inv(Step(s, Release(t)))
  {
    var s1, p := Step(s, Release(t)), s.a.own[t].pgno;
    ReleaseStep(s, t);
    AppliedPhases(s, t, s1);
    DataUpdates.ReleaseKeeps(s, s1, p);
  }

  lemma CloseStepKeeps(s: State, t: nat)
    requires Inv(s) && Legal(s, Close(t))
    ensures Inv(Step(s, Close(t)))
  {
    var s1 := Step(s, Close(t));
    CloseStep(s, t);
    CloseUsers(s.users, s.locks, s.vals, t);
    DataUpdates.ReleaseKeeps(s, s1, s.users[t].pgno);
  }

  lemma UserVal(s: State, t: nat)
    requires ValsOk(s.vals, s.mem, s.a.free) && Uses(s, t)
    ensures ValOk(s.users[t], s.vals[s.users[t]], s.mem[s.users[t].pgno])
  {
  }

  lemma UserLock(s: State, t: nat)
    requires LocksOk(s.locks, s.vals, s.log) && DataRuns.Writes(s, t)
    ensures LockOk(s.users[t], s.locks[s.users[t]], s.vals[s.users[t]], Replay(s.log, s.users[t].pgno))
  {
  }

  lemma UnBeforeKeeps(s: State, t: nat)
    requires Inv(s) && Legal(s, UnBefore(t))
    ensures Inv(Step(s, UnBefore(t)))
  {
    var u := s.users[t];
    UserLock(s, t);
    UnBeforeStep(s, t);
    RewriteKeeps(s, u, s.locks[u].was[3..], Reverted(s, u));
    UnlockKeeps(Reverted(s, u), u, Step(s, UnBefore(t)));
  }

  lemma AfterKeeps(s: State, t: nat, xid: nat)
    requires Inv(s) && Legal(s, After(t, xid))
    ensures Inv(Step(s, After(t, xid)))
  {
    UserVal(s, t);
    AfterStep(s, t, xid);
    RelogUnlock(s, s.users[t], UpdateRec(s, t, xid), Relogged(s, t, xid), Step(s, After(t, xid)));
  }

  lemma RelogUnlock(s: State, u: Addr, r: Rec, s1: State, s2: State)
    requires Inv(s) && RelogShape(s, u, r, s1)
    requires u in s1.locks && u in s1.vals && s1.locks[u].was == Wrap(s1.vals[u]) && s2 == s1.(locks := s1.locks - {u})
    ensures Inv(s2)
  {
    RelogKeeps(s, u, r, s1);
    UnlockKeeps(s1, u, s2);
  }

  lemma BeforeKeeps(s: State, t: nat)
    requires Inv(s) && Legal(s, Before(t))
    ensures Inv(Step(s, Before(t)))
  {
    UserVal(s, t);
    BeforeStep(s, t);
    LockKeeps(s, s.users[t], Lock(t, Wrap(s.vals[s.users[t]])), Step(s, Before(t)));
  }

  lemma ModifyKeeps(s: State, t: nat, data: seq<Byte>)
    requires Inv(s) && Legal(s, Modify(t, data))
    ensures Inv(Step(s, Modify(t, data)))
  {
    UserVal(s, t);
    ModifyStep(s, t, data);
    RewriteKeeps(s, s.users[t], data, Step(s, Modify(t, data)));
  }

  lemma ItemStepKeeps(s: State, op: Op)
    requires Inv(s) && Legal(s, op) && (op.Open? || op.Before? || op.Modify?)
    ensures Kept(s, op)
  {
    match op {
      case Open(t, u) => OpenKeeps(s, t, u, Step(s, op));
      case Before(t) => BeforeKeeps(s, t);
      case Modify(t, data) => ModifyKeeps(s, t, data);
    }
  }

  lemma LastStepKeeps(s: State, op: Op)
    requires Inv(s) && Legal(s, op) && (op.Release? || op.Close? || op.UnBefore? || op.After?)
    ensures Kept(s, op)
  {
    match op {
      case Release(t) => ReleaseStepKeeps(s, t);
      case Close(t) => CloseStepKeeps(s, t);
      case UnBefore(t) => UnBeforeKeeps(s, t);
      case After(t, xid) => AfterKeeps(s, t, xid);
    }
  }

  lemma StepKeeps(s: State, op: Op)
    requires Inv(s) && Legal(s, op)
    ensures Kept(s, op)
  {
    if op.Release? || op.Close? || op.UnBefore? || op.After? {
      LastStepKeeps(s, op);
    } else if op.FetchFail? || op.Log? || op.LogFail? || op.Apply? || op.Return? {
      WriteStepKeeps(s, op);
    } else if op.Open? || op.Before? || op.Modify? {
      ItemStepKeeps(s, op);
    } else {
      InsertStepKeeps(s, op);
    }
  }

  /* ----- runs ----- */

  ghost predicate Reaches(s: State, ops: seq<Op>, s1: State)
    decreases |ops|
  {
    if ops == [] then s1 == s else Legal(s, ops[0]) && Reaches(Step(s, ops[0]), ops[1..], s1)
  }

  /** A new database: page 1 only, nothing listed, an empty log. */
  function Initial(page1: seq<Byte>): State
    requires |page1| == PAGE_SIZE
  {
    State(A.State(Empty(), 1, map[], map[], map[]), map[1 := page1], map[1 := page1], [], map[], {}, map[], map[], map[])
  }

  lemma {:induction false} EmptyMulti(ls: seq<seq<Pair>>)
    requires forall i :: 0 <= i < |ls| ==> ls[i] == []
    ensures Multi(ls) == multiset{}
    decreases |ls|
  {
    if ls != [] {
      EmptyMulti(ls[..|ls| - 1]);
    }
  }

  lemma InitialKept(page1: seq<Byte>)
    requires |page1| == PAGE_SIZE
    ensures Inv(Initial(page1))
  {
    var s := Initial(page1);
    EmptyMulti(s.a.lists);
    assert A.Inv(s.a);
    Assemble(s);
  }

  lemma {:induction false} RunKeeps(s: State, ops: seq<Op>, s1: State)
    requires Inv(s) && Reaches(s, ops, s1)
    ensures Inv(s1)
    decreases |ops|
  {
    if ops != [] {
      StepKeeps(s, ops[0]);
      RunKeeps(Step(s, ops[0]), ops[1..], s1);
    }
  }

  /** The states of all runs of a new database. */
  ghost predicate Reachable(s: State) {
    exists page1, ops :: |page1| == PAGE_SIZE && Reaches(Initial(page1), ops, s)
  }

  lemma ReachableKept(s: State)
    requires Reachable(s)
    ensures Inv(s)
  {
    var page1, ops :| |page1| == PAGE_SIZE && Reaches(Initial(page1), ops, s);
    InitialKept(page1);
    RunKeeps(Initial(page1), ops, s);
  }

  /* ----- the guarantees ----- */

  /**
   * The write-ahead rule: in every reachable state a data page on disk is what some prefix of the
   * log makes of an empty page, and a page nobody refers to is what the whole log makes of it.
   */
  lemma WriteAheadRule(s: State, p: nat)
    requires Reachable(s) && 2 <= p <= s.a.noPages
    ensures p in s.disk && OnDisk(s.disk[p], s.log, p)
    ensures p !in Held(s) ==> p in s.mem && s.mem[p] == Replay(s.log, p) && s.disk[p] == s.mem[p]
  {
    ReachableKept(s);
    assert p in s.a.free;
    if p !in Held(s) {
      UnheldIsLogged(s, Covers(s.a, s.ins), p);
    }
  }

  /** Pages represent a plain map: every item ever inserted reads as the map says. */
  lemma ReadsTheMap(s: State, u: Addr)
    requires Reachable(s) && u in s.vals
    ensures u.pgno in s.mem && |s.mem[u.pgno]| == PAGE_SIZE && u.off + 3 <= PAGE_SIZE
    ensures ReadAt(s.mem[u.pgno], u.off) == Some(s.vals[u])
  {
    ReachableKept(s);
    ValReads(s.vals, s.mem, s.a.free, u);
  }

  lemma ValReads(vals: map<Addr, seq<Byte>>, mem: Pages, free: map<nat, nat>, u: Addr)
    requires ValsOk(vals, mem, free) && u in vals
    ensures u.pgno in mem && |mem[u.pgno]| == PAGE_SIZE && u.off + 3 <= PAGE_SIZE
    ensures ReadAt(mem[u.pgno], u.off) == Some(vals[u])
  {
    assert ValOk(u, vals[u], mem[u.pgno]);
    ReadWrap(mem[u.pgno], u.off, vals[u]);
  }

  /** Items lie within their pages, behind the free-space offset, and do not overlap. */
  lemma ItemsAreApart(s: State, u: Addr, v: Addr)
    requires Reachable(s) && u in s.vals && v in s.vals && u != v
    ensures 2 <= u.off && u.off + 3 + |s.vals[u]| <= PAGE_SIZE
    ensures Apart(DataRuns.Place(u, s.vals[u]), DataRuns.Place(v, s.vals[v]))
  {
    ReachableKept(s);
    assert ValOk(u, s.vals[u], s.mem[u.pgno]);
  }

  /** Pages are neither lost nor handed out twice, and are listed with the space they really have. */
  lemma PagesAreConserved(s: State, p: nat)
    requires Reachable(s) && 2 <= p <= s.a.noPages
    ensures p in s.a.free && p in s.mem && |s.mem[p]| == PAGE_SIZE && s.a.free[p] == PAGE_SIZE - Fso(s.mem[p])
    ensures (exists t :: A.HeldBy(s.a, t, p)) <==> Multi(s.a.lists)[Pair(p, s.a.free[p])] == 0
    ensures (forall t :: !A.HeldBy(s.a, t, p)) <==> Multi(s.a.lists)[Pair(p, s.a.free[p])] == 1
    ensures forall t, v :: A.HeldBy(s.a, t, p) && A.HeldBy(s.a, v, p) ==> t == v
    ensures forall f :: f != s.a.free[p] ==> Multi(s.a.lists)[Pair(p, f)] == 0
  {
    ReachableKept(s);
    A.Conservation(s.a, p);
  }

  /* ----- the map is append-only but for explicit changes ----- */

  /** The operation rewrites the item at `u`. */
  predicate Touches(s: State, op: Op, u: Addr) {
    (op.Modify? || op.UnBefore?) && op.t in s.users && s.users[op.t] == u
  }

  /** The operation on the plain map: insertions add an entry, the two rewriting operations replace one. */
  function MapStep(s: State, op: Op): map<Addr, seq<Byte>>
    requires Legal(s, op)
  {
    match op
    case Apply(t) => s.vals[Addr(s.a.own[t].pgno, Fso(s.mem[s.a.own[t].pgno])) := s.ins[t].raw[3..]]
    case Modify(t, data) => s.vals[s.users[t] := data]
    case UnBefore(t) => s.vals[s.users[t] := s.locks[s.users[t]].was[3..]]
    case _ => s.vals
  }

  predicate ChangesMap(op: Op) {
    op.Apply? || op.Modify? || op.UnBefore?
  }

  lemma StepsTheMap(s: State, op: Op)
    requires Legal(s, op)
    ensures Step(s, op).vals == MapStep(s, op)
  {
    if ChangesMap(op) {
      ChangedMap(s, op);
    } else {
      SameMap(s, op);
    }
  }

  lemma ChangedMap(s: State, op: Op)
    requires Legal(s, op) && ChangesMap(op)
    ensures Step(s, op).vals == MapStep(s, op)
  {
  }

  lemma SameMap(s: State, op: Op)
    requires Legal(s, op) && !ChangesMap(op)
    ensures Step(s, op).vals == s.vals
  {
    if op.Open? || op.Before? || op.After? || op.Close? {
      SameMapItem(s, op);
    } else if op.FetchFail? || op.Log? || op.LogFail? || op.Release? || op.Return? {
      SameMapWrite(s, op);
    } else {
      SameMapInsert(s, op);
    }
  }

  lemma SameMapItem(s: State, op: Op)
    requires Legal(s, op) && (op.Open? || op.Before? || op.After? || op.Close?)
    ensures Step(s, op).vals == s.vals
  {
  }

  lemma SameMapWrite(s: State, op: Op)
    requires Legal(s, op) && (op.FetchFail? || op.Log? || op.LogFail? || op.Release? || op.Return?)
    ensures Step(s, op).vals == s.vals
  {
  }

  lemma SameMapInsert(s: State, op: Op)
    requires Legal(s, op) && (op.Begin? || op.Seek? || op.Grow? || op.Shelve? || op.GiveUp? || op.Fetch?)
    ensures Step(s, op).vals == s.vals
  {
  }

  lemma EntryStays(s: State, op: Op, u: Addr)
    requires ValsOk(s.vals, s.mem, s.a.free) && Legal(s, op) && u in s.vals && !Touches(s, op, u)
    ensures u in MapStep(s, op) && MapStep(s, op)[u] == s.vals[u]
  {
    match op {
      case Apply(t) => NewEntry(s.vals, s.mem, s.a.free, s.a.own[t].pgno, u);
      case _ =>
    }
  }

  lemma NewEntry(vals: map<Addr, seq<Byte>>, mem: Pages, free: map<nat, nat>, p: nat, u: Addr)
    requires ValsOk(vals, mem, free) && p in mem && |mem[p]| == PAGE_SIZE && u in vals
    ensures u != Addr(p, Fso(mem[p]))
  {
    NewPlace(vals, mem, free, p, []);
  }

  lemma ValStays(s: State, op: Op, u: Addr)
    requires ValsOk(s.vals, s.mem, s.a.free) && Legal(s, op) && u in s.vals && !Touches(s, op, u)
    ensures u in Step(s, op).vals && Step(s, op).vals[u] == s.vals[u]
  {
    EntryStays(s, op, u);
    StepsTheMap(s, op);
  }

  ghost predicate Untouched(s: State, ops: seq<Op>, u: Addr)
    decreases |ops|
  {
    ops == [] || (Legal(s, ops[0]) && !Touches(s, ops[0], u) && Untouched(Step(s, ops[0]), ops[1..], u))
  }

  /** An item nobody rewrites keeps its value, whatever else is inserted or changed. */
  lemma {:induction false} ValKept(s: State, ops: seq<Op>, s1: State, u: Addr)
    requires Inv(s) && Reaches(s, ops, s1) && Untouched(s, ops, u) && u in s.vals
    ensures u in s1.vals && s1.vals[u] == s.vals[u]
    decreases |ops|
  {
    if ops != [] {
      StepKeeps(s, ops[0]);
      ValStays(s, ops[0], u);
      ValKept(Step(s, ops[0]), ops[1..], s1, u);
    }
  }

  /** Inserted data is read back at its address after any later operations that do not rewrite it. */
  lemma InsertedReadsBack(s: State, t: nat, ops: seq<Op>, s1: State)
    requires Reachable(s) && Legal(s, Apply(t)) && Reaches(Step(s, Apply(t)), ops, s1)
    requires Untouched(Step(s, Apply(t)), ops, Addr(s.a.own[t].pgno, Fso(s.mem[s.a.own[t].pgno])))
    ensures var u := Addr(s.a.own[t].pgno, Fso(s.mem[s.a.own[t].pgno]));
            && u !in s.vals
            && u.pgno in s1.mem && |s1.mem[u.pgno]| == PAGE_SIZE && u.off + 3 <= PAGE_SIZE
            && ReadAt(s1.mem[u.pgno], u.off) == Some(s.ins[t].raw[3..])
  {
    var p := s.a.own[t].pgno;
    var u := Addr(p, Fso(s.mem[p]));
    ReachableKept(s);
    NewPlace(s.vals, s.mem, s.a.free, p, []);
    StepKeeps(s, Apply(t));
    var s0 := Step(s, Apply(t));
    assert s0.vals[u] == s.ins[t].raw[3..];
    ValKept(s0, ops, s1, u);
    RunKeeps(s0, ops, s1);
    ValReads(s1.vals, s1.mem, s1.a.free, u);
  }

  /* ----- a crash and recovery ----- */

  /** At any crash the log is well formed and the file, cut to the last page it names, has the pages it needs. */
  lemma CrashHolds(s: State)
    requires Reachable(s)
    ensures WellFormed(s.log) && HoldsPages(s.disk, s.log)
    ensures HoldsPages(Resized(s.disk, PageCount(s.log)), s.log)
    ensures forall p :: p in Resized(s.disk, PageCount(s.log)) ==>
              p in s.disk && Resized(s.disk, PageCount(s.log))[p] == s.disk[p]
  {
    ReachableKept(s);
    LogPages(s.a.noPages, s.log, s.disk);
  }

  lemma LogPages(n: nat, log: seq<Rec>, disk: Pages)
    requires LogOk(n, log) && AllPages(disk) && n >= 1 && forall p :: p in disk <==> 1 <= p <= n
    ensures WellFormed(log) && HoldsPages(disk, log) && HoldsPages(Resized(disk, PageCount(log)), log)
    ensures forall p :: p in Resized(disk, PageCount(log)) ==> p in disk && Resized(disk, PageCount(log))[p] == disk[p]
  {
    ResizedHolds(disk, log);
    MaxPgnoBounds(log);
    assert PageCount(log) <= n;
  }

  /** Every item any run has logged can be recovered, whatever the pages hold at the crash. */
  lemma CrashRecovers(s: State, ps: Pages, active: set<nat>, xs: seq<nat>, i: nat)
    requires Reachable(s) && HoldsPages(ps, s.log)
    requires ActiveLast(s.log, active) && Order(s.log, active, xs) && i < |s.log|
    ensures WellFormed(s.log)
    ensures var it := RecPlace(s.log[i]);
            Some(BytesAt(Recovered(ps, s.log, active, xs), it)) == Owed(s.log, active, it)
  {
    CrashHolds(s);
    RecoveredItem(ps, s.log, active, xs, i);
  }

  lemma LoggedImage(s: State, u: Addr, cov: map<nat, Cover>)
    requires Synced(s.mem, s.log, s.a.free, cov, s.locks, s.vals) && CoversOk(s.mem, s.log, s.a.free, cov)
    requires ValsOk(s.vals, s.mem, s.a.free) && ValsApart(s.vals) && u in s.vals && u !in s.locks
    ensures u.off + 3 + |s.vals[u]| <= PAGE_SIZE
    ensures Replay(s.log, u.pgno)[u.off..u.off + 3 + |s.vals[u]|] == Wrap(s.vals[u])
  {
    var pg := s.mem[u.pgno];
    assert ValOk(u, s.vals[u], pg);
    assert u.pgno in cov ==> CoverOk(pg, Replay(s.log, u.pgno), cov[u.pgno]);
    ClearItem(pg, Replay(s.log, u.pgno), cov, s.locks, s.vals, u);
  }

  /** The log has the value of every item that is not being changed. */
  lemma LoggedValue(s: State, u: Addr)
    requires Reachable(s) && u in s.vals && u !in s.locks
    ensures Inserted(s.log, DataRuns.Place(u, s.vals[u])) && u.off + 3 + |s.vals[u]| <= PAGE_SIZE
    ensures Image(s.log, DataRuns.Place(u, s.vals[u])) == Some(Wrap(s.vals[u]))
  {
    ReachableKept(s);
    LoggedImage(s, u, Covers(s.a, s.ins));
    ImageOfVal(s, u);
  }

  lemma ImageOfVal(s: State, u: Addr)
    requires LogOk(s.a.noPages, s.log) && ValsLogged(s.vals, s.log) && u in s.vals && u.off + 3 + |s.vals[u]| <= PAGE_SIZE
    requires Replay(s.log, u.pgno)[u.off..u.off + 3 + |s.vals[u]|] == Wrap(s.vals[u])
    ensures Inserted(s.log, DataRuns.Place(u, s.vals[u]))
    ensures Image(s.log, DataRuns.Place(u, s.vals[u])) == Some(Wrap(s.vals[u]))
  {
    ItemImage(s.a.noPages, s.log, DataRuns.Place(u, s.vals[u]));
  }

  ghost predicate NoActiveWriter(log: seq<Rec>, active: set<nat>, it: Item) {
    forall i :: 0 <= i < |log| && RecPlace(log[i]) == it ==> log[i].xid !in active
  }

  /**
   * Durability: an item that only finished transactions have written, and that nobody was changing
   * at the crash, is read after recovery with the value it had, whether or not its page was written back.
   */
  lemma FinishedWritesSurvive(s: State, ps: Pages, active: set<nat>, xs: seq<nat>, u: Addr)
    requires Reachable(s) && HoldsPages(ps, s.log) && ActiveLast(s.log, active) && Order(s.log, active, xs)
    requires u in s.vals && u !in s.locks && NoActiveWriter(s.log, active, DataRuns.Place(u, s.vals[u]))
    ensures WellFormed(s.log)
    ensures var qs := Recovered(ps, s.log, active, xs);
            && u.pgno in qs && |qs[u.pgno]| == PAGE_SIZE && u.off + 3 + |s.vals[u]| <= PAGE_SIZE
            && ReadAt(qs[u.pgno], u.off) == Some(s.vals[u])
  {
    var it := DataRuns.Place(u, s.vals[u]);
    LoggedValue(s, u);
    var i :| InsertsAt(s.log, i, it);
    CrashRecovers(s, ps, active, xs, i);
    NotWithdrawn(s.log, active, it);
    ImageSettled(s.log, active, it);
    ReadWrap(Recovered(ps, s.log, active, xs)[u.pgno], u.off, s.vals[u]);
  }

  /** Atomicity of insertions: an item inserted by a transaction that was active at the crash reads as nothing. */
  lemma UnfinishedInsertsVanish(s: State, ps: Pages, active: set<nat>, xs: seq<nat>, i: nat)
    requires Reachable(s) && HoldsPages(ps, s.log) && ActiveLast(s.log, active) && Order(s.log, active, xs)
    requires i < |s.log| && s.log[i].Insertion? && s.log[i].xid in active && s.log[i].off + 3 <= PAGE_SIZE
    ensures WellFormed(s.log)
    ensures var qs, r := Recovered(ps, s.log, active, xs), s.log[i];
            r.pgno in qs && |qs[r.pgno]| == PAGE_SIZE && ReadAt(qs[r.pgno], r.off) == None
  {
    var it, r := RecPlace(s.log[i]), s.log[i];
    CrashRecovers(s, ps, active, xs, i);
    assert InsertsAt(s.log, i, it);
    WithdrawnBy(s.log, active, i);
    assert Fits(Redo(r));
    var pg := Recovered(ps, s.log, active, xs)[r.pgno];
    assert pg[r.off] == pg[r.off..r.off + |r.raw|][0];
  }

  /* ----- a second crash ----- */

  /** Every image in the log has the valid flag. */
  ghost predicate ValidImages(log: seq<Rec>) {
    forall i :: 0 <= i < |log| ==> |NewBytes(log[i])| >= 3 && NewBytes(log[i])[0] == 0
  }

  predicate ChangesLog(op: Op) {
    op.Log? || op.After?
  }

  lemma SameLogItem(s: State, op: Op)
    requires Legal(s, op) && (op.Open? || op.Before? || op.Modify? || op.UnBefore? || op.Close?)
    ensures Step(s, op).log == s.log
  {
  }

  lemma SameLogWrite(s: State, op: Op)
    requires Legal(s, op) && (op.FetchFail? || op.Apply? || op.LogFail? || op.Release? || op.Return?)
    ensures Step(s, op).log == s.log
  {
  }

  lemma SameLogInsert(s: State, op: Op)
    requires Legal(s, op) && (op.Begin? || op.Seek? || op.Grow? || op.Shelve? || op.GiveUp? || op.Fetch?)
    ensures Step(s, op).log == s.log
  {
  }

  lemma LogImage(s: State, t: nat)
    requires InsOk(s.a.own, s.a.free, s.ins, s.vals) && Legal(s, Log(t)) && ValidImages(s.log)
    ensures ValidImages(Step(s, Log(t)).log)
  {
    LogStep(s, t);
    assert Flies(s.a.own[t], s.ins[t], s.a.free, s.vals);
  }

  lemma AfterImage(s: State, t: nat, xid: nat)
    requires ValsOk(s.vals, s.mem, s.a.free) && Legal(s, After(t, xid)) && ValidImages(s.log)
    ensures ValidImages(Step(s, After(t, xid)).log)
  {
    UserVal(s, t);
    AfterStep(s, t, xid);
  }

  lemma ImagesStayValid(s: State, op: Op)
    requires InsOk(s.a.own, s.a.free, s.ins, s.vals) && ValsOk(s.vals, s.mem, s.a.free) && Legal(s, op) && ValidImages(s.log)
    ensures ValidImages(Step(s, op).log)
  {
    if op.Log? {
      LogImage(s, op.t);
    } else if op.After? {
      AfterImage(s, op.t, op.xid);
    } else {
      SameLog(s, op);
    }
  }

  lemma SameLog(s: State, op: Op)
    requires Legal(s, op) && !ChangesLog(op)
    ensures Step(s, op).log == s.log
  {
    if op.Open? || op.Before? || op.Modify? || op.UnBefore? || op.Close? {
      SameLogItem(s, op);
    } else if op.FetchFail? || op.Apply? || op.LogFail? || op.Release? || op.Return? {
      SameLogWrite(s, op);
    } else {
      SameLogInsert(s, op);
    }
  }

  lemma {:induction false} RunImages(s: State, ops: seq<Op>, s1: State)
    requires Inv(s) && ValidImages(s.log) && Reaches(s, ops, s1)
    ensures ValidImages(s1.log)
    decreases |ops|
  {
    if ops != [] {
      StepKeeps(s, ops[0]);
      ImagesStayValid(s, ops[0]);
      RunImages(Step(s, ops[0]), ops[1..], s1);
    }
  }

  lemma LoggedImagesAreValid(s: State)
    requires Reachable(s)
    ensures ValidImages(s.log)
  {
    var page1, ops :| |page1| == PAGE_SIZE && Reaches(Initial(page1), ops, s);
    InitialKept(page1);
    RunImages(Initial(page1), ops, s);
  }

  /**
   * After a second recovery, with some transactions marked aborted by the first, an item inserted by
   * a transaction active at the crash reads as nothing if and only if its inserter is still active,
   * whatever updates the item has had.
   */
  lemma SecondRecoveryHidesIff(s: State, ps: Pages, active: set<nat>, xs: seq<nat>, later: set<nat>, ys: seq<nat>, i: nat)
    requires Reachable(s) && HoldsPages(ps, s.log) && ActiveLast(s.log, active) && Order(s.log, active, xs)
    requires later <= active && Order(s.log, later, ys)
    requires i < |s.log| && s.log[i].Insertion? && s.log[i].xid in active
    ensures WellFormed(s.log) && HoldsPages(Recovered(ps, s.log, active, xs), s.log)
    ensures var qs, r := Recovered(Recovered(ps, s.log, active, xs), s.log, later, ys), s.log[i];
            && r.pgno in qs && |qs[r.pgno]| == PAGE_SIZE && r.off + 3 <= PAGE_SIZE
            && (ReadAt(qs[r.pgno], r.off) == None <==> r.xid in later)
  {
    CrashHolds(s);
    LoggedImagesAreValid(s);
    FlaggedInsertComesBackIff(ps, s.log, active, xs, later, ys, i);
    var qs, r := Recovered(Recovered(ps, s.log, active, xs), s.log, later, ys), s.log[i];
    assert Fits(Redo(r));
    FirstByte(qs[r.pgno], r.off, |r.raw|);
    SecondRecovery(ps, s.log, active, xs, later, ys, i);
    WithdrawnBy(s.log, active, i);
    LastImage(s.log, i);
  }

  /** Whether an item reads as nothing is decided by its first byte. */
  lemma FirstByte(pg: seq<Byte>, off: nat, n: nat)
    requires |pg| == PAGE_SIZE && n >= 3 && off + n <= PAGE_SIZE
    ensures ReadAt(pg, off) == None <==> pg[off..off + n][0] != 0
  {
  }

  /* ----- free space after recovery ----- */

  lemma {:induction false} ReplayFsoGrows(log: seq<Rec>, more: seq<Rec>, p: nat)
    requires forall i :: 0 <= i < |more| ==> Fits(Redo(more[i]))
    ensures Fso(Replay(log, p)) <= Fso(Replay(log + more, p))
    decreases |more|
  {
    if more == [] {
      assert log + more == log;
    } else {
      var k := |more| - 1;
      ReplayFsoGrows(log, more[..k], p);
      assert log + more == (log + more[..k]) + [more[k]];
      ReplayFsoSnoc(log + more[..k], more[k], p);
    }
  }

  lemma ReplayFsoPrefix(log: seq<Rec>, n: nat, p: nat)
    requires Framed(log) && n <= |log|
    ensures Fso(Replay(log[..n], p)) <= Fso(Replay(log, p))
  {
    assert log == log[..n] + log[n..];
    ReplayFsoGrows(log[..n], log[n..], p);
  }

  lemma {:induction false} ReplayFsoIsEnd(log: seq<Rec>, p: nat)
    requires Framed(log)
    ensures Fso(Replay(log, p)) == 2 || exists i :: EndsAt(log, i, p, Fso(Replay(log, p)))
    decreases |log|
  {
    if log == [] {
      InitFso();
    } else {
      var k := |log| - 1;
      var pre, r := log[..k], log[k];
      ReplayFsoIsEnd(pre, p);
      ReplayFso(pre, p);
      assert Fits(Redo(r));
      if r.pgno == p {
        WriteFso(map[p := Replay(pre, p)], Redo(r), p);
      }
      var f, f0 := Fso(Replay(log, p)), Fso(Replay(pre, p));
      if f != f0 {
        assert EndsAt(log, k, p, f);
      } else if f != 2 {
        var i :| EndsAt(pre, i, p, f);
        assert EndsAt(log, i, p, f);
      }
    }
  }

  /** Recovery restores the free-space offset the log implies, from the page as it was on disk. */
  lemma FreeSpaceIsRestored(s: State, ps: Pages, active: set<nat>, xs: seq<nat>, p: nat)
    requires Reachable(s) && HoldsPages(ps, s.log) && Order(s.log, active, xs)
    requires 2 <= p <= s.a.noPages && p in ps && p in s.disk && ps[p] == s.disk[p]
    ensures Framed(s.log) && Fso(Recovered(ps, s.log, active, xs)[p]) == Fso(Replay(s.log, p))
  {
    WriteAheadRule(s, p);
    CrashHolds(s);
    var n :| 0 <= n <= |s.log| && s.disk[p] == Replay(s.log[..n], p);
    ReplayFso(s.log[..n], p);
    ReplayFsoPrefix(s.log, n, p);
    ReplayFsoIsEnd(s.log, p);
    RecoveredFso(ps, s.log, active, xs, p);
    EndsBelow(s, p);
  }

  lemma EndsBelow(s: State, p: nat)
    requires Reachable(s)
    ensures forall i, end :: EndsAt(s.log, i, p, end) ==> end <= Fso(Replay(s.log, p))
  {
    ReachableKept(s);
  }

  /* ----- large items ----- */

  lemma ListedFree(s: State, pr: Pair)
    requires Reachable(s) && pr in Multi(s.a.lists)
    ensures pr.pgno in s.mem && |s.mem[pr.pgno]| == PAGE_SIZE && ValidFso(Fso(s.mem[pr.pgno]))
    ensures pr.free == PAGE_SIZE - Fso(s.mem[pr.pgno])
  {
    ReachableKept(s);
  }

  lemma LastListFree(s: State)
    requires Reachable(s) && s.a.lists[INTERVALS] != []
    ensures s.a.lists[INTERVALS][0].free >= SAFE && s.a.lists[INTERVALS][0] in Multi(s.a.lists)
  {
    ReachableKept(s);
    assert FiledUnder(s.a.lists[INTERVALS], INTERVALS);
    PopMulti(s.a.lists, INTERVALS);
  }

  /**
   * An item of more than 8160 bytes, put on the page selected for it, reads back if and only if the
   * oldest page of the last list has room for it.
   */
  lemma LargeInsertReadsBackIff(s: State, data: seq<Byte>)
    requires Reachable(s) && SAFE < |Wrap(data)| <= MAX_FREE && Select(s.a.lists, |Wrap(data)|).1.Some?
    ensures var p := Select(s.a.lists, |Wrap(data)|).1.value.pgno;
            && p in s.mem && |s.mem[p]| == PAGE_SIZE && Fso(s.mem[p]) + 3 <= PAGE_SIZE
            && (ReadAt(PxInsertCut(s.mem[p], Wrap(data)), Fso(s.mem[p])) == Some(data) <==> Roomy(s.a.lists, |Wrap(data)|))
  {
    var pr := Select(s.a.lists, |Wrap(data)|).1.value;
    assert Bucket(|Wrap(data)|) == INTERVALS;
    LastListFree(s);
    ListedFree(s, pr);
    InsertReadsBackIff(s.mem[pr.pgno], data);
  }

  /* ----- nothing blocks an insertion but the operations of the file and the log ----- */

  /** An insertion may always go on: if it has a page, the page exists and has the room. */
  lemma InsertionIsEnabled(s: State, t: nat)
    requires Reachable(s) && t in s.a.own
    ensures t in s.ins && Enabled(s, t, s.ins[t].at)
  {
    ReachableKept(s);
    if s.a.own[t].Holding? {
      PageEnabled(s, t);
    } else {
      SeekEnabled(s, t);
    }
  }

  /** The next operation of an insertion at this point is legal, unless a large item would get too small a page. */
  ghost predicate Enabled(s: State, t: nat, at: Phase)
    requires t in s.a.own
  {
    match at
    case Seeks =>
      || (s.a.own[t].Seeking? && !Roomy(s.a.lists, s.a.own[t].size))
      || Legal(s, Seek(t)) || Legal(s, Grow(t)) || Legal(s, Shelve(t)) || Legal(s, GiveUp(t)) || Legal(s, Fetch(t))
    case Fetched => Legal(s, Log(t))
    case Logged(_) => Legal(s, Apply(t))
    case Applied(_) => Legal(s, Release(t))
    case Released(_) => Legal(s, Return(t))
    case _ => false
  }

  lemma SeekEnabled(s: State, t: nat)
    requires InsOk(s.a.own, s.a.free, s.ins, s.vals) && t in s.a.own && !s.a.own[t].Holding?
    ensures t in s.ins && Enabled(s, t, s.ins[t].at)
  {
    assert Flies(s.a.own[t], s.ins[t], s.a.free, s.vals);
  }

  lemma PageEnabled(s: State, t: nat)
    requires Sized(s.a.noPages, s.a.free, s.mem, s.disk) && InsOk(s.a.own, s.a.free, s.ins, s.vals)
    requires t in s.a.own && s.a.own[t].Holding?
    ensures t in s.ins && Enabled(s, t, s.ins[t].at)
  {
    assert Flies(s.a.own[t], s.ins[t], s.a.free, s.vals);
    var p := s.a.own[t].pgno;
    assert HasPage(s, t) && s.a.free[p] == PAGE_SIZE - Fso(s.mem[p]);
    A.BucketBound(s.a.free[p]);
  }

  lemma StepReaches(s: State, op: Op)
    requires Reachable(s) && Legal(s, op)
    ensures Reachable(Step(s, op))
  {
    var page1, ops :| |page1| == PAGE_SIZE && Reaches(Initial(page1), ops, s);
    ReachesSnoc(Initial(page1), ops, s, op);
  }

  lemma {:induction false} ReachesSnoc(s: State, ops: seq<Op>, s1: State, op: Op)
    requires Reaches(s, ops, s1) && Legal(s1, op)
    ensures Reaches(s, ops + [op], Step(s1, op))
    decreases |ops|
  {
    var all := ops + [op];
    if ops == [] {
      assert all[1..] == [];
      assert Reaches(Step(s, op), all[1..], Step(s1, op));
    } else {
      ReachesSnoc(Step(s, ops[0]), ops[1..], s1, op);
      assert all[1..] == ops[1..] + [op];
    }
  }
}

/** The data manager object, used by one client at a time. */
module DataManager {
  import opened Types
  import opened Bytes
  import opened LogRecords
  import opened Recovery
  import opened DataItems
  import opened PageIndex
  import opened DataRuns
  import opened DataGuarantees
  import DataSteps
  import A = Allocation

  datatype Result = At(addr: Addr) | ErrTooLarge | ErrBusy

  /** Nothing is in flight. */
  ghost predicate Calm(g: State) {
    g.a.own == map[] && g.users == map[] && g.locks == map[] && g.pinned == {} && g.disk == g.mem
  }

  /** Insertion `t` alone is in flight, since state `s0`. */
  ghost predicate Alone(g: State, t: nat, i: Ins, o: A.Own, s0: State) {
    && t in g.ins && g.ins[t] == i && g.a.own == map[t := o]
    && g.users == map[] && g.locks == map[] && g.pinned == {} && g.disk == g.mem
    && g.log == s0.log && g.vals == s0.vals
    && (forall v :: v in g.ins ==> v == t || v in s0.ins)
  }

  lemma AloneBegin(s0: State, t: nat, xid: nat, data: seq<Byte>)
    requires Calm(s0) && Legal(s0, Begin(t, xid, data)) && |Wrap(data)| <= MAX_FREE
    ensures var g := Step(s0, Begin(t, xid, data));
            && Alone(g, t, Ins(xid, Wrap(data), Seeks), A.Seeking(|Wrap(data)|, 0), s0)
            && g.a.lists == s0.a.lists && g.a.noPages == s0.a.noPages && g.mem == s0.mem
  {
  }

  lemma AloneSeek(g: State, t: nat, i: Ins, k: nat, s0: State)
    requires Alone(g, t, i, A.Seeking(|i.raw|, k), s0) && k < A.TRIES && Roomy(g.a.lists, |i.raw|)
    ensures Legal(g, Seek(t))
    ensures var g1 := Step(g, Seek(t));
            var (rest, found) := Select(g.a.lists, |i.raw|);
            && g1.a.lists == rest && g1.a.noPages == g.a.noPages && g1.mem == g.mem
            && Alone(g1, t, i, (match found case Some(pr) => A.Holding(|i.raw|, pr.pgno, pr.free)
                                            case None => A.Growing(|i.raw|, k)), s0)
  {
  }

  lemma AloneGrow(g: State, t: nat, i: Ins, k: nat, s0: State)
    requires Alone(g, t, i, A.Growing(|i.raw|, k), s0)
    ensures Legal(g, Grow(t))
    ensures var g1, p := Step(g, Grow(t)), g.a.noPages + 1;
            && g1.a.lists == g.a.lists && g1.a.noPages == p && g1.mem == g.mem[p := InitPage()]
            && Alone(g1, t, i, A.Fresh(|i.raw|, k, p), s0)
  {
  }

  lemma AloneShelve(g: State, t: nat, i: Ins, k: nat, p: nat, s0: State)
    requires Alone(g, t, i, A.Fresh(|i.raw|, k, p), s0)
    ensures Legal(g, Shelve(t)) && Bucket(MAX_FREE) <= INTERVALS
    ensures var g1 := Step(g, Shelve(t));
            && g1.a.lists == Add(g.a.lists, Pair(p, MAX_FREE)) && g1.a.noPages == g.a.noPages && g1.mem == g.mem
            && Alone(g1, t, i, A.Seeking(|i.raw|, k + 1), s0)
  {
  }

  /** An insertion that has its page takes its next step. */
  lemma GoOn(g: State, t: nat, op: Op)
    requires Reachable(g) && t in g.a.own && g.a.own[t].Holding?
    requires t in g.ins ==>
               op == match g.ins[t].at
                     case Seeks => Fetch(t) case Fetched => Log(t) case Logged(_) => Apply(t) case Applied(_) => Release(t)
                     case _ => Return(t)
    ensures Legal(g, op) && Reachable(Step(g, op))
  {
    PageReady(g, t);
    StepReaches(g, op);
  }

  lemma PageReady(g: State, t: nat)
    requires Reachable(g) && t in g.a.own && g.a.own[t].Holding?
    ensures t in g.ins && Enabled(g, t, g.ins[t].at)
  {
    ReachableKept(g);
    PageEnabled(g, t);
  }

  lemma AloneFetch(g: State, t: nat, i: Ins, o: A.Own, s0: State)
    requires Alone(g, t, i, o, s0) && Legal(g, Fetch(t))
    ensures var g1 := Step(g, Fetch(t));
            Alone(g1, t, Ins(i.xid, i.raw, Fetched), o, s0) && g1.a == g.a && g1.mem == g.mem
  {
  }

  lemma AloneLog(g: State, t: nat, i: Ins, o: A.Own, s0: State)
    requires Alone(g, t, i, o, s0) && Legal(g, Log(t))
    ensures var g1, off := Step(g, Log(t)), Fso(g.mem[o.pgno]);
            && Alone(g1, t, Ins(i.xid, i.raw, Logged(off)), o, s0.(log := s0.log + [Insertion(i.xid, o.pgno, off, i.raw)]))
            && g1.a == g.a && g1.mem == g.mem
  {
  }

  lemma AloneApply(g: State, t: nat, i: Ins, o: A.Own, s0: State)
    requires Alone(g, t, i, o, s0) && Legal(g, Apply(t)) && A.Agree(g.a.own, g.a.holder) && Legal(Step(g, Apply(t)), Release(t))
    ensures var g1, u := Step(Step(g, Apply(t)), Release(t)), Addr(o.pgno, Fso(g.mem[o.pgno]));
            && Alone(g1, t, Ins(i.xid, i.raw, Released(u.off)), o, s0.(vals := s0.vals[u := i.raw[3..]]))
            && g1.mem == g.mem[u.pgno := PxInsert(g.mem[u.pgno], i.raw)]
            && g1.a.lists == g.a.lists && g1.a.noPages == g.a.noPages
  {
    var p, h := o.pgno, Step(g, Apply(t));
    NobodyElse(g.a, t, o, p);
    AloneRelease(g, h, t, p);
  }

  lemma NobodyElse(a: A.State, t: nat, o: A.Own, p: nat)
    requires A.Agree(a.own, a.holder) && a.own == map[t := o] && o.Holding? && o.pgno == p
    ensures forall q :: q in a.holder ==> a.holder[q] == t
  {
    forall q | q in a.holder ensures a.holder[q] == t {
      assert A.Has(a.own[a.holder[q]], q);
    }
  }

  /** The page is left unheld, so it is written back. */
  lemma AloneRelease(g: State, h: State, t: nat, p: nat)
    requires Legal(h, Release(t)) && p == h.a.own[t].pgno && h.users == map[] && h.pinned == {}
    requires p in g.mem && g.disk == g.mem && h.disk == g.disk && p in h.mem && h.mem == g.mem[p := h.mem[p]]
    requires forall q :: q in h.a.holder ==> h.a.holder[q] == t
    ensures var g1 := Step(h, Release(t)); g1.disk == g1.mem && g1.mem == h.mem
  {
    var g1 := Step(h, Release(t));
    assert Busy(g1.a, g1.ins) == {};
    assert Held(g1) == {};
  }

  lemma AloneReturn(g: State, t: nat, i: Ins, o: A.Own, s0: State)
    requires Alone(g, t, i, o, s0) && Legal(g, Return(t)) && Sized(g.a.noPages, g.a.free, g.mem, g.disk)
    ensures o.pgno in g.mem && |g.mem[o.pgno]| == PAGE_SIZE && Fso(g.mem[o.pgno]) <= PAGE_SIZE
    ensures var g1, p := Step(g, Return(t)), o.pgno;
            && Calm(g1) && Bucket(PAGE_SIZE - Fso(g.mem[p])) <= INTERVALS
            && g1.a.lists == Add(g.a.lists, Pair(p, PAGE_SIZE - Fso(g.mem[p]))) && g1.a.noPages == g.a.noPages
            && g1.mem == g.mem && g1.log == s0.log && g1.vals == s0.vals
            && forall v :: v in g1.ins ==> v == t || v in s0.ins
  {
  }

  /** An insertion alone with its page logs the item. */
  lemma Logs(g: State, t: nat, i: Ins, o: A.Own, s0: State) returns (g1: State)
    requires Reachable(g) && Alone(g, t, i, o, s0) && o.Holding? && i.at.Seeks?
    ensures Reachable(g1) && g1.a == g.a && g1.mem == g.mem && o.pgno in g.mem && |g.mem[o.pgno]| == PAGE_SIZE
    ensures var off := Fso(g.mem[o.pgno]);
            Alone(g1, t, Ins(i.xid, i.raw, Logged(off)), o, s0.(log := s0.log + [Insertion(i.xid, o.pgno, off, i.raw)]))
  {
    GoOn(g, t, Fetch(t));
    AloneFetch(g, t, i, o, s0);
    var h := Step(g, Fetch(t));
    GoOn(h, t, Log(t));
    AloneLog(h, t, Ins(i.xid, i.raw, Fetched), o, s0);
    g1 := Step(h, Log(t));
  }

  lemma Puts(g: State, t: nat, i: Ins, o: A.Own, s0: State) returns (g1: State)
    requires Reachable(g) && Alone(g, t, i, o, s0) && o.Holding? && i.at.Logged?
    ensures Reachable(g1) && g1.a.lists == g.a.lists && g1.a.noPages == g.a.noPages
    ensures o.pgno in g.mem && |g.mem[o.pgno]| == PAGE_SIZE && Fso(g.mem[o.pgno]) + |i.raw| <= PAGE_SIZE && |i.raw| >= 3
    ensures var u := Addr(o.pgno, Fso(g.mem[o.pgno]));
            && g1.mem == g.mem[u.pgno := PxInsert(g.mem[u.pgno], i.raw)]
            && Alone(g1, t, Ins(i.xid, i.raw, Released(u.off)), o, s0.(vals := s0.vals[u := i.raw[3..]]))
  {
    GoOn(g, t, Apply(t));
    var h := Step(g, Apply(t));
    GoOn(h, t, Release(t));
    Holders(g);
    AloneApply(g, t, i, o, s0);
    g1 := Step(h, Release(t));
  }

  lemma Holders(g: State)
    requires Reachable(g)
    ensures A.Agree(g.a.own, g.a.holder)
  {
    ReachableKept(g);
  }

  lemma Sizes(g: State)
    requires Reachable(g)
    ensures Sized(g.a.noPages, g.a.free, g.mem, g.disk)
  {
    ReachableKept(g);
  }

  /** An address just handed out was not in use. */
  lemma NewAddress(g: State, p: nat)
    requires Reachable(g) && p in g.mem && |g.mem[p]| == PAGE_SIZE
    ensures Addr(p, Fso(g.mem[p])) !in g.vals
  {
    ReachableKept(g);
    DataSteps.NewPlace(g.vals, g.mem, g.a.free, p, []);
  }

  lemma GivesBack(g: State, t: nat, i: Ins, o: A.Own, s0: State) returns (g1: State)
    requires Reachable(g) && Alone(g, t, i, o, s0) && o.Holding? && i.at.Released?
    ensures Reachable(g1) && Calm(g1) && o.pgno in g.mem && |g.mem[o.pgno]| == PAGE_SIZE && Fso(g.mem[o.pgno]) <= PAGE_SIZE
    ensures var free := PAGE_SIZE - Fso(g.mem[o.pgno]);
            Bucket(free) <= INTERVALS && g1.a.lists == Add(g.a.lists, Pair(o.pgno, free)) && g1.a.noPages == g.a.noPages
    ensures g1.mem == g.mem && g1.log == s0.log && g1.vals == s0.vals
    ensures forall v :: v in g1.ins ==> v == t || v in s0.ins
  {
    GoOn(g, t, Return(t));
    Sizes(g);
    AloneReturn(g, t, i, o, s0);
    g1 := Step(g, Return(t));
  }

  /** A new page goes to the index, where the insertion will find it. */
  lemma Extends(g: State, t: nat, i: Ins, k: nat, s0: State) returns (g1: State)
    requires Reachable(g) && Alone(g, t, i, A.Growing(|i.raw|, k), s0) && |i.raw| <= MAX_FREE
    ensures Reachable(g1) && Alone(g1, t, i, A.Seeking(|i.raw|, k + 1), s0)
    ensures Bucket(MAX_FREE) <= INTERVALS && g1.a.lists == Add(g.a.lists, Pair(g.a.noPages + 1, MAX_FREE))
    ensures g1.a.noPages == g.a.noPages + 1 && g1.mem == g.mem[g1.a.noPages := InitPage()]
    ensures Select(g1.a.lists, |i.raw|).1.Some? && (Select(g.a.lists, |i.raw|).1.None? ==> Roomy(g1.a.lists, |i.raw|))
  {
    AloneGrow(g, t, i, k, s0);
    StepReaches(g, Grow(t));
    var h := Step(g, Grow(t));
    AloneShelve(h, t, i, k, h.a.noPages, s0);
    StepReaches(h, Shelve(t));
    g1 := Step(h, Shelve(t));
    A.ShelvedIsFound(h.a.lists, h.a.noPages, |i.raw|);
  }

  /** An insertion alone with its page runs to its end. */
  lemma Finishes(g: State, t: nat, i: Ins, o: A.Own, s0: State) returns (g1: State)
    requires Reachable(g) && Alone(g, t, i, o, s0) && o.Holding? && i.at.Seeks?
    ensures Reachable(g1) && Calm(g1)
    ensures o.pgno in g.mem && |g.mem[o.pgno]| == PAGE_SIZE && Fso(g.mem[o.pgno]) + |i.raw| <= PAGE_SIZE && |i.raw| >= 3
    ensures var u, pg := Addr(o.pgno, Fso(g.mem[o.pgno])), PxInsert(g.mem[o.pgno], i.raw);
            && u !in s0.vals && g1.vals == s0.vals[u := i.raw[3..]]
            && g1.log == s0.log + [Insertion(i.xid, u.pgno, u.off, i.raw)]
            && g1.mem == g.mem[u.pgno := pg] && g1.a.noPages == g.a.noPages
            && Fso(pg) <= PAGE_SIZE && Bucket(PAGE_SIZE - Fso(pg)) <= INTERVALS
            && g1.a.lists == Add(g.a.lists, Pair(u.pgno, PAGE_SIZE - Fso(pg)))
    ensures forall v :: v in g1.ins ==> v == t || v in s0.ins
  {
    var h := Logs(g, t, i, o, s0);
    var u := Addr(o.pgno, Fso(g.mem[o.pgno]));
    NewAddress(g, u.pgno);
    var s1 := s0.(log := s0.log + [Insertion(i.xid, u.pgno, u.off, i.raw)]);
    var k := Puts(h, t, Ins(i.xid, i.raw, Logged(u.off)), o, s1);
    g1 := GivesBack(k, t, Ins(i.xid, i.raw, Released(u.off)), o, s1.(vals := s0.vals[u := i.raw[3..]]));
  }

  /** Over a calm state, a refused insertion changes nothing but its own record. */
  lemma Refused(g: State, t: nat, xid: nat, data: seq<Byte>)
    requires Reachable(g) && Calm(g) && t !in g.ins && |Wrap(data)| > MAX_FREE
    ensures var g1 := Step(g, Begin(t, xid, data));
            Reachable(g1) && Calm(g1) && g1.a == g.a && g1.mem == g.mem && g1.log == g.log && g1.vals == g.vals
  {
    StepReaches(g, Begin(t, xid, data));
  }

  class Store {
    var lists: Lists
    var noPages: nat
    var pages: Pages
    var log: seq<Rec>
    ghost var g: State
    ghost var clients: nat

    /** The object is the concrete part of a state of the machine. */
    ghost predicate Shows()
      reads this
    {
      lists == g.a.lists && noPages == g.a.noPages && pages == g.mem && log == g.log
    }

    ghost predicate Valid()
      reads this
    {
      Reachable(g) && Calm(g) && Shows() && forall t :: t in g.ins ==> t < clients
    }

    /** The items and their data. */
    ghost function Contents(): map<Addr, seq<Byte>>
      reads this
    {
      g.vals
    }

    constructor (page1: seq<Byte>)
      requires |page1| == PAGE_SIZE
      ensures Valid() && Contents() == map[] && log == []
    {
      lists, noPages, pages, log := Empty(), 1, map[1 := page1], [];
      g, clients := Initial(page1), 0;
      new;
      assert Reaches(Initial(page1), [], g);
    }

    /** The retry loop: select a page, or add a new one to the index and select again. */
    method Acquire(raw: seq<Byte>, ghost t: nat, ghost i: Ins, ghost s0: State) returns (found: Option<Pair>)
      requires Shows() && Reachable(g) && Alone(g, t, i, A.Seeking(|raw|, 0), s0) && i.raw == raw && |raw| <= MAX_FREE
      requires Roomy(lists, |raw|)
      modifies this
      ensures Shows() && Reachable(g) && clients == old(clients)
      ensures found.Some? && Alone(g, t, i, A.Holding(|raw|, found.value.pgno, found.value.free), s0)
    {
      found := None;
      var tries := 0;
      while tries < 5 && found.None?
        invariant 0 <= tries <= 5 && Shows() && Reachable(g) && clients == old(clients)
        invariant found.None? ==> Alone(g, t, i, A.Seeking(|raw|, tries), s0) && tries <= 1 && Roomy(lists, |raw|)
        invariant found.None? && tries == 1 ==> Select(lists, |raw|).1.Some?
        invariant found.Some? ==> Alone(g, t, i, A.Holding(|raw|, found.value.pgno, found.value.free), s0)
      {
        found := Attempt(raw, t, i, tries, s0);
        tries := tries + 1;
      }
    }

    /** One round of the loop. */
    method Attempt(raw: seq<Byte>, ghost t: nat, ghost i: Ins, ghost k: nat, ghost s0: State) returns (found: Option<Pair>)
      requires Shows() && Reachable(g) && Alone(g, t, i, A.Seeking(|raw|, k), s0) && k < A.TRIES && i.raw == raw && |raw| <= MAX_FREE
      requires Roomy(lists, |raw|)
      modifies this
      ensures Shows() && Reachable(g) && clients == old(clients)
      ensures found == Select(old(lists), |raw|).1
      ensures found.Some? ==> Alone(g, t, i, A.Holding(|raw|, found.value.pgno, found.value.free), s0)
      ensures found.None? ==> Alone(g, t, i, A.Seeking(|raw|, k + 1), s0) && Select(lists, |raw|).1.Some? && Roomy(lists, |raw|)
    {
      AloneSeek(g, t, i, k, s0);
      StepReaches(g, Seek(t));
      g := Step(g, Seek(t));
      var (rest, pr) := Select(lists, |raw|);
      lists := rest;
      found := pr;
      if found.None? {
        AddPage(raw, t, i, k, s0);
      }
    }

    method AddPage(raw: seq<Byte>, ghost t: nat, ghost i: Ins, ghost k: nat, ghost s0: State)
      requires Shows() && Reachable(g) && Alone(g, t, i, A.Growing(|raw|, k), s0) && i.raw == raw && |raw| <= MAX_FREE
      requires Select(lists, |raw|).1.None?
      modifies this
      ensures Shows() && Reachable(g) && clients == old(clients)
      ensures Alone(g, t, i, A.Seeking(|raw|, k + 1), s0) && Select(lists, |raw|).1.Some? && Roomy(lists, |raw|)
    {
      ghost var g1 := Extends(g, t, i, k, s0);
      StorePage(g1);
    }

    /** A new page goes to the file and to the index. */
    method StorePage(ghost g1: State)
      requires Shows() && Bucket(MAX_FREE) <= INTERVALS && g1.a.lists == Add(lists, Pair(noPages + 1, MAX_FREE))
      requires g1.a.noPages == noPages + 1 && g1.mem == pages[noPages + 1 := InitPage()] && g1.log == log
      modifies this
      ensures Shows() && g == g1 && clients == old(clients)
    {
      noPages := noPages + 1;
      pages := pages[noPages := InitPage()];
      lists := Add(lists, Pair(noPages, MAX_FREE));
      g := g1;
    }

    /** The page is logged on, written and listed again. */
    method PutItem(p: nat, xid: nat, raw: seq<Byte>, ghost t: nat, ghost o: A.Own, ghost s0: State) returns (addr: Addr)
      requires Shows() && Reachable(g) && Alone(g, t, Ins(xid, raw, Seeks), o, s0) && o.Holding? && o.pgno == p
      modifies this
      ensures Shows() && Reachable(g) && Calm(g) && clients == old(clients)
      ensures addr.pgno == p && addr !in s0.vals && |raw| >= 3 && g.vals == s0.vals[addr := raw[3..]]
      ensures g.log == s0.log + [Insertion(xid, p, addr.off, raw)]
      ensures forall v :: v in g.ins ==> v == t || v in s0.ins
    {
      ghost var g1 := Finishes(g, t, Ins(xid, raw, Seeks), o, s0);
      var pg := pages[p];
      var off := Fso(pg);
      log := log + [Insertion(xid, p, off, raw)];
      pg := PxInsert(pg, raw);
      pages := pages[p := pg];
      lists := Add(lists, Pair(p, PAGE_SIZE - Fso(pg)));
      addr := Addr(p, off);
      g := g1;
    }

    /**
     * Without competition an insertion is never told that the data manager is busy.  Above 8160 bytes
     * it needs room on the oldest page of the last list; without it the copy is cut off.
     */
    method Insert(xid: nat, data: seq<Byte>) returns (r: Result)
      requires Valid() && (|Wrap(data)| <= MAX_FREE ==> Roomy(lists, |Wrap(data)|))
      modifies this
      ensures Valid() && !r.ErrBusy?
      ensures r.ErrTooLarge? <==> 3 + |data| > MAX_FREE
      ensures r.ErrTooLarge? ==> Contents() == old(Contents()) && log == old(log)
      ensures r.At? ==>
                && r.addr !in old(Contents()) && Contents() == old(Contents())[r.addr := data]
                && log == old(log) + [Insertion(xid, r.addr.pgno, r.addr.off, Wrap(data))]
    {
      var raw := Wrap(data);
      ghost var t, s0 := clients, g;
      clients := clients + 1;
      if |raw| > MAX_FREE {
        Refused(g, t, xid, data);
        g := Step(g, Begin(t, xid, data));
        return ErrTooLarge;
      }
      AloneBegin(g, t, xid, data);
      StepReaches(g, Begin(t, xid, data));
      g := Step(g, Begin(t, xid, data));
      var found := Acquire(raw, t, Ins(xid, raw, Seeks), s0);
      if found.None? {
        return ErrBusy;
      }
      var addr := PutItem(found.value.pgno, xid, raw, t, A.Holding(|raw|, found.value.pgno, found.value.free), s0);
      assert raw[3..] == data;
      r := At(addr);
    }

    /** Every item reads as it was last written. */
    method Read(addr: Addr) returns (r: Option<seq<Byte>>)
      requires Valid() && addr in Contents()
      ensures r == Some(Contents()[addr])
    {
      ReadsTheMap(g, addr);
      r := ReadAt(pages[addr.pgno], addr.off);
    }
  }
}
