/** The data manager's steps that write pages or the log keep its invariant. */
module DataSteps {
  import opened Types
  import opened Bytes
  import opened LogRecords
  import opened Recovery
  import opened DataItems
  import opened PageIndex
  import opened DataRuns
  import A = Allocation

  /* ----- the log grows ----- */

  lemma {:induction false} ReplayFresh(log: seq<Rec>, p: nat)
    requires forall i :: 0 <= i < |log| ==> log[i].pgno != p
    ensures Replay(log, p) == InitPage()
    decreases |log|
  {
    if log != [] {
      ReplayFresh(log[..|log| - 1], p);
    }
  }

  lemma FramedSnoc(log: seq<Rec>, r: Rec)
    requires Framed(log) && Fits(Redo(r)) && (r.Update? ==> |r.before| == |r.after|)
    ensures Framed(log + [r])
  {
  }

  lemma UpdatesSnoc(log: seq<Rec>, r: Rec)
    requires UpdatesFollow(log)
    requires r.Update? ==> Inserted(log, RecPlace(r)) && Image(log, RecPlace(r)) == Some(r.before)
    ensures UpdatesFollow(log + [r])
  {
    var log1 := log + [r];
    forall j | 0 <= j < |log1| && log1[j].Update?
      ensures exists i :: 0 <= i < j && InsertsAt(log1, i, RecPlace(log1[j]))
      ensures Image(log1[..j], RecPlace(log1[j])) == Some(log1[j].before)
    {
      assert log1[..j] == log[..j];
      if j < |log| {
        var i :| 0 <= i < j && InsertsAt(log, i, RecPlace(log[j]));
        assert InsertsAt(log1, i, RecPlace(log1[j]));
      } else {
        var i :| InsertsAt(log, i, RecPlace(r));
        assert InsertsAt(log1, i, RecPlace(log1[j]));
        assert log[..|log|] == log;
      }
    }
  }

  lemma InsertedSnoc(log: seq<Rec>, r: Rec, it: Item)
    requires Inserted(log, it)
    ensures Inserted(log + [r], it)
  {
    var i :| InsertsAt(log, i, it);
    assert InsertsAt(log + [r], i, it);
  }

  /** The free space of the log's page never shrinks back. */
  lemma ReplayFsoSnoc(log: seq<Rec>, r: Rec, p: nat)
    requires Fits(Redo(r))
    ensures Fso(Replay(log, p)) <= Fso(Replay(log + [r], p))
    ensures r.Insertion? && r.pgno == p ==> r.off + |r.raw| <= Fso(Replay(log + [r], p))
    ensures !(r.Insertion? && r.pgno == p) ==> Fso(Replay(log + [r], p)) == Fso(Replay(log, p))
  {
    ReplaySnoc(log, r, p);
    ReplayFso(log, p);
    if r.pgno == p {
      WriteFso(map[p := Replay(log, p)], Redo(r), p);
    }
  }

  ghost predicate EndsBefore(log: seq<Rec>, whole: seq<Rec>) {
    forall i :: 0 <= i < |log| && log[i].Insertion? ==> log[i].off + |log[i].raw| <= Fso(Replay(whole, log[i].pgno))
  }

  lemma EndsSnoc(log: seq<Rec>, r: Rec)
    requires EndsBefore(log, log) && Fits(Redo(r))
    ensures EndsBefore(log + [r], log + [r])
  {
    forall i | 0 <= i < |log + [r]| && (log + [r])[i].Insertion?
      ensures (log + [r])[i].off + |(log + [r])[i].raw| <= Fso(Replay(log + [r], (log + [r])[i].pgno))
    {
      ReplayFsoSnoc(log, r, (log + [r])[i].pgno);
    }
  }

  lemma LogInsertion(n: nat, log: seq<Rec>, r: Rec)
    requires LogOk(n, log) && r.Insertion? && Fits(Redo(r)) && 2 <= r.pgno <= n && r.off == Fso(Replay(log, r.pgno))
    ensures LogOk(n, log + [r])
  {
    FramedSnoc(log, r);
    UpdatesSnoc(log, r);
    EndsSnoc(log, r);
    assert InsertsApart(log + [r]);
  }

  lemma LogUpdate(n: nat, log: seq<Rec>, r: Rec)
    requires LogOk(n, log) && r.Update? && Fits(Redo(r)) && 2 <= r.pgno <= n && |r.before| == |r.after|
    requires Inserted(log, RecPlace(r)) && Image(log, RecPlace(r)) == Some(r.before)
    ensures LogOk(n, log + [r])
  {
    FramedSnoc(log, r);
    UpdatesSnoc(log, r);
    EndsSnoc(log, r);
    assert InsertsApart(log + [r]);
  }

  lemma OnDiskSnoc(pg: seq<Byte>, log: seq<Rec>, r: Rec, p: nat)
    requires OnDisk(pg, log, p)
    ensures OnDisk(pg, log + [r], p)
  {
    var n :| 0 <= n <= |log| && pg == Replay(log[..n], p);
    assert (log + [r])[..n] == log[..n];
  }

  lemma DiskSnoc(mem: Pages, disk: Pages, log: seq<Rec>, r: Rec, free: map<nat, nat>, held: set<nat>)
    requires DiskOk(mem, disk, log, free, held)
    ensures DiskOk(mem, disk, log + [r], free, held)
  {
    forall p | p in free ensures OnDisk(disk[p], log + [r], p) {
      OnDiskSnoc(disk[p], log, r, p);
    }
  }

  lemma LoggedSnoc(vals: map<Addr, seq<Byte>>, log: seq<Rec>, r: Rec)
    requires ValsLogged(vals, log)
    ensures ValsLogged(vals, log + [r])
  {
    forall u | u in vals ensures Inserted(log + [r], DataRuns.Place(u, vals[u])) {
      InsertedSnoc(log, r, DataRuns.Place(u, vals[u]));
    }
  }

  /** The item of a logged insertion has the image the log gives its page. */
  lemma ItemImage(n: nat, log: seq<Rec>, it: Item)
    requires LogOk(n, log) && Inserted(log, it)
    ensures 2 <= it.off && it.off + it.len <= PAGE_SIZE
    ensures Image(log, it) == Some(Replay(log, it.pgno)[it.off..it.off + it.len])
  {
    var i :| InsertsAt(log, i, it);
    assert Fits(Redo(log[i]));
    ImageSome(log, i);
    forall j | 0 <= j < |log| ensures RecPlace(log[j]) == it || Apart(RecPlace(log[j]), it) {
      SameOrApart(log, j, i);
    }
    ReplayItem(log, it);
  }

  lemma {:induction false} ImageSome(log: seq<Rec>, i: nat)
    requires i < |log|
    ensures Image(log, RecPlace(log[i])).Some?
    decreases |log|
  {
    if i < |log| - 1 {
      ImageSome(log[..|log| - 1], i);
    }
  }

  /* ----- a new page ----- */

  ghost predicate Grown(s: State, s1: State) {
    var p := s.a.noPages + 1;
    && s1.a.noPages == p && s1.a.free == s.a.free[p := MAX_FREE]
    && s1.mem == s.mem[p := InitPage()] && s1.disk == s.disk[p := InitPage()]
    && s1.log == s.log && s1.ins == s.ins && s1.pinned == s.pinned && s1.users == s.users
    && s1.locks == s.locks && s1.vals == s.vals
  }

  lemma GrowSized(s: State, s1: State)
    requires Grown(s, s1) && Sized(s.a.noPages, s.a.free, s.mem, s.disk) && s.a.noPages >= 1
    ensures Sized(s1.a.noPages, s1.a.free, s1.mem, s1.disk)
  {
    InitFso();
  }

  lemma GrowSynced(s: State, s1: State, cov: map<nat, Cover>)
    requires Grown(s, s1) && s1.a.noPages !in s.a.free
    requires LogOk(s.a.noPages, s.log) && Synced(s.mem, s.log, s.a.free, cov, s.locks, s.vals)
    ensures Synced(s1.mem, s1.log, s1.a.free, cov, s1.locks, s1.vals)
  {
    ReplayFresh(s.log, s1.a.noPages);
  }

  lemma GrowLog(s: State, s1: State)
    requires Grown(s, s1) && LogOk(s.a.noPages, s.log)
    ensures LogOk(s1.a.noPages, s1.log)
  {
  }

  lemma GrowDisk(s: State, s1: State, held: set<nat>)
    requires Grown(s, s1) && DiskOk(s.mem, s.disk, s.log, s.a.free, held) && s1.a.noPages !in s.a.free
    ensures DiskOk(s1.mem, s1.disk, s1.log, s1.a.free, held)
  {
    assert Replay(s.log[..0], s1.a.noPages) == InitPage();
    assert OnDisk(InitPage(), s.log, s1.a.noPages);
  }

  lemma GrowCovers(s: State, s1: State, cov: map<nat, Cover>)
    requires Grown(s, s1) && CoversOk(s.mem, s.log, s.a.free, cov) && s1.a.noPages !in s.a.free
    ensures CoversOk(s1.mem, s1.log, s1.a.free, cov)
  {
  }

  lemma GrowVals(s: State, s1: State)
    requires Grown(s, s1) && ValsOk(s.vals, s.mem, s.a.free) && s1.a.noPages !in s.a.free
    ensures ValsOk(s1.vals, s1.mem, s1.a.free)
  {
  }

  lemma GrowIns(s: State, s1: State, t: nat)
    requires Grown(s, s1) && InsOk(s.a.own, s.a.free, s.ins, s.vals) && s1.a.noPages !in s.a.free
    requires t in s.a.own && s.a.own[t].Growing?
    requires s1.a.own == s.a.own[t := A.Fresh(s.a.own[t].size, s.a.own[t].tries, s1.a.noPages)]
    ensures InsOk(s1.a.own, s1.a.free, s1.ins, s1.vals)
  {
    assert Flies(s.a.own[t], s.ins[t], s.a.free, s.vals);
  }

  lemma GrowPhases(s: State, t: nat, s1: State)
    requires A.Inv(s.a) && t in s.a.own && s.a.own[t].Growing? && Idle(s.ins, t)
    requires s1.a == A.Grow(s.a, t) && s1.ins == s.ins
    ensures A.Inv(s1.a) && s1.a.noPages !in s.a.free
    ensures Covers(s1.a, s1.ins) == Covers(s.a, s.ins) && Busy(s1.a, s1.ins) == Busy(s.a, s.ins)
  {
    A.GrowKeeps(s.a, t);
    assert s.a.noPages + 1 !in s.a.holder;
    PhasesFrame(s.a, s.ins, s1.a, s1.ins, t);
  }

  lemma Assemble(s: State)
    requires A.Inv(s.a)
    requires Sized(s.a.noPages, s.a.free, s.mem, s.disk)
    requires LogOk(s.a.noPages, s.log)
    requires Synced(s.mem, s.log, s.a.free, Covers(s.a, s.ins), s.locks, s.vals)
    requires CoversOk(s.mem, s.log, s.a.free, Covers(s.a, s.ins))
    requires ValsOk(s.vals, s.mem, s.a.free) && ValsLogged(s.vals, s.log) && ValsApart(s.vals)
    requires LocksOk(s.locks, s.vals, s.log)
    requires UsersOk(s.users, s.locks, s.vals)
    requires InsOk(s.a.own, s.a.free, s.ins, s.vals)
    requires DiskOk(s.mem, s.disk, s.log, s.a.free, Held(s))
    ensures Inv(s)
  {
  }

  lemma GrowKeeps(s: State, t: nat, s1: State)
    requires Inv(s) && t in s.a.own && s.a.own[t].Growing?
    requires Grown(s, s1) && s1.a == A.Grow(s.a, t)
    requires s1.a.own == s.a.own[t := A.Fresh(s.a.own[t].size, s.a.own[t].tries, s1.a.noPages)]
    ensures Inv(s1)
  {
    var cov := Covers(s.a, s.ins);
    assert Flies(s.a.own[t], s.ins[t], s.a.free, s.vals);
    GrowPhases(s, t, s1);
    GrowSized(s, s1);
    GrowSynced(s, s1, cov);
    GrowLog(s, s1);
    GrowDisk(s, s1, Held(s));
    GrowIns(s, s1, t);
    GrowCovers(s, s1, cov);
    GrowVals(s, s1);
    Assemble(s1);
  }

  /* ----- pages and what is under way on them ----- */

  /** More is under way than before. */
  lemma SyncedLess(now: seq<Byte>, logged: seq<Byte>, cov: map<nat, Cover>, locks: map<Addr, Lock>, vals: map<Addr, seq<Byte>>,
                   cov1: map<nat, Cover>, locks1: map<Addr, Lock>, vals1: map<Addr, seq<Byte>>, p: nat)
    requires |now| == PAGE_SIZE && |logged| == PAGE_SIZE && SyncedPage(now, logged, cov, locks, vals, p)
    requires p in cov ==> p in cov1 && cov1[p] == cov[p]
    requires forall u :: u in locks && u in vals && u.pgno == p ==> u in locks1 && u in vals1 && |vals1[u]| == |vals[u]|
    ensures SyncedPage(now, logged, cov1, locks1, vals1, p)
  {
    forall k | UnderWay(cov, locks, vals, p, k) ensures UnderWay(cov1, locks1, vals1, p, k) {
      if !InCover(cov, p, k) {
        var u :| u in locks && u in vals && InItem(u, vals[u], p, k);
        assert InItem(u, vals1[u], p, k);
      }
    }
  }

  /** With no insertion logged, the free-space offsets agree. */
  lemma FsoSynced(now: seq<Byte>, logged: seq<Byte>, cov: map<nat, Cover>, locks: map<Addr, Lock>, vals: map<Addr, seq<Byte>>, p: nat)
    requires |now| == PAGE_SIZE && |logged| == PAGE_SIZE && SyncedPage(now, logged, cov, locks, vals, p)
    requires p !in cov && forall u :: u in locks && u in vals ==> 2 <= u.off
    ensures Fso(now) == Fso(logged)
  {
    assert !UnderWay(cov, locks, vals, p, 0) && !UnderWay(cov, locks, vals, p, 1);
    assert now[0..2] == logged[0..2];
  }

  lemma LocksOffset(locks: map<Addr, Lock>, vals: map<Addr, seq<Byte>>, log: seq<Rec>)
    requires LocksOk(locks, vals, log)
    ensures forall u :: u in locks && u in vals ==> 2 <= u.off
  {
  }

  /** With nothing under way, page and log agree. */
  lemma AllSynced(now: seq<Byte>, logged: seq<Byte>, cov: map<nat, Cover>, locks: map<Addr, Lock>, vals: map<Addr, seq<Byte>>, p: nat)
    requires |now| == PAGE_SIZE && |logged| == PAGE_SIZE && SyncedPage(now, logged, cov, locks, vals, p)
    requires p !in cov && forall u :: u in locks ==> u.pgno != p
    ensures now == logged
  {
    assert forall k :: !UnderWay(cov, locks, vals, p, k);
  }

  /* ----- an insertion is logged ----- */

  ghost predicate LogShape(s: State, t: nat, r: Rec, s1: State) {
    && t in s.ins && t in s.a.own && s.a.own[t].Holding? && r.Insertion?
    && r.pgno == s.a.own[t].pgno && r.raw == s.ins[t].raw
    && s1.a == s.a && s1.mem == s.mem && s1.disk == s.disk && s1.pinned == s.pinned && s1.users == s.users
    && s1.locks == s.locks && s1.vals == s.vals
    && s1.log == s.log + [r] && s1.ins == s.ins[t := Ins(s.ins[t].xid, s.ins[t].raw, Logged(r.off))]
  }

  lemma LogPhases(s: State, t: nat, r: Rec, s1: State)
    requires LogShape(s, t, r, s1) && A.Agree(s.a.own, s.a.holder) && s.ins[t].at.Fetched?
    ensures r.pgno !in Covers(s.a, s.ins) && r.pgno in Busy(s.a, s.ins)
    ensures Covers(s1.a, s1.ins) == Covers(s.a, s.ins)[r.pgno := Cover(r.off, r.raw)]
    ensures Busy(s1.a, s1.ins) == Busy(s.a, s.ins)
  {
    var p := r.pgno;
    PhaseMoves(s.a, s.ins, s1.ins, t, p);
    PhaseMoves(s.a, s.ins, s.ins, t, p);
    var c, c1 := Covers(s.a, s.ins), Covers(s1.a, s1.ins);
    assert c - {p} == c && c1 == (c1 - {p})[p := Cover(r.off, r.raw)];
    assert Busy(s.a, s1.ins) == (Busy(s.a, s1.ins) - {p}) + {p};
    assert Busy(s.a, s.ins) == (Busy(s.a, s.ins) - {p}) + {p};
  }

  lemma LogSyncedPage(now: seq<Byte>, logged: seq<Byte>, raw: seq<Byte>, cov: map<nat, Cover>, locks: map<Addr, Lock>,
                      vals: map<Addr, seq<Byte>>, p: nat)
    requires |now| == PAGE_SIZE && |logged| == PAGE_SIZE && SyncedPage(now, logged, cov, locks, vals, p)
    requires p !in cov && 2 <= Fso(logged) && Fso(logged) + |raw| <= PAGE_SIZE
    ensures SyncedPage(now, PxInsert(logged, raw), cov[p := Cover(Fso(logged), raw)], locks, vals, p)
  {
    PxInsertBytes(logged, raw);
    var cov1 := cov[p := Cover(Fso(logged), raw)];
    assert forall k :: UnderWay(cov, locks, vals, p, k) ==> UnderWay(cov1, locks, vals, p, k);
    assert forall k :: 0 <= k < 2 || Fso(logged) <= k < Fso(logged) + |raw| ==> InCover(cov1, p, k);
  }

  lemma LogSynced(mem: Pages, log: seq<Rec>, r: Rec, free: map<nat, nat>, cov: map<nat, Cover>, locks: map<Addr, Lock>,
                  vals: map<Addr, seq<Byte>>)
    requires Synced(mem, log, free, cov, locks, vals) && r.Insertion? && Fits(Redo(r)) && r.pgno !in cov
    requires r.off == Fso(Replay(log, r.pgno))
    ensures Synced(mem, log + [r], free, cov[r.pgno := Cover(r.off, r.raw)], locks, vals)
  {
    var cov1 := cov[r.pgno := Cover(r.off, r.raw)];
    forall p | p in free ensures SyncedPage(mem[p], Replay(log + [r], p), cov1, locks, vals, p) {
      ReplaySnoc(log, r, p);
      if p == r.pgno {
        ReplayInsertion(log, r);
        LogSyncedPage(mem[p], Replay(log, p), r.raw, cov, locks, vals, p);
      } else {
        SyncedLess(mem[p], Replay(log, p), cov, locks, vals, cov1, locks, vals, p);
      }
    }
  }

  lemma LogCovers(mem: Pages, log: seq<Rec>, r: Rec, free: map<nat, nat>, cov: map<nat, Cover>)
    requires CoversOk(mem, log, free, cov) && r.Insertion? && Fits(Redo(r)) && r.pgno !in cov
    requires r.pgno in free && r.pgno in mem && |mem[r.pgno]| == PAGE_SIZE
    requires r.off == Fso(Replay(log, r.pgno)) && r.off == Fso(mem[r.pgno])
    ensures CoversOk(mem, log + [r], free, cov[r.pgno := Cover(r.off, r.raw)])
  {
    CoverNew(mem[r.pgno], log, r);
    forall p | p in cov ensures CoverHolds(mem, log + [r], free, p, cov[p]) {
      CoverStays(mem, log, r, free, p, cov[p]);
    }
  }

  lemma CoverStays(mem: Pages, log: seq<Rec>, r: Rec, free: map<nat, nat>, p: nat, c: Cover)
    requires CoverHolds(mem, log, free, p, c) && r.pgno != p
    ensures CoverHolds(mem, log + [r], free, p, c)
  {
    ReplaySnoc(log, r, p);
    InsertedSnoc(log, r, Item(p, c.off, |c.raw|));
  }

  lemma CoverNew(pg: seq<Byte>, log: seq<Rec>, r: Rec)
    requires |pg| == PAGE_SIZE && r.Insertion? && Fits(Redo(r)) && r.off == Fso(Replay(log, r.pgno)) && r.off == Fso(pg)
    ensures CoverOk(pg, Replay(log + [r], r.pgno), Cover(r.off, r.raw))
    ensures Inserted(log + [r], Item(r.pgno, r.off, |r.raw|))
  {
    ReplayInsertion(log, r);
    PxInsertBytes(Replay(log, r.pgno), r.raw);
    assert InsertsAt(log + [r], |log|, RecPlace(r));
  }

  lemma LockStays(u: Addr, l: Lock, v: seq<Byte>, pg: seq<Byte>, logged: seq<Byte>, raw: seq<Byte>)
    requires |pg| == PAGE_SIZE && |logged| == PAGE_SIZE && ValOk(u, v, pg) && LockOk(u, l, v, logged)
    requires Fso(logged) == Fso(pg) && Fso(logged) + |raw| <= PAGE_SIZE
    ensures LockOk(u, l, v, PxInsert(logged, raw))
  {
    PxInsertBytes(logged, raw);
    var a, n := PxInsert(logged, raw), u.off + |l.was|;
    assert forall k :: u.off <= k < n ==> a[k] == logged[k];
    assert a[u.off..n] == logged[u.off..n];
  }

  lemma LogLocks(locks: map<Addr, Lock>, vals: map<Addr, seq<Byte>>, log: seq<Rec>, r: Rec, mem: Pages, free: map<nat, nat>)
    requires LocksOk(locks, vals, log) && ValsOk(vals, mem, free) && r.Insertion? && Fits(Redo(r))
    requires r.pgno in mem && |mem[r.pgno]| == PAGE_SIZE && r.off == Fso(mem[r.pgno]) == Fso(Replay(log, r.pgno))
    ensures LocksOk(locks, vals, log + [r])
  {
    forall u | u in locks ensures LockOk(u, locks[u], vals[u], Replay(log + [r], u.pgno)) {
      ReplaySnoc(log, r, u.pgno);
      if u.pgno == r.pgno {
        ReplayInsertion(log, r);
        LockStays(u, locks[u], vals[u], mem[u.pgno], Replay(log, u.pgno), r.raw);
      }
    }
  }

  lemma LogIns(s: State, t: nat, r: Rec, s1: State)
    requires LogShape(s, t, r, s1) && InsOk(s.a.own, s.a.free, s.ins, s.vals) && s.ins[t].at.Fetched?
    ensures InsOk(s1.a.own, s1.a.free, s1.ins, s1.vals)
  {
    assert Flies(s.a.own[t], s.ins[t], s.a.free, s.vals);
    InsFrame(s.a.own, s.a.own, s.a.free, s.ins, s1.ins, s.vals, t);
  }

  /** The page of a fetched insertion: its free space is the log's, and there is room. */
  lemma LogRoom(s: State, t: nat, r: Rec, s1: State, cov: map<nat, Cover>)
    requires LogShape(s, t, r, s1) && s.ins[t].at.Fetched? && r.pgno in s.mem && |s.mem[r.pgno]| == PAGE_SIZE
    requires r.off == Fso(s.mem[r.pgno]) && r.pgno !in cov
    requires Sized(s.a.noPages, s.a.free, s.mem, s.disk) && InsOk(s.a.own, s.a.free, s.ins, s.vals)
    requires Synced(s.mem, s.log, s.a.free, cov, s.locks, s.vals) && LocksOk(s.locks, s.vals, s.log)
    ensures r.pgno in s.a.free && 2 <= r.pgno <= s.a.noPages && Fits(Redo(r)) && r.off == Fso(Replay(s.log, r.pgno))
  {
    var p := r.pgno;
    assert Flies(s.a.own[t], s.ins[t], s.a.free, s.vals);
    LocksOffset(s.locks, s.vals, s.log);
    FsoSynced(s.mem[p], Replay(s.log, p), cov, s.locks, s.vals, p);
  }

  lemma LogKeeps(s: State, t: nat, r: Rec, s1: State)
    requires Inv(s) && LogShape(s, t, r, s1) && s.ins[t].at.Fetched?
    requires r.pgno in s.mem && |s.mem[r.pgno]| == PAGE_SIZE && r.off == Fso(s.mem[r.pgno])
    ensures Inv(s1)
  {
    var cov := Covers(s.a, s.ins);
    LogPhases(s, t, r, s1);
    LogRoom(s, t, r, s1, cov);
    LogInsertion(s.a.noPages, s.log, r);
    LogSynced(s.mem, s.log, r, s.a.free, cov, s.locks, s.vals);
    LogCovers(s.mem, s.log, r, s.a.free, cov);
    LoggedSnoc(s.vals, s.log, r);
    LogLocks(s.locks, s.vals, s.log, r, s.mem, s.a.free);
    LogIns(s, t, r, s1);
    DiskSnoc(s.mem, s.disk, s.log, r, s.a.free, Held(s));
    Assemble(s1);
  }

  /* ----- a logged insertion reaches its page ----- */

  ghost predicate ApplyShape(s: State, t: nat, p: nat, s1: State) {
    && t in s.ins && t in s.a.own && s.a.own[t].Holding? && s.a.own[t].pgno == p && s.ins[t].at.Logged?
    && p in s.mem && |s.mem[p]| == PAGE_SIZE && Fso(s.mem[p]) + |s.ins[t].raw| <= PAGE_SIZE && |s.ins[t].raw| >= 3
    && p in s.a.free && s.a.own[t].size <= s.a.free[p]
    && s1.a == A.Use(s.a, t) && s1.mem == s.mem[p := PxInsert(s.mem[p], s.ins[t].raw)]
    && s1.disk == s.disk && s1.pinned == s.pinned && s1.users == s.users && s1.locks == s.locks && s1.log == s.log
    && s1.ins == s.ins[t := Ins(s.ins[t].xid, s.ins[t].raw, Applied(Fso(s.mem[p])))]
    && s1.vals == s.vals[Addr(p, Fso(s.mem[p])) := s.ins[t].raw[3..]]
  }

  lemma ApplyPhases(s: State, t: nat, p: nat, s1: State)
    requires ApplyShape(s, t, p, s1) && A.Agree(s.a.own, s.a.holder)
    ensures p in Covers(s.a, s.ins) && Covers(s.a, s.ins)[p] == Cover(s.ins[t].at.off, s.ins[t].raw)
    ensures Covers(s1.a, s1.ins) == Covers(s.a, s.ins) - {p}
    ensures Busy(s1.a, s1.ins) == Busy(s.a, s.ins) && p in Busy(s.a, s.ins)
  {
    PhaseMoves(s.a, s.ins, s1.ins, t, p);
    PhaseMoves(s.a, s.ins, s.ins, t, p);
    assert s1.a.holder == s.a.holder;
    assert forall q, logged :: InPhase(s1.a, s1.ins, q, logged) <==> InPhase(s.a, s1.ins, q, logged);
    var c1 := Covers(s.a, s1.ins);
    assert c1 - {p} == c1;
    assert Busy(s.a, s1.ins) == (Busy(s.a, s1.ins) - {p}) + {p};
    assert Busy(s.a, s.ins) == (Busy(s.a, s.ins) - {p}) + {p};
  }

  lemma ApplySized(s: State, t: nat, p: nat, s1: State)
    requires ApplyShape(s, t, p, s1) && Sized(s.a.noPages, s.a.free, s.mem, s.disk) && s.a.own[t].size == |s.ins[t].raw|
    ensures Sized(s1.a.noPages, s1.a.free, s1.mem, s1.disk)
  {
    PxInsertBytes(s.mem[p], s.ins[t].raw);
    assert s1.a.free == s.a.free[p := s.a.free[p] - |s.ins[t].raw|];
  }

  lemma SameOffset(a: seq<Byte>, b: seq<Byte>)
    requires |a| == PAGE_SIZE && |b| == PAGE_SIZE && Fso(a) == Fso(b)
    ensures a[0] == b[0] && a[1] == b[1]
  {
    PutParse(a[0..2]);
    PutParse(b[0..2]);
    assert a[0..2] == b[0..2];
    assert a[0] == a[0..2][0] && a[1] == a[0..2][1];
    assert b[0] == b[0..2][0] && b[1] == b[0..2][1];
  }

  lemma ApplySyncedPage(now: seq<Byte>, logged: seq<Byte>, cov: map<nat, Cover>, locks: map<Addr, Lock>,
                        vals: map<Addr, seq<Byte>>, p: nat)
    requires |now| == PAGE_SIZE && |logged| == PAGE_SIZE && SyncedPage(now, logged, cov, locks, vals, p)
    requires p in cov && CoverOk(now, logged, cov[p])
    ensures SyncedPage(PxInsert(now, cov[p].raw), logged, cov - {p}, locks, vals, p)
  {
    var raw, off := cov[p].raw, cov[p].off;
    var now1 := PxInsert(now, raw);
    PxInsertBytes(now, raw);
    SameOffset(now1, logged);
    forall k | 0 <= k < PAGE_SIZE && !UnderWay(cov - {p}, locks, vals, p, k) ensures now1[k] == logged[k] {
      if 2 <= k && off <= k < off + |raw| {
        SameWithin(now1, logged, off, off + |raw|, k);
      } else if 2 <= k {
        assert !UnderWay(cov, locks, vals, p, k);
      }
    }
  }

  lemma SameWithin(a: seq<Byte>, b: seq<Byte>, lo: nat, hi: nat, k: nat)
    requires lo <= k < hi <= |a| && hi <= |b| && a[lo..hi] == b[lo..hi]
    ensures a[k] == b[k]
  {
    assert a[k] == a[lo..hi][k - lo] && b[k] == b[lo..hi][k - lo];
  }

  /** The new item's address is not in use, and its place is apart from all others. */
  lemma NewPlace(vals: map<Addr, seq<Byte>>, mem: Pages, free: map<nat, nat>, p: nat, v: seq<Byte>)
    requires ValsOk(vals, mem, free) && p in mem && |mem[p]| == PAGE_SIZE
    ensures var u := Addr(p, Fso(mem[p]));
            u !in vals && forall w :: w in vals ==> Apart(DataRuns.Place(w, vals[w]), DataRuns.Place(u, v))
  {
  }

  lemma ApplySynced(mem: Pages, mem1: Pages, log: seq<Rec>, free: map<nat, nat>, free1: map<nat, nat>, cov: map<nat, Cover>,
                    locks: map<Addr, Lock>, vals: map<Addr, seq<Byte>>, u: Addr, v: seq<Byte>)
    requires Synced(mem, log, free, cov, locks, vals) && free1.Keys == free.Keys && u.pgno in cov && u !in vals
    requires u.pgno in mem && |mem[u.pgno]| == PAGE_SIZE && CoverOk(mem[u.pgno], Replay(log, u.pgno), cov[u.pgno])
    requires mem1 == mem[u.pgno := PxInsert(mem[u.pgno], cov[u.pgno].raw)]
    ensures Synced(mem1, log, free1, cov - {u.pgno}, locks, vals[u := v])
  {
    var p, cov1, vals1 := u.pgno, cov - {u.pgno}, vals[u := v];
    forall q | q in free ensures SyncedPage(mem1[q], Replay(log, q), cov1, locks, vals1, q) {
      if q == p {
        ApplySyncedPage(mem[p], Replay(log, p), cov, locks, vals, p);
        SyncedLess(mem1[p], Replay(log, p), cov1, locks, vals, cov1, locks, vals1, p);
      } else {
        SyncedLess(mem[q], Replay(log, q), cov, locks, vals, cov1, locks, vals1, q);
      }
    }
    assert forall q :: q in free1 ==> q in free;
  }

  lemma ApplyCovers(s: State, t: nat, p: nat, s1: State, cov: map<nat, Cover>)
    requires ApplyShape(s, t, p, s1) && CoversOk(s.mem, s.log, s.a.free, cov)
    ensures CoversOk(s1.mem, s1.log, s1.a.free, cov - {p})
  {
  }

  lemma ApplyVal(u: Addr, v: seq<Byte>, pg: seq<Byte>, raw: seq<Byte>)
    requires |pg| == PAGE_SIZE && ValOk(u, v, pg) && Fso(pg) + |raw| <= PAGE_SIZE
    ensures ValOk(u, v, PxInsert(pg, raw))
  {
    PxInsertBytes(pg, raw);
    var pg1, b := PxInsert(pg, raw), u.off + 3 + |v|;
    assert forall k :: u.off <= k < b ==> pg1[k] == pg[k];
    assert pg1[u.off..b] == pg[u.off..b];
  }

  lemma ApplyNewVal(p: nat, pg: seq<Byte>, raw: seq<Byte>)
    requires |pg| == PAGE_SIZE && 2 <= Fso(pg) && Fso(pg) + |raw| <= PAGE_SIZE && |raw| >= 3 && raw == Wrap(raw[3..])
    ensures ValOk(Addr(p, Fso(pg)), raw[3..], PxInsert(pg, raw))
  {
    PxInsertBytes(pg, raw);
  }

  lemma ApplyVals(mem: Pages, mem1: Pages, free: map<nat, nat>, free1: map<nat, nat>, vals: map<Addr, seq<Byte>>, p: nat, raw: seq<Byte>)
    requires ValsOk(vals, mem, free) && free1.Keys == free.Keys && p in free && p in mem && |mem[p]| == PAGE_SIZE
    requires 2 <= Fso(mem[p]) && Fso(mem[p]) + |raw| <= PAGE_SIZE && |raw| >= 3 && raw == Wrap(raw[3..])
    requires mem1 == mem[p := PxInsert(mem[p], raw)]
    ensures ValsOk(vals[Addr(p, Fso(mem[p])) := raw[3..]], mem1, free1)
  {
    var n := Addr(p, Fso(mem[p]));
    var vals1 := vals[n := raw[3..]];
    ApplyNewVal(p, mem[p], raw);
    assert p in free.Keys;
    forall u | u in vals1
      ensures u.pgno in free1 && u.pgno in mem1 && |mem1[u.pgno]| == PAGE_SIZE && ValOk(u, vals1[u], mem1[u.pgno])
    {
      if u != n {
        assert u.pgno in free.Keys;
        if u.pgno == p {
          ApplyVal(u, vals[u], mem[p], raw);
        }
      }
    }
  }

  lemma ApplyApart(vals: map<Addr, seq<Byte>>, u: Addr, v: seq<Byte>)
    requires ValsApart(vals) && u !in vals && forall w :: w in vals ==> Apart(DataRuns.Place(w, vals[w]), DataRuns.Place(u, v))
    ensures ValsApart(vals[u := v])
  {
  }

  lemma ApplyLogged(vals: map<Addr, seq<Byte>>, log: seq<Rec>, u: Addr, v: seq<Byte>)
    requires ValsLogged(vals, log) && Inserted(log, DataRuns.Place(u, v))
    ensures ValsLogged(vals[u := v], log)
  {
  }

  lemma ApplyPlaces(s: State, t: nat, p: nat, s1: State)
    requires ApplyShape(s, t, p, s1) && ValsOk(s.vals, s.mem, s.a.free) && ValsApart(s.vals) && ValsLogged(s.vals, s.log)
    requires Inserted(s.log, Item(p, Fso(s.mem[p]), |s.ins[t].raw|))
    ensures ValsApart(s1.vals) && ValsLogged(s1.vals, s1.log)
  {
    var u, v := Addr(p, Fso(s.mem[p])), s.ins[t].raw[3..];
    NewPlace(s.vals, s.mem, s.a.free, p, v);
    ApplyApart(s.vals, u, v);
    ApplyLogged(s.vals, s.log, u, v);
  }

  lemma ApplyLocks(s: State, t: nat, p: nat, s1: State)
    requires ApplyShape(s, t, p, s1) && LocksOk(s.locks, s.vals, s.log) && UsersOk(s.users, s.locks, s.vals)
    requires Addr(p, Fso(s.mem[p])) !in s.vals
    ensures LocksOk(s1.locks, s1.vals, s1.log) && UsersOk(s1.users, s1.locks, s1.vals)
  {
  }

  lemma FliesUsed(o: A.Own, i: Ins, free: map<nat, nat>, vals: map<Addr, seq<Byte>>, p: nat, f: nat, u: Addr, v: seq<Byte>)
    requires Flies(o, i, free, vals) && p in free && (o.Holding? ==> o.pgno != p)
    ensures Flies(o, i, free[p := f], vals[u := v])
  {
  }

  lemma ApplyIns(own: map<nat, A.Own>, holder: map<nat, nat>, free: map<nat, nat>, ins: map<nat, Ins>, vals: map<Addr, seq<Byte>>,
                 t: nat, f: nat, u: Addr, v: seq<Byte>, free1: map<nat, nat>, ins1: map<nat, Ins>, vals1: map<Addr, seq<Byte>>)
    requires InsOk(own, free, ins, vals) && A.Agree(own, holder)
    requires t in own && own[t].Holding? && own[t].pgno == u.pgno && t in ins && u.pgno in free
    requires free1 == free[u.pgno := f] && ins1 == ins[t := Ins(ins[t].xid, ins[t].raw, Applied(u.off))] && vals1 == vals[u := v]
    ensures InsOk(own, free1, ins1, vals1)
  {
    var p := u.pgno;
    assert Flies(own[t], ins[t], free, vals);
    forall w | w in own && w != t ensures Flies(own[w], ins[w], free[p := f], vals[u := v]) {
      if own[w].Holding? {
        A.OneHolder(own, holder, t, w);
      }
      FliesUsed(own[w], ins[w], free, vals, p, f, u, v);
    }
  }

  lemma DiskChanged(mem: Pages, mem1: Pages, disk: Pages, log: seq<Rec>, free: map<nat, nat>, free1: map<nat, nat>, held: set<nat>, p: nat)
    requires DiskOk(mem, disk, log, free, held) && p in held && free1.Keys == free.Keys
    requires p in mem && mem1.Keys == mem.Keys && forall q :: q in mem && q != p ==> mem1[q] == mem[q]
    ensures DiskOk(mem1, disk, log, free1, held)
  {
    assert forall q :: q in free1 ==> q in free;
    assert forall q :: q in mem ==> q in mem1;
  }

  lemma ApplyAlloc(s: State, t: nat, p: nat, s1: State)
    requires ApplyShape(s, t, p, s1) && A.Inv(s.a)
    ensures A.Inv(s1.a) && s1.a.free.Keys == s.a.free.Keys && s1.a.noPages == s.a.noPages
    ensures s1.a.own == s.a.own && s1.a.free == s.a.free[p := s.a.free[p] - s.a.own[t].size]
    ensures s1.mem.Keys == s.mem.Keys && forall q :: q in s.mem && q != p ==> s1.mem[q] == s.mem[q]
  {
    A.UseKeeps(s.a, t);
  }

  lemma ApplyPages(s: State, t: nat, p: nat, s1: State)
    requires Inv(s) && ApplyShape(s, t, p, s1)
    ensures Sized(s1.a.noPages, s1.a.free, s1.mem, s1.disk)
    ensures Synced(s1.mem, s1.log, s1.a.free, Covers(s1.a, s1.ins), s1.locks, s1.vals)
    ensures CoversOk(s1.mem, s1.log, s1.a.free, Covers(s1.a, s1.ins))
    ensures DiskOk(s1.mem, s1.disk, s1.log, s1.a.free, Held(s1))
  {
    var cov := Covers(s.a, s.ins);
    ApplyAlloc(s, t, p, s1);
    ApplyPhases(s, t, p, s1);
    assert CoverOk(s.mem[p], Replay(s.log, p), cov[p]);
    assert Flies(s.a.own[t], s.ins[t], s.a.free, s.vals);
    var u, v := Addr(p, Fso(s.mem[p])), s.ins[t].raw[3..];
    NewPlace(s.vals, s.mem, s.a.free, p, v);
    ApplySized(s, t, p, s1);
    ApplySynced(s.mem, s1.mem, s.log, s.a.free, s1.a.free, cov, s.locks, s.vals, u, v);
    ApplyCovers(s, t, p, s1, cov);
    DiskChanged(s.mem, s1.mem, s.disk, s.log, s.a.free, s1.a.free, Held(s), p);
  }

  lemma ApplyItems(s: State, t: nat, p: nat, s1: State)
    requires Inv(s) && ApplyShape(s, t, p, s1)
    ensures A.Inv(s1.a) && LogOk(s1.a.noPages, s1.log)
    ensures ValsOk(s1.vals, s1.mem, s1.a.free) && ValsLogged(s1.vals, s1.log) && ValsApart(s1.vals)
    ensures LocksOk(s1.locks, s1.vals, s1.log) && UsersOk(s1.users, s1.locks, s1.vals)
    ensures InsOk(s1.a.own, s1.a.free, s1.ins, s1.vals)
  {
    ApplyAlloc(s, t, p, s1);
    ApplyPhases(s, t, p, s1);
    assert CoverOk(s.mem[p], Replay(s.log, p), Covers(s.a, s.ins)[p]);
    assert Flies(s.a.own[t], s.ins[t], s.a.free, s.vals);
    var u, v := Addr(p, Fso(s.mem[p])), s.ins[t].raw[3..];
    NewPlace(s.vals, s.mem, s.a.free, p, v);
    ApplyVals(s.mem, s1.mem, s.a.free, s1.a.free, s.vals, p, s.ins[t].raw);
    ApplyPlaces(s, t, p, s1);
    ApplyLocks(s, t, p, s1);
    ApplyFlights(s, t, p, s1);
  }

  lemma ApplyFlights(s: State, t: nat, p: nat, s1: State)
    requires ApplyShape(s, t, p, s1) && InsOk(s.a.own, s.a.free, s.ins, s.vals) && A.Agree(s.a.own, s.a.holder)
    ensures InsOk(s1.a.own, s1.a.free, s1.ins, s1.vals)
  {
    ApplyIns(s.a.own, s.a.holder, s.a.free, s.ins, s.vals, t, s.a.free[p] - s.a.own[t].size, Addr(p, Fso(s.mem[p])),
             s.ins[t].raw[3..], s1.a.free, s1.ins, s1.vals);
  }

  lemma ApplyKeeps(s: State, t: nat, p: nat, s1: State)
    requires Inv(s) && ApplyShape(s, t, p, s1)
    ensures Inv(s1)
  {
    ApplyPages(s, t, p, s1);
    ApplyItems(s, t, p, s1);
    Assemble(s1);
  }
}
