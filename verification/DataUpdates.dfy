/** Changes of data items between `Before` and `After` keep the data manager's invariant. */
module DataUpdates {
  import opened Types
  import opened Bytes
  import opened LogRecords
  import opened Recovery
  import opened DataItems
  import opened PageIndex
  import opened DataRuns
  import opened DataSteps
  import A = Allocation

  /* ----- locking and unlocking an item ----- */

  /** Nothing is under way within an item that is not locked. */
  lemma ItemClear(cov: map<nat, Cover>, locks: map<Addr, Lock>, vals: map<Addr, seq<Byte>>, pg: seq<Byte>, u: Addr, k: int)
    requires |pg| == PAGE_SIZE && u in vals && ValOk(u, vals[u], pg) && ValsApart(vals) && InItem(u, vals[u], u.pgno, k)
    requires u !in locks && (u.pgno in cov ==> cov[u.pgno].off == Fso(pg))
    ensures !UnderWay(cov, locks, vals, u.pgno, k)
  {
    forall w | w in locks && w in vals ensures !InItem(w, vals[w], u.pgno, k) {
      assert Apart(DataRuns.Place(u, vals[u]), DataRuns.Place(w, vals[w]));
    }
  }

  lemma ClearItem(now: seq<Byte>, logged: seq<Byte>, cov: map<nat, Cover>, locks: map<Addr, Lock>, vals: map<Addr, seq<Byte>>, u: Addr)
    requires |now| == PAGE_SIZE && |logged| == PAGE_SIZE && SyncedPage(now, logged, cov, locks, vals, u.pgno)
    requires u in vals && ValOk(u, vals[u], now) && ValsApart(vals) && u !in locks
    requires u.pgno in cov ==> cov[u.pgno].off == Fso(now)
    ensures logged[u.off..u.off + 3 + |vals[u]|] == Wrap(vals[u])
  {
    var b := u.off + 3 + |vals[u]|;
    forall k | u.off <= k < b ensures logged[k] == now[k] {
      ItemClear(cov, locks, vals, now, u, k);
    }
    assert logged[u.off..b] == now[u.off..b];
  }

  lemma LockLocks(s: State, u: Addr, l: Lock, cov: map<nat, Cover>)
    requires Synced(s.mem, s.log, s.a.free, cov, s.locks, s.vals) && CoversOk(s.mem, s.log, s.a.free, cov)
    requires ValsOk(s.vals, s.mem, s.a.free) && ValsApart(s.vals) && LocksOk(s.locks, s.vals, s.log)
    requires u in s.vals && u !in s.locks && l.was == Wrap(s.vals[u])
    ensures LocksOk(s.locks[u := l], s.vals, s.log)
  {
    var pg := s.mem[u.pgno];
    assert ValOk(u, s.vals[u], pg);
    assert u.pgno in cov ==> CoverOk(pg, Replay(s.log, u.pgno), cov[u.pgno]);
    ClearItem(pg, Replay(s.log, u.pgno), cov, s.locks, s.vals, u);
    assert Wrap(s.vals[u])[3..] == s.vals[u];
    assert LockOk(u, l, s.vals[u], Replay(s.log, u.pgno));
  }

  lemma MoreLocked(mem: Pages, log: seq<Rec>, free: map<nat, nat>, cov: map<nat, Cover>, locks: map<Addr, Lock>,
                   locks1: map<Addr, Lock>, vals: map<Addr, seq<Byte>>)
    requires Synced(mem, log, free, cov, locks, vals) && locks.Keys <= locks1.Keys
    ensures Synced(mem, log, free, cov, locks1, vals)
  {
    forall p | p in free ensures SyncedPage(mem[p], Replay(log, p), cov, locks1, vals, p) {
      forall w | w in locks ensures w in locks1 {
        assert w in locks.Keys;
      }
      SyncedLess(mem[p], Replay(log, p), cov, locks, vals, cov, locks1, vals, p);
    }
  }

  lemma LockUsers(users: map<nat, Addr>, locks: map<Addr, Lock>, vals: map<Addr, seq<Byte>>, u: Addr, l: Lock)
    requires UsersOk(users, locks, vals) && l.owner in users && users[l.owner] == u
    ensures UsersOk(users, locks[u := l], vals)
  {
  }

  /** `Before` keeps the invariant. */
  lemma LockKeeps(s: State, u: Addr, l: Lock, s1: State)
    requires Inv(s) && u in s.vals && u !in s.locks && l.was == Wrap(s.vals[u])
    requires l.owner in s.users && s.users[l.owner] == u && s1 == s.(locks := s.locks[u := l])
    ensures Inv(s1)
  {
    var cov := Covers(s.a, s.ins);
    LockLocks(s, u, l, cov);
    MoreLocked(s.mem, s.log, s.a.free, cov, s.locks, s1.locks, s.vals);
    LockUsers(s.users, s.locks, s.vals, u, l);
    Assemble(s1);
  }

  lemma UnlockPage(now: seq<Byte>, logged: seq<Byte>, cov: map<nat, Cover>, locks: map<Addr, Lock>, vals: map<Addr, seq<Byte>>, u: Addr)
    requires |now| == PAGE_SIZE && |logged| == PAGE_SIZE && SyncedPage(now, logged, cov, locks, vals, u.pgno) && u in vals
    requires u.off + 3 + |vals[u]| <= PAGE_SIZE
    requires now[u.off..u.off + 3 + |vals[u]|] == logged[u.off..u.off + 3 + |vals[u]|]
    ensures SyncedPage(now, logged, cov, locks - {u}, vals, u.pgno)
  {
    var b := u.off + 3 + |vals[u]|;
    forall k | 0 <= k < PAGE_SIZE && !UnderWay(cov, locks - {u}, vals, u.pgno, k) ensures now[k] == logged[k] {
      if u.off <= k < b {
        assert now[k] == now[u.off..b][k - u.off] && logged[k] == logged[u.off..b][k - u.off];
      } else {
        assert !UnderWay(cov, locks, vals, u.pgno, k);
      }
    }
  }

  lemma UnlockSynced(mem: Pages, log: seq<Rec>, free: map<nat, nat>, cov: map<nat, Cover>, locks: map<Addr, Lock>,
                     vals: map<Addr, seq<Byte>>, u: Addr)
    requires Synced(mem, log, free, cov, locks, vals) && u in vals && u.pgno in free && u.off + 3 + |vals[u]| <= PAGE_SIZE
    requires u.pgno in mem && |mem[u.pgno]| == PAGE_SIZE
    requires mem[u.pgno][u.off..u.off + 3 + |vals[u]|] == Replay(log, u.pgno)[u.off..u.off + 3 + |vals[u]|]
    ensures Synced(mem, log, free, cov, locks - {u}, vals)
  {
    forall p | p in free ensures SyncedPage(mem[p], Replay(log, p), cov, locks - {u}, vals, p) {
      if p == u.pgno {
        UnlockPage(mem[p], Replay(log, p), cov, locks, vals, u);
      } else {
        SyncedLess(mem[p], Replay(log, p), cov, locks, vals, cov, locks - {u}, vals, p);
      }
    }
  }

  lemma UnlockRest(users: map<nat, Addr>, locks: map<Addr, Lock>, vals: map<Addr, seq<Byte>>, log: seq<Rec>, u: Addr)
    requires UsersOk(users, locks, vals) && LocksOk(locks, vals, log)
    ensures UsersOk(users, locks - {u}, vals) && LocksOk(locks - {u}, vals, log)
  {
  }

  lemma UnlockItem(s: State, u: Addr, cov: map<nat, Cover>)
    requires Synced(s.mem, s.log, s.a.free, cov, s.locks, s.vals) && ValsOk(s.vals, s.mem, s.a.free) && LocksOk(s.locks, s.vals, s.log)
    requires u in s.locks && u in s.vals && s.locks[u].was == Wrap(s.vals[u])
    ensures Synced(s.mem, s.log, s.a.free, cov, s.locks - {u}, s.vals)
  {
    assert ValOk(u, s.vals[u], s.mem[u.pgno]);
    assert LockOk(u, s.locks[u], s.vals[u], Replay(s.log, u.pgno));
    UnlockSynced(s.mem, s.log, s.a.free, cov, s.locks, s.vals, u);
  }

  /** An item may be unlocked once page and log agree on it. */
  lemma UnlockKeeps(s: State, u: Addr, s1: State)
    requires Inv(s) && u in s.locks && u in s.vals && s.locks[u].was == Wrap(s.vals[u]) && s1 == s.(locks := s.locks - {u})
    ensures Inv(s1)
  {
    UnlockItem(s, u, Covers(s.a, s.ins));
    UnlockRest(s.users, s.locks, s.vals, s.log, u);
    Assemble(s1);
  }

  /* ----- changing a locked item ----- */

  /** The item at `u` takes the value `v`, of the same length. */
  ghost predicate RewriteShape(s: State, u: Addr, v: seq<Byte>, s1: State) {
    && u in s.vals && |v| == |s.vals[u]| && u.pgno in s.mem && |s.mem[u.pgno]| == PAGE_SIZE
    && 2 <= u.off && u.off + 3 + |v| <= PAGE_SIZE
    && s1.mem == s.mem[u.pgno := Splice(s.mem[u.pgno], u.off, Wrap(v))] && s1.vals == s.vals[u := v]
    && s1.a == s.a && s1.disk == s.disk && s1.log == s.log && s1.ins == s.ins && s1.pinned == s.pinned
    && s1.users == s.users && s1.locks == s.locks
  }

  lemma RewriteFso(pg: seq<Byte>, u: Addr, v: seq<Byte>)
    requires |pg| == PAGE_SIZE && 2 <= u.off && u.off + 3 + |v| <= PAGE_SIZE
    ensures Fso(Splice(pg, u.off, Wrap(v))) == Fso(pg)
  {
    SpliceBeside(pg, u.off, Wrap(v), 0, 2);
  }

  lemma RewriteSized(s: State, u: Addr, v: seq<Byte>, s1: State)
    requires RewriteShape(s, u, v, s1) && Sized(s.a.noPages, s.a.free, s.mem, s.disk)
    ensures Sized(s1.a.noPages, s1.a.free, s1.mem, s1.disk)
  {
    RewriteFso(s.mem[u.pgno], u, v);
  }

  lemma RewriteSyncedPage(now: seq<Byte>, logged: seq<Byte>, cov: map<nat, Cover>, locks: map<Addr, Lock>, vals: map<Addr, seq<Byte>>,
                          u: Addr, v: seq<Byte>)
    requires |now| == PAGE_SIZE && |logged| == PAGE_SIZE && SyncedPage(now, logged, cov, locks, vals, u.pgno)
    requires u in vals && u in locks && |v| == |vals[u]| && u.off + 3 + |v| <= PAGE_SIZE
    ensures SyncedPage(Splice(now, u.off, Wrap(v)), logged, cov, locks, vals[u := v], u.pgno)
  {
    SyncedLess(now, logged, cov, locks, vals, cov, locks, vals[u := v], u.pgno);
    var now1 := Splice(now, u.off, Wrap(v));
    forall k | 0 <= k < PAGE_SIZE && !UnderWay(cov, locks, vals[u := v], u.pgno, k) ensures now1[k] == logged[k] {
      assert !InItem(u, vals[u := v][u], u.pgno, k);
    }
  }

  lemma RewriteSynced(mem: Pages, log: seq<Rec>, free: map<nat, nat>, cov: map<nat, Cover>, locks: map<Addr, Lock>,
                      vals: map<Addr, seq<Byte>>, u: Addr, v: seq<Byte>, mem1: Pages)
    requires Synced(mem, log, free, cov, locks, vals) && u in vals && u in locks && |v| == |vals[u]|
    requires u.pgno in mem && |mem[u.pgno]| == PAGE_SIZE && u.off + 3 + |v| <= PAGE_SIZE
    requires mem1 == mem[u.pgno := Splice(mem[u.pgno], u.off, Wrap(v))]
    ensures Synced(mem1, log, free, cov, locks, vals[u := v])
  {
    forall p | p in free ensures SyncedPage(mem1[p], Replay(log, p), cov, locks, vals[u := v], p) {
      if p == u.pgno {
        RewriteSyncedPage(mem[p], Replay(log, p), cov, locks, vals, u, v);
      } else {
        SyncedLess(mem[p], Replay(log, p), cov, locks, vals, cov, locks, vals[u := v], p);
      }
    }
  }

  lemma RewriteCovers(s: State, u: Addr, v: seq<Byte>, s1: State, cov: map<nat, Cover>)
    requires RewriteShape(s, u, v, s1) && CoversOk(s.mem, s.log, s.a.free, cov)
    ensures CoversOk(s1.mem, s1.log, s1.a.free, cov)
  {
    RewriteFso(s.mem[u.pgno], u, v);
    forall p | p in cov ensures CoverHolds(s1.mem, s.log, s.a.free, p, cov[p]) {
      CoverKept(s.mem, s1.mem, s.log, s.a.free, p, cov[p]);
    }
  }

  lemma CoverKept(mem: Pages, mem1: Pages, log: seq<Rec>, free: map<nat, nat>, p: nat, c: Cover)
    requires CoverHolds(mem, log, free, p, c) && p in mem1 && |mem1[p]| == PAGE_SIZE && Fso(mem1[p]) == Fso(mem[p])
    ensures CoverHolds(mem1, log, free, p, c)
  {
  }

  lemma RewriteVals(mem: Pages, mem1: Pages, free: map<nat, nat>, vals: map<Addr, seq<Byte>>, u: Addr, v: seq<Byte>)
    requires ValsOk(vals, mem, free) && ValsApart(vals) && u in vals && |v| == |vals[u]|
    requires u.pgno in mem && |mem[u.pgno]| == PAGE_SIZE && 2 <= u.off && u.off + 3 + |v| <= PAGE_SIZE
    requires mem1 == mem[u.pgno := Splice(mem[u.pgno], u.off, Wrap(v))]
    ensures ValsOk(vals[u := v], mem1, free)
  {
    var pg, pg1 := mem[u.pgno], mem1[u.pgno];
    RewriteFso(pg, u, v);
    SpliceWithin(pg, u.off, Wrap(v), 0, 3 + |v|);
    assert Wrap(v)[0..3 + |v|] == Wrap(v);
    assert ValOk(u, v, pg1);
    forall w | w in vals && w != u && w.pgno == u.pgno ensures ValOk(w, vals[w], pg1) {
      assert Apart(DataRuns.Place(u, vals[u]), DataRuns.Place(w, vals[w]));
      SpliceBeside(pg, u.off, Wrap(v), w.off, w.off + 3 + |vals[w]|);
    }
  }

  lemma RewritePlaces(vals: map<Addr, seq<Byte>>, log: seq<Rec>, u: Addr, v: seq<Byte>)
    requires ValsLogged(vals, log) && ValsApart(vals) && u in vals && |v| == |vals[u]|
    ensures ValsLogged(vals[u := v], log) && ValsApart(vals[u := v])
  {
    assert DataRuns.Place(u, v) == DataRuns.Place(u, vals[u]);
  }

  lemma RewriteLocks(users: map<nat, Addr>, locks: map<Addr, Lock>, vals: map<Addr, seq<Byte>>, log: seq<Rec>, u: Addr, v: seq<Byte>)
    requires LocksOk(locks, vals, log) && UsersOk(users, locks, vals) && u in vals && |v| == |vals[u]|
    ensures LocksOk(locks, vals[u := v], log) && UsersOk(users, locks, vals[u := v])
  {
  }

  lemma RewriteIns(s: State, u: Addr, v: seq<Byte>, s1: State)
    requires RewriteShape(s, u, v, s1) && InsOk(s.a.own, s.a.free, s.ins, s.vals)
    ensures InsOk(s1.a.own, s1.a.free, s1.ins, s1.vals)
  {
  }

  lemma UsedHeld(s: State, t: nat)
    requires t in s.users
    ensures s.users[t].pgno in Held(s)
  {
    assert s.users[t].pgno in Used(s.users);
  }

  lemma RewriteKeeps(s: State, u: Addr, v: seq<Byte>, s1: State)
    requires Inv(s) && RewriteShape(s, u, v, s1) && u in s.locks
    ensures Inv(s1)
  {
    var cov := Covers(s.a, s.ins);
    RewriteSized(s, u, v, s1);
    RewriteSynced(s.mem, s.log, s.a.free, cov, s.locks, s.vals, u, v, s1.mem);
    RewriteCovers(s, u, v, s1, cov);
    RewriteVals(s.mem, s1.mem, s.a.free, s.vals, u, v);
    RewritePlaces(s.vals, s.log, u, v);
    RewriteLocks(s.users, s.locks, s.vals, s.log, u, v);
    RewriteIns(s, u, v, s1);
    RewriteDisk(s, u, v, s1, Held(s));
    Assemble(s1);
  }

  lemma RewriteDisk(s: State, u: Addr, v: seq<Byte>, s1: State, held: set<nat>)
    requires RewriteShape(s, u, v, s1) && u in s.locks && UsersOk(s.users, s.locks, s.vals) && held == Held(s)
    requires DiskOk(s.mem, s.disk, s.log, s.a.free, held)
    ensures DiskOk(s1.mem, s1.disk, s1.log, s1.a.free, held)
  {
    UsedHeld(s, s.locks[u].owner);
    DiskChanged(s.mem, s1.mem, s.disk, s.log, s.a.free, s.a.free, held, u.pgno);
  }

  /* ----- logging the change ----- */

  /** The change of the item at `u` is logged; its new image becomes the image to fall back on. */
  ghost predicate RelogShape(s: State, u: Addr, r: Rec, s1: State) {
    && u in s.vals && u in s.locks
    && r.Update? && r.pgno == u.pgno && r.off == u.off && r.before == s.locks[u].was && r.after == Wrap(s.vals[u])
    && s1.log == s.log + [r] && s1.locks == s.locks[u := Lock(s.locks[u].owner, r.after)]
    && s1.a == s.a && s1.mem == s.mem && s1.disk == s.disk && s1.ins == s.ins && s1.pinned == s.pinned
    && s1.users == s.users && s1.vals == s.vals
  }

  lemma RelogLog(s: State, u: Addr, r: Rec, s1: State)
    requires RelogShape(s, u, r, s1) && LogOk(s.a.noPages, s.log) && ValsLogged(s.vals, s.log) && LocksOk(s.locks, s.vals, s.log)
    requires u.pgno in s.a.free && A.Measured(s.a.noPages, s.a.free)
    ensures LogOk(s1.a.noPages, s1.log) && Fits(Redo(r)) && |r.before| == |r.after|
  {
    LogUpdateAt(s.a.noPages, s.log, r, u, s.locks[u], s.vals[u]);
  }

  /** The old image in the record is the image the log has. */
  lemma LogUpdateAt(n: nat, log: seq<Rec>, r: Rec, u: Addr, l: Lock, v: seq<Byte>)
    requires LogOk(n, log) && Inserted(log, DataRuns.Place(u, v)) && LockOk(u, l, v, Replay(log, u.pgno)) && 2 <= u.pgno <= n
    requires r.Update? && r.pgno == u.pgno && r.off == u.off && r.before == l.was && r.after == Wrap(v)
    ensures LogOk(n, log + [r]) && Fits(Redo(r)) && |r.before| == |r.after|
  {
    ItemImage(n, log, DataRuns.Place(u, v));
    RelogFits(log, r, u, l, v);
    LogUpdate(n, log, r);
  }

  lemma RelogFits(log: seq<Rec>, r: Rec, u: Addr, l: Lock, v: seq<Byte>)
    requires LockOk(u, l, v, Replay(log, u.pgno))
    requires Image(log, DataRuns.Place(u, v)) == Some(Replay(log, u.pgno)[u.off..u.off + 3 + |v|])
    requires r.Update? && r.pgno == u.pgno && r.off == u.off && r.before == l.was && r.after == Wrap(v)
    ensures Fits(Redo(r)) && |r.before| == |r.after| && RecPlace(r) == DataRuns.Place(u, v)
    ensures Image(log, RecPlace(r)) == Some(r.before)
  {
  }

  lemma RelogPage(now: seq<Byte>, logged: seq<Byte>, cov: map<nat, Cover>, locks: map<Addr, Lock>, locks1: map<Addr, Lock>,
                  vals: map<Addr, seq<Byte>>, u: Addr, after: seq<Byte>)
    requires |now| == PAGE_SIZE && |logged| == PAGE_SIZE && SyncedPage(now, logged, cov, locks, vals, u.pgno)
    requires u in vals && u in locks && |after| == 3 + |vals[u]| && u.off + |after| <= PAGE_SIZE && locks1.Keys == locks.Keys
    ensures SyncedPage(now, Splice(logged, u.off, after), cov, locks1, vals, u.pgno)
  {
    var logged1 := Splice(logged, u.off, after);
    forall k | 0 <= k < PAGE_SIZE && !UnderWay(cov, locks1, vals, u.pgno, k) ensures now[k] == logged1[k] {
      assert u in locks1.Keys;
      assert !InItem(u, vals[u], u.pgno, k);
      forall w | w in locks && w in vals ensures !InItem(w, vals[w], u.pgno, k) {
        assert w in locks1.Keys;
      }
      assert !UnderWay(cov, locks, vals, u.pgno, k);
    }
  }

  lemma RelogSynced(mem: Pages, log: seq<Rec>, r: Rec, free: map<nat, nat>, cov: map<nat, Cover>, locks: map<Addr, Lock>,
                    locks1: map<Addr, Lock>, vals: map<Addr, seq<Byte>>, u: Addr)
    requires Synced(mem, log, free, cov, locks, vals) && r.Update? && Fits(Redo(r)) && r.pgno == u.pgno && r.off == u.off
    requires u in vals && u in locks && |r.after| == 3 + |vals[u]| && locks1.Keys == locks.Keys
    ensures Synced(mem, log + [r], free, cov, locks1, vals)
  {
    forall p | p in free ensures SyncedPage(mem[p], Replay(log + [r], p), cov, locks1, vals, p) {
      ReplaySnoc(log, r, p);
      if p == u.pgno {
        ReplayUpdate(log, r);
        RelogPage(mem[p], Replay(log, p), cov, locks, locks1, vals, u, r.after);
      } else {
        forall w | w in locks ensures w in locks1 {
          assert w in locks.Keys;
        }
        SyncedLess(mem[p], Replay(log, p), cov, locks, vals, cov, locks1, vals, p);
      }
    }
  }

  lemma RelogCovers(mem: Pages, log: seq<Rec>, r: Rec, free: map<nat, nat>, cov: map<nat, Cover>)
    requires CoversOk(mem, log, free, cov) && r.Update? && Fits(Redo(r))
    requires r.pgno in mem && |mem[r.pgno]| == PAGE_SIZE && r.off + |r.after| <= Fso(mem[r.pgno])
    ensures CoversOk(mem, log + [r], free, cov)
  {
    forall p | p in cov
      ensures CoverOk(mem[p], Replay(log + [r], p), cov[p]) && Inserted(log + [r], Item(p, cov[p].off, |cov[p].raw|))
    {
      ReplaySnoc(log, r, p);
      InsertedSnoc(log, r, Item(p, cov[p].off, |cov[p].raw|));
      if p == r.pgno {
        ReplayUpdate(log, r);
        SpliceBeside(Replay(log, p), r.off, r.after, cov[p].off, cov[p].off + |cov[p].raw|);
        SpliceBeside(Replay(log, p), r.off, r.after, 0, 2);
      }
    }
  }

  lemma RelogLocks(s: State, u: Addr, r: Rec, s1: State)
    requires RelogShape(s, u, r, s1) && LocksOk(s.locks, s.vals, s.log) && ValsApart(s.vals)
    requires Fits(Redo(r)) && |r.before| == |r.after|
    ensures LocksOk(s1.locks, s1.vals, s1.log)
  {
    var pg := Replay(s.log, u.pgno);
    ReplayUpdate(s.log, r);
    SpliceWithin(pg, u.off, r.after, 0, |r.after|);
    assert r.after[0..|r.after|] == r.after;
    assert Wrap(s.vals[u])[3..] == s.vals[u];
    assert LockOk(u, s1.locks[u], s.vals[u], Replay(s1.log, u.pgno));
    forall w | w in s.locks && w != u ensures w in s.vals && LockOk(w, s.locks[w], s.vals[w], Replay(s1.log, w.pgno)) {
      ReplaySnoc(s.log, r, w.pgno);
      assert LockOk(w, s.locks[w], s.vals[w], Replay(s.log, w.pgno));
      if w.pgno == u.pgno {
        assert Apart(DataRuns.Place(u, s.vals[u]), DataRuns.Place(w, s.vals[w]));
        SpliceBeside(pg, u.off, r.after, w.off, w.off + |s.locks[w].was|);
      }
    }
  }

  lemma RelogUsers(s: State, u: Addr, r: Rec, s1: State)
    requires RelogShape(s, u, r, s1) && UsersOk(s.users, s.locks, s.vals)
    ensures UsersOk(s1.users, s1.locks, s1.vals) && s1.locks.Keys == s.locks.Keys
  {
  }

  lemma RelogKeeps(s: State, u: Addr, r: Rec, s1: State)
    requires Inv(s) && RelogShape(s, u, r, s1)
    ensures Inv(s1)
  {
    var cov := Covers(s.a, s.ins);
    assert ValOk(u, s.vals[u], s.mem[u.pgno]);
    RelogLog(s, u, r, s1);
    RelogUsers(s, u, r, s1);
    RelogSynced(s.mem, s.log, r, s.a.free, cov, s.locks, s1.locks, s.vals, u);
    RelogCovers(s.mem, s.log, r, s.a.free, cov);
    LoggedSnoc(s.vals, s.log, r);
    RelogLocks(s, u, r, s1);
    DiskSnoc(s.mem, s.disk, s.log, r, s.a.free, Held(s));
    Assemble(s1);
  }

  /* ----- giving up a reference ----- */

  /** A release of page `p`: nothing changes but the references, and the page is written back if it is left unheld. */
  ghost predicate ReleaseShape(s: State, s1: State, p: nat) {
    && s1.a == s.a && s1.mem == s.mem && s1.log == s.log && s1.pinned == s.pinned && s1.locks == s.locks && s1.vals == s.vals
    && p in s.mem && s1.disk == (if p in Held(s1) then s.disk else s.disk[p := s.mem[p]])
  }

  lemma UnheldIsLogged(s1: State, cov: map<nat, Cover>, p: nat)
    requires p !in Held(s1) && cov == Covers(s1.a, s1.ins) && p in s1.a.free
    requires Synced(s1.mem, s1.log, s1.a.free, cov, s1.locks, s1.vals) && UsersOk(s1.users, s1.locks, s1.vals)
    ensures p in s1.mem && s1.mem[p] == Replay(s1.log, p)
  {
    assert p !in cov;
    forall u | u in s1.locks ensures u.pgno != p {
      UsedHeld(s1, s1.locks[u].owner);
    }
    AllSynced(s1.mem[p], Replay(s1.log, p), cov, s1.locks, s1.vals, p);
  }

  lemma ReleaseDisk(s: State, s1: State, p: nat)
    requires ReleaseShape(s, s1, p) && Held(s) <= Held(s1) + {p} && p in s.a.free
    requires DiskOk(s.mem, s.disk, s.log, s.a.free, Held(s))
    requires p !in Held(s1) ==> s.mem[p] == Replay(s.log, p)
    ensures DiskOk(s1.mem, s1.disk, s1.log, s1.a.free, Held(s1))
  {
    ReleasedDisk(s.mem, s.disk, s1.disk, s.log, s.a.free, Held(s), Held(s1), p);
  }

  lemma ReleasedDisk(mem: Pages, disk: Pages, disk1: Pages, log: seq<Rec>, free: map<nat, nat>, held: set<nat>, held1: set<nat>, p: nat)
    requires DiskOk(mem, disk, log, free, held) && held <= held1 + {p} && p in free
    requires disk1 == (if p in held1 then disk else disk[p := mem[p]]) && (p !in held1 ==> mem[p] == Replay(log, p))
    ensures DiskOk(mem, disk1, log, free, held1)
  {
    assert log[..|log|] == log;
    assert p !in held1 ==> OnDisk(mem[p], log, p);
  }

  lemma ReleaseSized(s: State, s1: State, p: nat)
    requires ReleaseShape(s, s1, p) && Sized(s.a.noPages, s.a.free, s.mem, s.disk)
    ensures Sized(s1.a.noPages, s1.a.free, s1.mem, s1.disk)
  {
  }

  lemma ReleaseKeeps(s: State, s1: State, p: nat)
    requires Inv(s) && ReleaseShape(s, s1, p) && Held(s) <= Held(s1) + {p} && p in s.a.free
    requires Covers(s1.a, s1.ins) == Covers(s.a, s.ins)
    requires UsersOk(s1.users, s1.locks, s1.vals) && InsOk(s1.a.own, s1.a.free, s1.ins, s1.vals)
    ensures Inv(s1)
  {
    if p !in Held(s1) {
      UnheldIsLogged(s1, Covers(s1.a, s1.ins), p);
    }
    ReleaseDisk(s, s1, p);
    ReleaseSized(s, s1, p);
    Assemble(s1);
  }

  /** The insertion is done with its page. */
  lemma AppliedPhases(s: State, t: nat, s1: State)
    requires A.Agree(s.a.own, s.a.holder) && t in s.a.own && s.a.own[t].Holding? && t in s.ins && s.ins[t].at.Applied?
    requires s1.a == s.a && s1.ins == s.ins[t := Ins(s.ins[t].xid, s.ins[t].raw, Released(s.ins[t].at.off))]
    requires InsOk(s.a.own, s.a.free, s.ins, s.vals)
    ensures Covers(s1.a, s1.ins) == Covers(s.a, s.ins) && Busy(s.a, s.ins) <= Busy(s1.a, s1.ins) + {s.a.own[t].pgno}
    ensures InsOk(s1.a.own, s1.a.free, s1.ins, s.vals)
  {
    var p := s.a.own[t].pgno;
    PhaseMoves(s.a, s.ins, s1.ins, t, p);
    PhaseMoves(s.a, s.ins, s.ins, t, p);
    assert Covers(s.a, s.ins) - {p} == Covers(s.a, s.ins);
    assert Covers(s.a, s1.ins) - {p} == Covers(s.a, s1.ins);
    assert Flies(s.a.own[t], s.ins[t], s.a.free, s.vals);
    InsFrame(s.a.own, s.a.own, s.a.free, s.ins, s1.ins, s.vals, t);
  }

  lemma CloseUsers(users: map<nat, Addr>, locks: map<Addr, Lock>, vals: map<Addr, seq<Byte>>, t: nat)
    requires UsersOk(users, locks, vals) && t in users && !(users[t] in locks && locks[users[t]].owner == t)
    ensures UsersOk(users - {t}, locks, vals) && Used(users) <= Used(users - {t}) + {users[t].pgno}
  {
    forall u | u in locks ensures locks[u].owner in users - {t} {
      assert users[locks[u].owner] == u;
    }
    forall p | p in Used(users) ensures p in Used(users - {t}) + {users[t].pgno} {
      var v :| v in users && users[v].pgno == p;
      assert v != t ==> v in users - {t} && (users - {t})[v].pgno == p;
    }
  }
}
