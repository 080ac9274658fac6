/** The serializability manager object: each method is one section that runs under its mutex. */
module SerializabilityManager {
  import opened Types
  import opened Mvcc
  import opened MvccRuns
  import L = LockGraph
  import R = LockRuns
  import LT = LockTable

  /** A new transaction remembers who is active; a read-committed one does not need to. */
  method NewTransaction(x: Xid, level: nat, active: map<Xid, Txn>) returns (t: Txn)
    ensures t == Txn(x, level, if level == 0 then {} else active.Keys, false, false)
  {
    var snapshot: set<Xid> := {};
    if level != 0 {
      var keys := active.Keys;
      while keys != {}
        invariant keys <= active.Keys && snapshot == active.Keys - keys
        decreases keys
      {
        var y :| y in keys;
        snapshot := snapshot + {y};
        keys := keys - {y};
      }
    }
    t := Txn(x, level, snapshot, false, false);
  }

  /** `x` holds nothing directly any more: what it held so is with the head of its queue, or free. */
  ghost predicate Freed(t: L.Table, t': L.Table, x: Xid) {
    && x !in t'.x2u
    && forall u :: R.HoldsDirectly(t, x, u) ==>
         if u in t.wait then t.wait[u] != [] && R.Owns(t', t.wait[u][0], u) else u !in t'.u2x
  }

  lemma RemoveFrees(t: L.Table, x: Xid)
    requires R.Inv(t) && x !in t.xwaitu
    ensures Freed(t, L.Remove(t, x), x)
  {
    R.RemoveKeeps(t, x);
    R.RemoveHands(t, x);
    R.QueuedAreOthers(t, x);
  }

  class Manager {
    var counter: nat
    var status: map<Xid, Status>
    var tc: map<Xid, Txn>
    var rows: map<Uid, Row>
    const locks: LT.Locks
    ghost var pc: map<Xid, Pc>
    ghost var frozen: bool
    /** What the abstract database makes of the calls so far. */
    ghost var history: History

    ghost function View(): State
      reads this, locks
    {
      State(counter, status, tc, rows, locks.View(), pc, frozen)
    }

    ghost function Abs(): Machine
      reads this, locks
    {
      Machine(View(), history)
    }

    /** The object is where a disciplined run of the sections leads. */
    ghost predicate Valid()
      reads this, locks
    {
      Reached(Abs())
    }

    constructor ()
      ensures View() == INIT && history == START.h && fresh(locks) && Valid()
    {
      counter, status, rows := 0, map[], map[];
      tc := map[SUPER := Txn(SUPER, 0, {}, false, false)];
      locks := new LT.Locks();
      pc, frozen, history := map[], false, START.h;
      new;
      ReachedStart();
    }

    method BeginTxn(level: nat) returns (x: Xid)
      modifies this
      ensures x == old(counter) + 1
      ensures View() == Begin(old(View()), level)
      ensures history == Record(old(Abs()), OpBegin(level))
      ensures Safe(old(Abs()), OpBegin(level)) ==> Valid()
    {
      ghost var m := Abs();
      x := counter + 1;
      status := status[x := Active];
      counter := x;
      var t := NewTransaction(x, level, tc);
      tc := tc[x := t];
      pc := pc[x := Idle];
      history := Record(m, OpBegin(level));
      ReachedStep(m, OpBegin(level));
    }

    /** `u` is the address at which the data manager stores the new row. */
    method InsertRow(x: Xid, u: Uid) returns (ok: bool)
      requires x in tc
      modifies this
      ensures ok == !old(tc)[x].err
      ensures View() == Insert(old(View()), x, u)
      ensures history == Record(old(Abs()), OpInsert(x, u))
      ensures Safe(old(Abs()), OpInsert(x, u)) ==> Valid()
    {
      ReachedStep(Abs(), OpInsert(x, u));
      history := Record(Abs(), OpInsert(x, u));
      if tc[x].err {
        return false;
      }
      rows := rows[u := Row(x, 0)];
      return true;
    }

    /**
     The row's visibility, or nothing when the transaction has failed or there is no such row.  After
     a disciplined run it is what the abstract database owes the transaction.
     */
    method ReadRow(x: Xid, u: Uid) returns (seen: Option<bool>)
      requires x in tc
      ensures seen.None? <==> tc[x].err || u !in rows
      ensures seen.Some? ==> seen.value == IsVisible(View(), tc[x], rows[u])
      ensures seen.Some? && x != SUPER && rows[u].xmin != SUPER && Valid() && !frozen ==>
        && x in history.base && x in history.ins && x in history.del
        && seen.value == Owed(Abs(), x, u)
    {
      if tc[x].err || u !in rows {
        return None;
      }
      if x != SUPER && rows[u].xmin != SUPER && Valid() && !frozen {
        ReachedSees(Abs(), x, u);
      }
      return Some(Sees(tc[x], rows[u]));
    }

    predicate Done(x: Xid)
      reads this
    {
      x == SUPER || (x in status && status[x] == Committed)
    }

    predicate Sees(t: Txn, e: Row)
      reads this, locks
      ensures Sees(t, e) == IsVisible(View(), t, e)
    {
      var own := e.xmin == t.xid && e.xmax == 0;
      if t.level == 0 then
        own || (Done(e.xmin) && (e.xmax == 0 || (e.xmax != t.xid && !Done(e.xmax))))
      else
        own || (Done(e.xmin) && e.xmin < t.xid && !InSnapshot(t, e.xmin)
                && (e.xmax == 0
                    || (e.xmax != t.xid && (!Done(e.xmax) || e.xmax > t.xid || InSnapshot(t, e.xmax)))))
    }

    /** The answer of `DeleteBegin`: finished with false, failed, stuck, or about to wait on the channel. */
    method DeleteBegin(x: Xid, u: Uid) returns (waits: bool)
      requires x in tc && R.Inv(locks.View()) && x !in locks.xwaitu
      modifies this, locks
      ensures View() == DeleteStart(old(View()), x, u)
      ensures waits ==> x in pc && pc[x] == Deleting(u)
      ensures history == Record(old(Abs()), OpDelete(x, u))
      ensures Safe(old(Abs()), OpDelete(x, u)) ==> Valid()
    {
      ReachedStep(Abs(), OpDelete(x, u));
      history := Record(Abs(), OpDelete(x, u));
      if tc[x].err || u !in rows {
        return false;
      }
      if !Sees(tc[x], rows[u]) {
        return false;
      }
      var r := locks.Request(x, u);
      match r {
        case Stuck =>
          frozen := true;
          return false;
        case Refused =>
          tc := tc[x := tc[x].(err := true)];
          pc := pc[x := Aborting(true)];
          return false;
        case _ =>
          pc := pc[x := Deleting(u)];
          return true;
      }
    }

    /** After the channel has delivered: true exactly when the row now carries the caller's stamp anew. */
    method DeleteResume(x: Xid, u: Uid) returns (deleted: bool)
      requires x in tc && x in pc && pc[x] == Deleting(u) && u in rows
      modifies this
      ensures deleted == WakeStamps(old(View()), x, u)
      ensures old(Valid()) && Enabled(old(Abs()), OpWake(x)) && x in old(history).del && u !in old(history).del[x] ==>
        (deleted <==> Deletes(old(Abs()), x, u))
      ensures View() == DeleteWake(old(View()), x, u)
      ensures history == Record(old(Abs()), OpWake(x))
      ensures Safe(old(Abs()), OpWake(x)) ==> Valid()
    {
      ReachedStep(Abs(), OpWake(x));
      ReachedStamps(Abs(), x);
      history := Record(Abs(), OpWake(x));
      var e := rows[u];
      var t := tc[x];
      if t.err || e.xmax == x {
        pc := pc[x := Idle];
        return false;
      }
      if t.level != 0 && Done(e.xmax) && (e.xmax > t.xid || InSnapshot(t, e.xmax)) {
        tc := tc[x := t.(err := true)];
        pc := pc[x := Aborting(true)];
        return false;
      }
      rows := rows[u := e.(xmax := x)];
      pc := pc[x := Idle];
      return true;
    }

    method Leave(x: Xid)
      modifies this
      ensures View() == CommitLeave(old(View()), x)
      ensures history == Record(old(Abs()), OpLeave(x))
      ensures Safe(old(Abs()), OpLeave(x)) ==> Valid()
    {
      ReachedStep(Abs(), OpLeave(x));
      history := Record(Abs(), OpLeave(x));
      if x in tc && !tc[x].err {
        tc := tc - {x};
        pc := pc[x := Leaving];
      }
    }

    method Release(x: Xid)
      requires R.Inv(locks.View()) && x !in locks.xwaitu
      modifies this, locks
      ensures View() == CommitRelease(old(View()), x)
      ensures Freed(old(locks.View()), locks.View(), x)
      ensures history == Record(old(Abs()), OpRelease(x))
      ensures Safe(old(Abs()), OpRelease(x)) ==> Valid()
    {
      ReachedStep(Abs(), OpRelease(x));
      history := Record(Abs(), OpRelease(x));
      RemoveFrees(locks.View(), x);
      locks.Drop(x);
      pc := pc[x := Released];
    }

    method Mark(x: Xid)
      modifies this
      ensures View() == CommitMark(old(View()), x)
      ensures history == Record(old(Abs()), OpMark(x))
      ensures Safe(old(Abs()), OpMark(x)) ==> Valid()
    {
      ReachedStep(Abs(), OpMark(x));
      history := Record(Abs(), OpMark(x));
      status := status[x := Committed];
      pc := pc[x := Ended];
    }

    method Abort(x: Xid)
      requires x in tc
      modifies this
      ensures View() == AbortStart(old(View()), x)
      ensures history == Record(old(Abs()), OpAbort(x))
      ensures Safe(old(Abs()), OpAbort(x)) ==> Valid()
    {
      ReachedStep(Abs(), OpAbort(x));
      history := Record(Abs(), OpAbort(x));
      pc := pc[x := if tc[x].autoAborted then Ended else Aborting(false)];
      tc := tc - {x};
    }

    /** The part of `abort` behind the mutex: the locks are freed, and an automatic abort leaves the transaction registered. */
    method Finish(x: Xid, auto: bool)
      requires R.Inv(locks.View()) && x !in locks.xwaitu
      requires x in pc && pc[x] == Aborting(auto) && (auto ==> x in tc)
      modifies this, locks
      ensures View() == AbortFinish(old(View()), x)
      ensures Freed(old(locks.View()), locks.View(), x)
      ensures history == Record(old(Abs()), OpFinish(x))
      ensures Safe(old(Abs()), OpFinish(x)) ==> Valid()
    {
      ReachedStep(Abs(), OpFinish(x));
      history := Record(Abs(), OpFinish(x));
      RemoveFrees(locks.View(), x);
      locks.Drop(x);
      status := status[x := Aborted];
      if auto {
        tc := tc[x := tc[x].(autoAborted := true)];
        pc := pc[x := Idle];
      } else {
        pc := pc[x := Ended];
      }
    }
  }
}
