/**
 Multi-version concurrency control.  `State` holds the transaction statuses, the active
 transactions, the rows with their XMIN and XMAX, the lock table, and for every transaction the
 place its calling goroutine has reached.  Each step is one section of the serializability manager
 between two releases of its mutex.
 */
module Mvcc {
  import L = LockGraph

  type Xid = nat
  type Uid = nat

  const SUPER: Xid := 0

  datatype Status = Active | Committed | Aborted

  datatype Txn = Txn(xid: Xid, level: nat, snapshot: set<Xid>, err: bool, autoAborted: bool)

  datatype Row = Row(xmin: Xid, xmax: Xid)

  /**
   Where a transaction's goroutine stands: between calls, inside `Delete` before or after the wait,
   inside `abort` before the locks are freed, inside `Commit` after leaving the active map,
   inside `Commit` after freeing the locks, or finished.
   */
  datatype Pc = Idle | Deleting(u: Uid) | Aborting(auto: bool) | Leaving | Released | Ended

  datatype State = State(
    counter: nat,
    status: map<Xid, Status>,
    tc: map<Xid, Txn>,
    rows: map<Uid, Row>,
    lt: L.Table,
    pc: map<Xid, Pc>,
    frozen: bool)

  const INIT := State(0, map[], map[SUPER := Txn(SUPER, 0, {}, false, false)], map[], L.EMPTY, map[], false)

  /* ----- transaction status and visibility ----- */

  predicate IsCommitted(s: State, x: Xid) {
    x == SUPER || (x in s.status && s.status[x] == Committed)
  }

  predicate InSnapshot(t: Txn, x: Xid) {
    x != SUPER && x in t.snapshot
  }

  predicate IsVersionSkip(s: State, t: Txn, e: Row) {
    if t.level == 0 then false
    else IsCommitted(s, e.xmax) && (e.xmax > t.xid || InSnapshot(t, e.xmax))
  }

  predicate ReadCommitted(s: State, t: Txn, e: Row) {
    if e.xmin == t.xid && e.xmax == 0 then true
    else
      && IsCommitted(s, e.xmin)
      && (e.xmax == 0 || (e.xmax != t.xid && !IsCommitted(s, e.xmax)))
  }

  predicate RepeatableRead(s: State, t: Txn, e: Row) {
    if e.xmin == t.xid && e.xmax == 0 then true
    else
      && IsCommitted(s, e.xmin) && e.xmin < t.xid && !InSnapshot(t, e.xmin)
      && (e.xmax == 0
          || (e.xmax != t.xid && (!IsCommitted(s, e.xmax) || e.xmax > t.xid || InSnapshot(t, e.xmax))))
  }

  predicate IsVisible(s: State, t: Txn, e: Row) {
    if t.level == 0 then ReadCommitted(s, t, e) else RepeatableRead(s, t, e)
  }

  /* ----- the steps ----- */

  function Begin(s: State, level: nat): State {
    var x := s.counter + 1;
    var snapshot := if level == 0 then {} else s.tc.Keys;
    s.(counter := x,
       status := s.status[x := Active],
       tc := s.tc[x := Txn(x, level, snapshot, false, false)],
       pc := s.pc[x := Idle])
  }

  /** `u` is the address the data manager returns. */
  function Insert(s: State, x: Xid, u: Uid): State
    requires x in s.tc
  {
    if s.tc[x].err then s else s.(rows := s.rows[u := Row(x, 0)])
  }

  function Fail(s: State, x: Xid): State
    requires x in s.tc
  {
    s.(tc := s.tc[x := s.tc[x].(err := true)], pc := s.pc[x := Aborting(true)])
  }

  /** `Delete` up to the wait on the channel. */
  ghost function DeleteStart(s: State, x: Xid, u: Uid): State
    requires x in s.tc
  {
    if s.tc[x].err || u !in s.rows || !IsVisible(s, s.tc[x], s.rows[u]) then s
    else
      var (lt', r) := L.Add(s.lt, x, u);
      var s' := s.(lt := lt');
      match r
      case Stuck => s'.(frozen := true)
      case Refused => Fail(s', x)
      case _ => s'.(pc := s.pc[x := Deleting(u)])
  }

  /** Whether the second half of `Delete` stamps the row, so that `Delete` returns true. */
  predicate WakeStamps(s: State, x: Xid, u: Uid)
    requires x in s.tc && u in s.rows
  {
    !s.tc[x].err && s.rows[u].xmax != x && !IsVersionSkip(s, s.tc[x], s.rows[u])
  }

  /** `Delete` after the channel has delivered. */
  function DeleteWake(s: State, x: Xid, u: Uid): State
    requires x in s.tc && u in s.rows
  {
    if s.tc[x].err || s.rows[u].xmax == x then s.(pc := s.pc[x := Idle])
    else if IsVersionSkip(s, s.tc[x], s.rows[u]) then Fail(s, x)
    else s.(rows := s.rows[u := s.rows[u].(xmax := x)], pc := s.pc[x := Idle])
  }

  /** `Commit` is three sections: leave the active map, free the locks, mark the status. */
  function CommitLeave(s: State, x: Xid): State {
    if x !in s.tc || s.tc[x].err then s
    else s.(tc := s.tc - {x}, pc := s.pc[x := Leaving])
  }

  function CommitRelease(s: State, x: Xid): State {
    s.(lt := L.Remove(s.lt, x), pc := s.pc[x := Released])
  }

  function CommitMark(s: State, x: Xid): State {
    s.(status := s.status[x := Committed], pc := s.pc[x := Ended])
  }

  /** `Abort` up to the release of the mutex. */
  function AbortStart(s: State, x: Xid): State
    requires x in s.tc
  {
    s.(tc := s.tc - {x}, pc := s.pc[x := if s.tc[x].autoAborted then Ended else Aborting(false)])
  }

  /** The rest of `abort`, manual or automatic. */
  function AbortFinish(s: State, x: Xid): State
    requires x in s.pc && s.pc[x].Aborting? && (s.pc[x].auto ==> x in s.tc)
  {
    var s' := s.(lt := L.Remove(s.lt, x), status := s.status[x := Aborted]);
    if s.pc[x].auto then s'.(tc := s.tc[x := s.tc[x].(autoAborted := true)], pc := s.pc[x := Idle])
    else s'.(pc := s.pc[x := Ended])
  }
}

/** Runs of the serializability manager against an abstract database with snapshots. */
module MvccRuns {
  import opened Types
  import opened Mvcc
  import L = LockGraph
  import R = LockRuns

  /**
   The abstract database: `db` is the set of committed rows; a transaction works on `base`, the
   database of the moment it began, inserts `ins` and deletes `del`, and commits both at once.
   */
  datatype History = History(
    db: set<Uid>,
    base: map<Xid, set<Uid>>,
    ins: map<Xid, set<Uid>>,
    del: map<Xid, set<Uid>>)

  datatype Machine = Machine(s: State, h: History)

  const START := Machine(INIT, History({}, map[], map[], map[]))

  datatype Op =
    | OpBegin(level: nat)
    | OpInsert(x: Xid, u: Uid)
    | OpDelete(x: Xid, u: Uid)
    | OpWake(x: Xid)
    | OpLeave(x: Xid)
    | OpRelease(x: Xid)
    | OpMark(x: Xid)
    | OpAbort(x: Xid)
    | OpFinish(x: Xid)

  /** `x` may start a call: it is active and none of its calls is under way. */
  predicate Ready(s: State, x: Xid) {
    x in s.tc && x in s.pc && s.pc[x] == Idle
  }

  predicate Enabled(m: Machine, op: Op) {
    var s := m.s;
    && !s.frozen
    && match op
       case OpBegin(_) => true
       case OpInsert(x, u) => x in s.tc && (x == SUPER || Ready(s, x)) && u !in s.rows
       case OpDelete(x, u) => Ready(s, x)
       case OpWake(x) =>
         x in s.tc && x in s.pc && s.pc[x].Deleting? && s.pc[x].u in s.rows && x !in s.lt.xwaitu
       case OpLeave(x) => Ready(s, x)
       case OpRelease(x) => x in s.pc && s.pc[x] == Leaving
       case OpMark(x) => x in s.pc && s.pc[x] == Released
       case OpAbort(x) => Ready(s, x)
       case OpFinish(x) => x in s.pc && s.pc[x].Aborting? && (s.pc[x].auto ==> x in s.tc)
  }

  ghost function Step(m: Machine, op: Op): Machine
    requires Enabled(m, op)
  {
    var s, h := m.s, m.h;
    match op
    case OpBegin(level) =>
      var x := s.counter + 1;
      Machine(Begin(s, level), h.(base := h.base[x := h.db], ins := h.ins[x := {}], del := h.del[x := {}]))
    case OpInsert(x, u) =>
      Machine(Insert(s, x, u),
              if s.tc[x].err || x == SUPER || x !in h.ins then h else h.(ins := h.ins[x := h.ins[x] + {u}]))
    case OpDelete(x, u) => Machine(DeleteStart(s, x, u), h)
    case OpWake(x) =>
      var u := s.pc[x].u;
      Machine(DeleteWake(s, x, u),
              if WakeStamps(s, x, u) && x in h.del then h.(del := h.del[x := h.del[x] + {u}]) else h)
    case OpLeave(x) => Machine(CommitLeave(s, x), h)
    case OpRelease(x) => Machine(CommitRelease(s, x), h)
    case OpMark(x) =>
      Machine(CommitMark(s, x),
              if x in h.ins && x in h.del then h.(db := (h.db + h.ins[x]) - h.del[x]) else h)
    case OpAbort(x) => Machine(AbortStart(s, x), h)
    case OpFinish(x) => Machine(AbortFinish(s, x), h)
  }

  /** The commit of `y` is between leaving the active map and marking the status. */
  predicate Committing(s: State, y: Xid) {
    y in s.pc && (s.pc[y] == Leaving || s.pc[y] == Released)
  }

  /** The commit of `y` brings or takes away the row; a row `y` inserted and deleted is neither. */
  predicate Touched(e: Row, y: Xid) {
    (e.xmin == y) != (e.xmax == y)
  }

  predicate TouchesNothing(s: State, y: Xid) {
    forall u :: u in s.rows ==> !Touched(s.rows[u], y)
  }

  /**
   The discipline under which the guarantees hold: no repeatable-read transaction begins while a
   commit that touches a row is under way, and no deleter resumes on a row whose stamp belongs to a
   commit that has freed its locks but not yet marked its status, or, if the deleter reads
   committed, to a transaction that has committed.
   */
  ghost predicate Disciplined(s: State, op: Op) {
    match op
    case OpBegin(level) => level != 0 ==> forall y :: Committing(s, y) ==> TouchesNothing(s, y)
    case OpWake(x) =>
      x in s.tc && x in s.pc && s.pc[x].Deleting? && s.pc[x].u in s.rows ==>
        var y := s.rows[s.pc[x].u].xmax;
        !(y in s.pc && s.pc[y] == Released) && !(s.tc[x].level == 0 && y != SUPER && IsCommitted(s, y))
    case _ => true
  }

  /* ----- the invariant ----- */

  /** `y` was committed when `t` began, as far as `t` can tell. */
  predicate Before(s: State, y: Xid, t: Txn) {
    y != SUPER && IsCommitted(s, y) && y < t.xid && y !in t.snapshot
  }

  /** `y` has not yet ended: it is active, or its commit is under way. */
  predicate Live(s: State, y: Xid) {
    y in s.tc || Committing(s, y)
  }

  /** `y` has not yet freed its locks. */
  predicate Holding(s: State, y: Xid) {
    && y in s.pc
    && (s.pc[y] == Leaving || s.pc[y].Aborting?
        || ((s.pc[y] == Idle || s.pc[y].Deleting?) && y in s.tc && !s.tc[y].autoAborted))
  }

  /** `y` is running without error, committing, or committed. */
  predicate Sound(s: State, y: Xid) {
    && y in s.pc
    && (s.pc[y] == Leaving || s.pc[y] == Released || (y in s.tc && !s.tc[y].err) || IsCommitted(s, y))
  }

  predicate Owns(s: State, x: Xid, u: Uid) {
    u in s.lt.u2x && s.lt.u2x[u] == x
  }

  ghost predicate Domains(m: Machine) {
    var s, h := m.s, m.h;
    && (forall x :: x in s.pc <==> 1 <= x <= s.counter)
    && (forall x :: x in s.status <==> 1 <= x <= s.counter)
    && h.base.Keys == h.ins.Keys == h.del.Keys == s.pc.Keys
    && SUPER in s.tc && !s.tc[SUPER].err
    && (forall x :: x in s.tc ==> s.tc[x].xid == x && (x == SUPER || x in s.pc))
  }

  /** The goroutine of `x` stands where its entry in the active map and its status say it can. */
  predicate ControlAt(s: State, x: Xid)
    requires x in s.pc
  {
    && (x in s.tc ==>
          && (s.pc[x] == Idle || s.pc[x].Deleting? || s.pc[x] == Aborting(true))
          && (s.tc[x].autoAborted ==> s.tc[x].err)
          && (s.tc[x].err <==> s.pc[x] == Aborting(true) || s.tc[x].autoAborted)
          && (s.pc[x].Deleting? ==> !s.tc[x].err))
    && (x !in s.tc ==>
          s.pc[x] == Aborting(false) || s.pc[x] == Leaving || s.pc[x] == Released || s.pc[x] == Ended)
    && (IsCommitted(s, x) ==> s.pc[x] == Ended)
  }

  ghost predicate Control(s: State) {
    forall x :: x in s.pc ==> ControlAt(s, x)
  }

  /** A snapshot need not name `y`: its commit is under way and touches no row. */
  predicate Harmless(s: State, y: Xid) {
    y !in s.tc && TouchesNothing(s, y)
  }

  /** A snapshot names every smaller xid whose commit could still bring or take away a row. */
  ghost predicate Snapshots(s: State) {
    forall x: Xid, y: Xid :: x in s.tc && s.tc[x].level != 0 && Live(s, y) && 1 <= y < x ==>
      y in s.tc[x].snapshot || Harmless(s, y)
  }

  /** Rows are stamped by known xids, and only the inserter stamps an uncommitted row. */
  ghost predicate Stamps(s: State) {
    forall u :: u in s.rows ==>
      && s.rows[u].xmin <= s.counter && s.rows[u].xmax <= s.counter
      && (s.rows[u].xmax != 0 && s.rows[u].xmax != s.rows[u].xmin ==> IsCommitted(s, s.rows[u].xmin))
  }

  ghost predicate Locking(s: State) {
    && R.Inv(s.lt)
    && (forall x :: x in s.lt.xwaitu ==> x in s.pc && s.pc[x] == Deleting(s.lt.xwaitu[x]))
    && (forall u :: u in s.rows && Holding(s, s.rows[u].xmax) ==> Owns(s, s.rows[u].xmax, u))
  }

  /** Inside `Delete`, past the visibility test. */
  ghost predicate Deleters(s: State) {
    forall x :: x in s.pc && x in s.tc && s.pc[x].Deleting? ==>
      var u := s.pc[x].u;
      && u in s.rows
      && (x in s.lt.xwaitu || Owns(s, x, u))
      && (s.rows[u].xmin == x || IsCommitted(s, s.rows[u].xmin))
      && (s.tc[x].level != 0 ==> !Before(s, s.rows[u].xmax, s.tc[x]))
  }

  ghost predicate Recorded(m: Machine) {
    var s, h := m.s, m.h;
    && (forall x, u :: x in s.pc && x in h.ins ==> (u in h.ins[x] <==> u in s.rows && s.rows[u].xmin == x))
    && (forall x, u :: Sound(s, x) && x in h.del ==> (u in h.del[x] <==> u in s.rows && s.rows[u].xmax == x))
  }

  predicate LiveRow(s: State, e: Row) {
    e.xmin != SUPER && IsCommitted(s, e.xmin) && (e.xmax == 0 || !IsCommitted(s, e.xmax))
  }

  ghost predicate Database(m: Machine) {
    forall u :: u in m.h.db <==> u in m.s.rows && LiveRow(m.s, m.s.rows[u])
  }

  /** The row was there when `t` began, as far as `t` can tell. */
  predicate Past(s: State, e: Row, t: Txn) {
    Before(s, e.xmin, t) && !Before(s, e.xmax, t)
  }

  ghost predicate Bases(m: Machine) {
    var s, h := m.s, m.h;
    forall x, u :: x in s.tc && x in h.base && s.tc[x].level != 0 ==>
      (u in h.base[x] <==> u in s.rows && Past(s, s.rows[u], s.tc[x]))
  }

  ghost predicate Inv(m: Machine) {
    && Domains(m) && Control(m.s) && Snapshots(m.s) && Stamps(m.s)
    && Locking(m.s) && Deleters(m.s) && Recorded(m) && Database(m) && Bases(m)
  }

  lemma StartInv()
    ensures Inv(START)
  {
  }

  /* ----- steps that touch no row ----- */

  /** Nothing is different for any xid but `x`. */
  ghost predicate SameBut(s: State, s': State, x: Xid) {
    && s'.counter == s.counter
    && (forall y :: y != x ==> (y in s'.tc <==> y in s.tc) && (y in s.tc ==> s'.tc[y] == s.tc[y]))
    && (forall y :: y != x ==> (y in s'.pc <==> y in s.pc) && (y in s.pc ==> s'.pc[y] == s.pc[y]))
    && (forall y :: y != x ==> (IsCommitted(s', y) <==> IsCommitted(s, y)))
  }

  /** The lock table lets go of `x` at most; waiters that stop waiting own what they waited for. */
  ghost predicate LocksPass(t: L.Table, t': L.Table, x: Xid) {
    && R.Inv(t')
    && (forall u :: u in t.u2x && t.u2x[u] != x ==> u in t'.u2x && t'.u2x[u] == t.u2x[u])
    && (forall y :: y in t'.xwaitu ==> y in t.xwaitu && t'.xwaitu[y] == t.xwaitu[y])
    && (forall y :: y in t.xwaitu && y !in t'.xwaitu ==> t.xwaitu[y] in t'.u2x && t'.u2x[t.xwaitu[y]] == y)
  }

  lemma RemovePasses(t: L.Table, x: Xid)
    requires R.Inv(t) && x !in t.xwaitu
    ensures LocksPass(t, L.Remove(t, x), x)
  {
    R.RemoveKeeps(t, x);
  }

  /** How `x` itself changes in a step that touches no row: it can only lose standing. */
  predicate Demoted(s: State, s': State, x: Xid) {
    && x in s.pc && x in s'.pc && !s'.pc[x].Deleting?
    && x !in s.lt.xwaitu
    && (IsCommitted(s', x) <==> IsCommitted(s, x))
    && (Live(s', x) ==> Live(s, x))
    && (Sound(s', x) ==> Sound(s, x))
    && (Holding(s', x) ==> Holding(s, x) && s'.lt == s.lt)
    && (x in s'.tc ==> x in s.tc && s'.tc[x].level == s.tc[x].level
                       && s'.tc[x].snapshot == s.tc[x].snapshot && s'.tc[x].xid == s.tc[x].xid)
  }

  ghost predicate Steps(s: State, s': State, x: Xid) {
    SameBut(s, s', x) && s'.rows == s.rows && LocksPass(s.lt, s'.lt, x) && Demoted(s, s', x)
  }

  lemma StepSnapshots(s: State, s': State, x: Xid)
    requires Snapshots(s) && Steps(s, s', x)
    ensures Snapshots(s')
  {
    forall z: Xid, y: Xid | z in s'.tc && s'.tc[z].level != 0 && Live(s', y) && 1 <= y < z
      ensures y in s'.tc[z].snapshot || Harmless(s', y)
    {
      assert Live(s, y);
    }
  }

  lemma StepLocking(s: State, s': State, x: Xid)
    requires Locking(s) && Steps(s, s', x)
    ensures Locking(s')
  {
    forall y | y in s'.lt.xwaitu
      ensures y in s'.pc && s'.pc[y] == Deleting(s'.lt.xwaitu[y])
    {
      assert y != x;
    }
    forall u | u in s'.rows && Holding(s', s'.rows[u].xmax)
      ensures Owns(s', s'.rows[u].xmax, u)
    {
      var y := s'.rows[u].xmax;
      assert Holding(s, y);
      assert Owns(s, y, u);
    }
  }

  lemma StepDeleters(s: State, s': State, x: Xid)
    requires Deleters(s) && Locking(s) && Steps(s, s', x)
    ensures Deleters(s')
  {
    forall y | y in s'.pc && y in s'.tc && s'.pc[y].Deleting?
      ensures var u := s'.pc[y].u;
        && u in s'.rows
        && (y in s'.lt.xwaitu || Owns(s', y, u))
        && (s'.rows[u].xmin == y || IsCommitted(s', s'.rows[u].xmin))
        && (s'.tc[y].level != 0 ==> !Before(s', s'.rows[u].xmax, s'.tc[y]))
    {
      assert y != x && y in s.pc && y in s.tc && s.pc[y] == s'.pc[y];
      var u := s.pc[y].u;
      assert u in s.rows;
      if y in s.lt.xwaitu {
        assert s.lt.xwaitu[y] == u;
      }
      assert y in s'.lt.xwaitu || Owns(s', y, u);
    }
  }

  lemma StepRecorded(m: Machine, m': Machine, x: Xid)
    requires Recorded(m) && Steps(m.s, m'.s, x) && m'.h == m.h
    ensures Recorded(m')
  {
    assert forall y :: y in m'.s.pc ==> y in m.s.pc;
    assert forall y :: Sound(m'.s, y) ==> Sound(m.s, y);
  }

  lemma StepBases(m: Machine, m': Machine, x: Xid)
    requires Bases(m) && Steps(m.s, m'.s, x) && m'.h == m.h
    ensures Bases(m')
  {
    var s, s' := m.s, m'.s;
    forall z, u | z in s'.tc && z in m'.h.base && s'.tc[z].level != 0
      ensures u in m'.h.base[z] <==> u in s'.rows && Past(s', s'.rows[u], s'.tc[z])
    {
      assert z in s.tc;
      assert forall y :: Before(s', y, s'.tc[z]) <==> Before(s, y, s.tc[z]);
    }
  }

  lemma StepKeeps(m: Machine, m': Machine, x: Xid)
    requires Inv(m) && Steps(m.s, m'.s, x) && m'.h == m.h
    requires Domains(m') && Control(m'.s)
    ensures Inv(m')
  {
    StepSnapshots(m.s, m'.s, x);
    StepLocking(m.s, m'.s, x);
    StepDeleters(m.s, m'.s, x);
    StepRecorded(m, m', x);
    StepBases(m, m', x);
    assert forall y :: IsCommitted(m'.s, y) <==> IsCommitted(m.s, y);
    assert Stamps(m'.s);
    assert Database(m');
  }

  /** All that the bookkeeping of a single transaction depends on. */
  ghost predicate Tidy(m: Machine, x: Xid) {
    Domains(m) && Control(m.s) && R.Inv(m.s.lt) && x in m.s.pc && x !in m.s.lt.xwaitu
  }

  lemma StaysTidy(m: Machine, s': State, x: Xid)
    requires Domains(m) && Control(m.s) && SameBut(m.s, s', x)
    requires x in m.s.pc && x in s'.pc && ControlAt(s', x)
    requires x in s'.status && s'.status.Keys == m.s.status.Keys
    requires x in s'.tc ==> s'.tc[x].xid == x
    ensures Domains(m.(s := s')) && Control(s')
  {
    assert s'.pc.Keys == m.s.pc.Keys;
    forall y | y in s'.pc
      ensures ControlAt(s', y)
    {
      if y != x {
        assert ControlAt(m.s, y);
      }
    }
  }

  lemma FailSteps(m: Machine, x: Xid)
    requires Tidy(m, x) && x in m.s.tc && !m.s.tc[x].err
    ensures Steps(m.s, Fail(m.s, x), x)
    ensures Domains(m.(s := Fail(m.s, x))) && Control(Fail(m.s, x))
  {
    assert ControlAt(m.s, x);
    StaysTidy(m, Fail(m.s, x), x);
  }

  lemma LeaveSteps(m: Machine, x: Xid)
    requires Tidy(m, x) && Ready(m.s, x) && !m.s.tc[x].err
    ensures Steps(m.s, CommitLeave(m.s, x), x)
    ensures Domains(m.(s := CommitLeave(m.s, x))) && Control(CommitLeave(m.s, x))
  {
    assert ControlAt(m.s, x);
    StaysTidy(m, CommitLeave(m.s, x), x);
  }

  lemma ReleaseSteps(m: Machine, x: Xid)
    requires Tidy(m, x) && m.s.pc[x] == Leaving
    ensures Steps(m.s, CommitRelease(m.s, x), x)
    ensures Domains(m.(s := CommitRelease(m.s, x))) && Control(CommitRelease(m.s, x))
  {
    assert ControlAt(m.s, x);
    RemovePasses(m.s.lt, x);
    StaysTidy(m, CommitRelease(m.s, x), x);
  }

  lemma AbortDemotes(s: State, x: Xid)
    requires Ready(s, x)
    requires x in s.pc && ControlAt(s, x) && x !in s.lt.xwaitu
    ensures Demoted(s, AbortStart(s, x), x) && ControlAt(AbortStart(s, x), x)
  {
  }

  lemma AbortSteps(m: Machine, x: Xid)
    requires Tidy(m, x) && Ready(m.s, x)
    ensures Steps(m.s, AbortStart(m.s, x), x)
    ensures Domains(m.(s := AbortStart(m.s, x))) && Control(AbortStart(m.s, x))
  {
    AbortDemotes(m.s, x);
    StaysTidy(m, AbortStart(m.s, x), x);
  }

  lemma FinishDemotes(s: State, x: Xid)
    requires x in s.pc && s.pc[x].Aborting? && (s.pc[x].auto ==> x in s.tc)
    requires x in s.pc && ControlAt(s, x) && x !in s.lt.xwaitu
    ensures Demoted(s, AbortFinish(s, x), x) && ControlAt(AbortFinish(s, x), x)
  {
  }

  lemma FinishFrame(s: State, x: Xid)
    requires R.Inv(s.lt) && x !in s.lt.xwaitu
    requires x in s.pc && s.pc[x].Aborting? && (s.pc[x].auto ==> x in s.tc)
    ensures var s' := AbortFinish(s, x);
      SameBut(s, s', x) && s'.rows == s.rows && LocksPass(s.lt, s'.lt, x)
  {
    RemovePasses(s.lt, x);
  }

  lemma FinishSteps(m: Machine, x: Xid)
    requires Tidy(m, x) && m.s.pc[x].Aborting? && (m.s.pc[x].auto ==> x in m.s.tc)
    ensures Steps(m.s, AbortFinish(m.s, x), x)
    ensures Domains(m.(s := AbortFinish(m.s, x))) && Control(AbortFinish(m.s, x))
  {
    FinishDemotes(m.s, x);
    FinishFrame(m.s, x);
    StaysTidy(m, AbortFinish(m.s, x), x);
  }

  lemma FailKeeps(m: Machine, x: Xid)
    requires Inv(m) && x in m.s.tc && x in m.s.pc && x !in m.s.lt.xwaitu && !m.s.tc[x].err
    ensures Inv(m.(s := Fail(m.s, x)))
  {
    FailSteps(m, x);
    StepKeeps(m, m.(s := Fail(m.s, x)), x);
  }

  lemma LeaveKeeps(m: Machine, x: Xid)
    requires Inv(m) && Enabled(m, OpLeave(x))
    ensures Inv(Step(m, OpLeave(x)))
  {
    if !m.s.tc[x].err {
      assert x !in m.s.lt.xwaitu;
      LeaveSteps(m, x);
      StepKeeps(m, Step(m, OpLeave(x)), x);
    }
  }

  lemma ReleaseKeeps(m: Machine, x: Xid)
    requires Inv(m) && Enabled(m, OpRelease(x))
    ensures Inv(Step(m, OpRelease(x)))
  {
    ReleaseSteps(m, x);
    StepKeeps(m, Step(m, OpRelease(x)), x);
  }

  lemma AbortKeeps(m: Machine, x: Xid)
    requires Inv(m) && Enabled(m, OpAbort(x))
    ensures Inv(Step(m, OpAbort(x)))
  {
    AbortSteps(m, x);
    StepKeeps(m, Step(m, OpAbort(x)), x);
  }

  lemma FinishKeeps(m: Machine, x: Xid)
    requires Inv(m) && Enabled(m, OpFinish(x))
    ensures Inv(Step(m, OpFinish(x)))
  {
    FinishSteps(m, x);
    StepKeeps(m, Step(m, OpFinish(x)), x);
  }

  /* ----- Begin ----- */

  /** The new xid has left no trace, and nothing is different for the others. */
  ghost predicate Started(s: State, s': State, x: Xid, level: nat) {
    && x == s.counter + 1 && s' == Begin(s, level)
    && x !in s.pc && x !in s.tc && !IsCommitted(s, x) && !IsCommitted(s', x)
    && s'.tc[x] == Txn(x, level, if level == 0 then {} else s.tc.Keys, false, false) && s'.pc[x] == Idle
    && (forall y :: y != x ==> (y in s'.tc <==> y in s.tc) && (y in s.tc ==> s'.tc[y] == s.tc[y]))
    && (forall y :: y != x ==> (y in s'.pc <==> y in s.pc) && (y in s.pc ==> s'.pc[y] == s.pc[y]))
    && (forall y :: IsCommitted(s', y) <==> IsCommitted(s, y))
  }

  lemma BeginStarts(m: Machine, level: nat)
    requires Domains(m)
    ensures Started(m.s, Begin(m.s, level), m.s.counter + 1, level)
  {
  }

  lemma BeginTidy(m: Machine, level: nat)
    requires Domains(m) && Control(m.s) && Enabled(m, OpBegin(level))
    ensures var m' := Step(m, OpBegin(level)); Domains(m') && Control(m'.s)
  {
    var m' := Step(m, OpBegin(level));
    BeginStarts(m, level);
    forall y | y in m'.s.pc
      ensures ControlAt(m'.s, y)
    {
      if y in m.s.pc {
        assert ControlAt(m.s, y);
      }
    }
    assert m'.s.pc.Keys == m.s.pc.Keys + {m.s.counter + 1};
  }

  lemma BeginSnapshots(s: State, s': State, x: Xid, level: nat)
    requires Snapshots(s) && Started(s, s', x, level) && Disciplined(s, OpBegin(level))
    requires forall y :: y in s.tc || y in s.pc ==> y <= s.counter
    ensures Snapshots(s')
  {
    forall z: Xid, y: Xid | z in s'.tc && s'.tc[z].level != 0 && Live(s', y) && 1 <= y < z
      ensures y in s'.tc[z].snapshot || Harmless(s', y)
    {
      assert y != x;
      assert Live(s, y);
    }
  }

  lemma BeginLocking(s: State, s': State, x: Xid, level: nat)
    requires Locking(s) && Stamps(s) && Started(s, s', x, level)
    ensures Locking(s') && Stamps(s')
  {
    forall u | u in s'.rows && Holding(s', s'.rows[u].xmax)
      ensures Owns(s', s'.rows[u].xmax, u)
    {
      assert Holding(s, s.rows[u].xmax);
    }
  }

  lemma BeginDeleters(s: State, s': State, x: Xid, level: nat)
    requires Deleters(s) && Started(s, s', x, level)
    ensures Deleters(s')
  {
    forall y | y in s'.pc && y in s'.tc && s'.pc[y].Deleting?
      ensures var u := s'.pc[y].u;
        && u in s'.rows
        && (y in s'.lt.xwaitu || Owns(s', y, u))
        && (s'.rows[u].xmin == y || IsCommitted(s', s'.rows[u].xmin))
        && (s'.tc[y].level != 0 ==> !Before(s', s'.rows[u].xmax, s'.tc[y]))
    {
      assert y in s.pc && y in s.tc && s.pc[y].Deleting?;
    }
  }

  lemma BeginRecorded(m: Machine, level: nat)
    requires Domains(m) && Stamps(m.s) && Recorded(m) && Enabled(m, OpBegin(level))
    ensures Recorded(Step(m, OpBegin(level)))
  {
    var m' := Step(m, OpBegin(level));
    var x := m.s.counter + 1;
    BeginStarts(m, level);
    assert forall y :: y != x && Sound(m'.s, y) ==> Sound(m.s, y);
  }

  /** The new transaction counts exactly the committed rows as its past. */
  lemma BeginPast(s: State, s': State, x: Xid, level: nat, u: Uid)
    requires Control(s) && Stamps(s) && Started(s, s', x, level) && level != 0 && u in s.rows
    requires forall y :: y != SUPER && IsCommitted(s, y) ==> y in s.pc
    ensures Past(s', s.rows[u], s'.tc[x]) <==> LiveRow(s, s.rows[u])
  {
    forall y | y == s.rows[u].xmin || y == s.rows[u].xmax
      ensures Before(s', y, s'.tc[x]) <==> y != SUPER && IsCommitted(s, y)
    {
      if y != SUPER && IsCommitted(s, y) {
        assert ControlAt(s, y);
      }
    }
  }

  /** The database at `Begin` is what the new transaction counts as committed before it. */
  lemma BeginBases(m: Machine, level: nat)
    requires Domains(m) && Control(m.s) && Stamps(m.s) && Database(m) && Bases(m) && Enabled(m, OpBegin(level))
    ensures Bases(Step(m, OpBegin(level))) && Database(Step(m, OpBegin(level)))
  {
    var m' := Step(m, OpBegin(level));
    var s, s', h' := m.s, m'.s, m'.h;
    var x := s.counter + 1;
    BeginStarts(m, level);
    forall z, u | z in s'.tc && z in h'.base && s'.tc[z].level != 0
      ensures u in h'.base[z] <==> u in s'.rows && Past(s', s'.rows[u], s'.tc[z])
    {
      if z != x {
        assert z in m.h.base && (u in h'.base[z] <==> u in m.h.base[z]);
      } else if u in s.rows {
        BeginPast(s, s', x, level, u);
      }
    }
    BeginDatabase(m, level);
  }

  lemma BeginDatabase(m: Machine, level: nat)
    requires Domains(m) && Database(m) && Enabled(m, OpBegin(level))
    ensures Database(Step(m, OpBegin(level)))
  {
    var s, s' := m.s, Begin(m.s, level);
    BeginStarts(m, level);
    assert forall u :: u in s.rows ==> (LiveRow(s', s.rows[u]) <==> LiveRow(s, s.rows[u]));
  }

  lemma BeginKeeps(m: Machine, level: nat)
    requires Inv(m) && Enabled(m, OpBegin(level)) && Disciplined(m.s, OpBegin(level))
    ensures Inv(Step(m, OpBegin(level)))
  {
    var s' := Begin(m.s, level);
    var x := m.s.counter + 1;
    BeginStarts(m, level);
    BeginTidy(m, level);
    BeginSnapshots(m.s, s', x, level);
    BeginLocking(m.s, s', x, level);
    BeginDeleters(m.s, s', x, level);
    BeginRecorded(m, level);
    BeginBases(m, level);
  }

  /* ----- Insert ----- */

  /** A fresh row of a transaction that is not committed, or of the super transaction. */
  ghost predicate Added(s: State, s': State, x: Xid, u: Uid) {
    && u !in s.rows && x in s.tc && x <= s.counter && (x == SUPER || !IsCommitted(s, x))
    && s' == s.(rows := s.rows[u := Row(x, 0)])
    && (forall y :: IsCommitted(s', y) <==> IsCommitted(s, y))
  }

  lemma InsertLocking(s: State, s': State, x: Xid, u: Uid)
    requires Locking(s) && Stamps(s) && Deleters(s) && SUPER !in s.pc && Added(s, s', x, u)
    ensures Locking(s') && Stamps(s') && Deleters(s')
  {
    forall y | y in s'.pc && y in s'.tc && s'.pc[y].Deleting?
      ensures s'.pc[y].u in s.rows && s'.pc[y].u != u
    {
    }
    forall v | v in s'.rows && Holding(s', s'.rows[v].xmax)
      ensures Owns(s', s'.rows[v].xmax, v)
    {
      assert v != u;
      assert Holding(s, s.rows[v].xmax);
    }
  }

  lemma InsertBases(m: Machine, m': Machine, x: Xid, u: Uid)
    requires Bases(m) && Database(m) && Added(m.s, m'.s, x, u)
    requires m'.h.base == m.h.base && m'.h.db == m.h.db
    ensures Bases(m') && Database(m')
  {
    var s, s' := m.s, m'.s;
    assert forall z, y :: z in s.tc ==> (Before(s', y, s'.tc[z]) <==> Before(s, y, s.tc[z]));
    assert forall v :: v in s.rows ==> s'.rows[v] == s.rows[v];
  }

  lemma InsertRecorded(m: Machine, m': Machine, x: Xid, u: Uid)
    requires Domains(m) && Recorded(m) && Added(m.s, m'.s, x, u)
    requires x == SUPER || x in m.s.pc
    requires m'.h == if x == SUPER then m.h else m.h.(ins := m.h.ins[x := m.h.ins[x] + {u}])
    ensures Recorded(m')
  {
    assert forall y :: Sound(m'.s, y) <==> Sound(m.s, y);
    assert SUPER !in m.s.pc;
  }

  lemma InsertAdds(m: Machine, x: Xid, u: Uid)
    requires Domains(m) && Control(m.s) && Enabled(m, OpInsert(x, u)) && !m.s.tc[x].err
    ensures Added(m.s, Insert(m.s, x, u), x, u)
  {
    assert x != SUPER ==> ControlAt(m.s, x);
  }

  lemma InsertKeeps(m: Machine, x: Xid, u: Uid)
    requires Inv(m) && Enabled(m, OpInsert(x, u))
    ensures Inv(Step(m, OpInsert(x, u)))
  {
    if !m.s.tc[x].err {
      var m' := Step(m, OpInsert(x, u));
      InsertAdds(m, x, u);
      InsertHistory(m, x, u);
      InsertLocking(m.s, m'.s, x, u);
      InsertBases(m, m', x, u);
      InsertRecorded(m, m', x, u);
      InsertRest(m, m', x, u);
    }
  }

  lemma InsertHistory(m: Machine, x: Xid, u: Uid)
    requires Domains(m) && Enabled(m, OpInsert(x, u)) && !m.s.tc[x].err
    ensures var h' := Step(m, OpInsert(x, u)).h;
      && (x == SUPER || x in m.s.pc)
      && h' == (if x == SUPER then m.h else m.h.(ins := m.h.ins[x := m.h.ins[x] + {u}]))
      && h'.base == m.h.base && h'.db == m.h.db && h'.del == m.h.del && h'.ins.Keys == m.h.ins.Keys
      && SUPER !in m.s.pc
  {
  }

  lemma InsertRest(m: Machine, m': Machine, x: Xid, u: Uid)
    requires Domains(m) && Control(m.s) && Snapshots(m.s) && Added(m.s, m'.s, x, u)
    requires m'.h.base == m.h.base && m'.h.del == m.h.del && m'.h.ins.Keys == m.h.ins.Keys
    ensures Domains(m') && Control(m'.s) && Snapshots(m'.s)
  {
    forall y | y in m'.s.pc
      ensures ControlAt(m'.s, y)
    {
      assert ControlAt(m.s, y);
    }
    assert forall y :: Live(m'.s, y) <==> Live(m.s, y);
    assert forall y :: Harmless(m.s, y) && y != SUPER ==> Harmless(m'.s, y);
  }

  /* ----- the first half of Delete ----- */

  /** `x` passes the visibility test and its request is granted or queued. */
  ghost predicate Asked(s: State, s': State, x: Xid, u: Uid) {
    && Ready(s, x) && s.tc[x].xid == x && !s.tc[x].err
    && u in s.rows && IsVisible(s, s.tc[x], s.rows[u])
    && s' == s.(lt := s'.lt, pc := s.pc[x := Deleting(u)])
    && R.Inv(s'.lt) && x !in s.lt.xwaitu
    && (forall v :: v in s.lt.u2x ==> v in s'.lt.u2x && s'.lt.u2x[v] == s.lt.u2x[v])
    && (forall y :: y != x ==> (y in s'.lt.xwaitu <==> y in s.lt.xwaitu))
    && (forall y :: y != x && y in s.lt.xwaitu ==> s'.lt.xwaitu[y] == s.lt.xwaitu[y])
    && (if x in s'.lt.xwaitu then s'.lt.xwaitu[x] == u else Owns(s', x, u))
    && (forall y :: IsCommitted(s', y) <==> IsCommitted(s, y))
    && (forall y :: y != x && y in s.pc ==> y in s'.pc && s'.pc[y] == s.pc[y])
  }

  lemma DeleteAsks(s: State, x: Xid, u: Uid)
    requires R.Inv(s.lt) && Ready(s, x) && s.tc[x].xid == x && !s.tc[x].err
    requires u in s.rows && IsVisible(s, s.tc[x], s.rows[u]) && x !in s.lt.xwaitu
    requires L.Add(s.lt, x, u).1 == L.Granted || L.Add(s.lt, x, u).1 == L.Waits
    ensures Asked(s, DeleteStart(s, x, u), x, u)
  {
    TableAsked(s.lt, x, u);
    DeleteShape(s, x, u);
    AskedBy(s, x, u, L.Add(s.lt, x, u).0);
  }

  /** How the table changes for a request that is granted or queued. */
  ghost predicate TableTakes(t: L.Table, t': L.Table, x: Xid, u: Uid) {
    && R.Inv(t')
    && (forall v :: v in t.u2x ==> v in t'.u2x && t'.u2x[v] == t.u2x[v])
    && (forall y :: y != x ==> (y in t'.xwaitu <==> y in t.xwaitu))
    && (forall y :: y != x && y in t.xwaitu ==> t'.xwaitu[y] == t.xwaitu[y])
    && (if x in t'.xwaitu then t'.xwaitu[x] == u else u in t'.u2x && t'.u2x[u] == x)
  }

  lemma AskedBy(s: State, x: Xid, u: Uid, t': L.Table)
    requires Ready(s, x) && s.tc[x].xid == x && !s.tc[x].err
    requires u in s.rows && IsVisible(s, s.tc[x], s.rows[u]) && x !in s.lt.xwaitu && TableTakes(s.lt, t', x, u)
    ensures Asked(s, s.(lt := t', pc := s.pc[x := Deleting(u)]), x, u)
  {
  }

  lemma DeleteShape(s: State, x: Xid, u: Uid)
    requires Ready(s, x) && s.tc[x].xid == x && !s.tc[x].err
    requires u in s.rows && IsVisible(s, s.tc[x], s.rows[u])
    requires L.Add(s.lt, x, u).1 == L.Granted || L.Add(s.lt, x, u).1 == L.Waits
    ensures DeleteStart(s, x, u) == s.(lt := L.Add(s.lt, x, u).0, pc := s.pc[x := Deleting(u)])
  {
  }

  lemma TableAsked(t: L.Table, x: Xid, u: Uid)
    requires R.Inv(t) && x !in t.xwaitu
    requires L.Add(t, x, u).1 == L.Granted || L.Add(t, x, u).1 == L.Waits
    ensures TableTakes(t, L.Add(t, x, u).0, x, u)
  {
    R.AddKeeps(t, x, u);
    R.AddFrame(t, x, u);
    AskOutcome(t, x, u);
  }

  lemma AskOutcome(t: L.Table, x: Xid, u: Uid)
    requires R.Inv(t) && x !in t.xwaitu
    requires L.Add(t, x, u).1 == L.Granted || L.Add(t, x, u).1 == L.Waits
    ensures var t' := L.Add(t, x, u).0;
      if x in t'.xwaitu then t'.xwaitu[x] == u else u in t'.u2x && t'.u2x[u] == x
  {
    R.AddAnswer(t, x, u);
  }

  lemma AskedLocking(s: State, s': State, x: Xid, u: Uid)
    requires Locking(s) && Asked(s, s', x, u)
    ensures Locking(s')
  {
    forall v | v in s'.rows && Holding(s', s'.rows[v].xmax)
      ensures Owns(s', s'.rows[v].xmax, v)
    {
      assert Holding(s, s.rows[v].xmax);
    }
  }

  lemma AskedDeleters(s: State, s': State, x: Xid, u: Uid)
    requires Deleters(s) && Asked(s, s', x, u)
    ensures Deleters(s')
  {
    forall y | y in s'.pc && y in s'.tc && s'.pc[y].Deleting?
      ensures var v := s'.pc[y].u;
        && v in s'.rows
        && (y in s'.lt.xwaitu || Owns(s', y, v))
        && (s'.rows[v].xmin == y || IsCommitted(s', s'.rows[v].xmin))
        && (s'.tc[y].level != 0 ==> !Before(s', s'.rows[v].xmax, s'.tc[y]))
    {
      if y != x {
        assert y in s.pc && y in s.tc && s.pc[y].Deleting?;
      }
    }
  }

  lemma AskedRest(m: Machine, s': State, x: Xid, u: Uid)
    requires Domains(m) && Control(m.s) && Snapshots(m.s) && Stamps(m.s) && Asked(m.s, s', x, u)
    ensures var m' := m.(s := s'); Domains(m') && Control(s') && Snapshots(s') && Stamps(s')
  {
    AskedControl(m.s, s', x, u);
    assert s'.pc.Keys == m.s.pc.Keys;
    assert forall y :: Live(s', y) <==> Live(m.s, y);
    assert forall y :: Harmless(s', y) <==> Harmless(m.s, y);
  }

  lemma AskedControl(s: State, s': State, x: Xid, u: Uid)
    requires Control(s) && Asked(s, s', x, u)
    ensures Control(s')
  {
    forall y | y in s'.pc
      ensures ControlAt(s', y)
    {
      assert ControlAt(s, y);
    }
  }

  lemma AskedRecorded(m: Machine, s': State, x: Xid, u: Uid)
    requires Recorded(m) && Asked(m.s, s', x, u)
    ensures Recorded(m.(s := s'))
  {
    assert forall y :: y in s'.pc <==> y in m.s.pc;
    assert forall y :: Sound(s', y) <==> Sound(m.s, y);
  }

  lemma AskedBases(m: Machine, s': State, x: Xid, u: Uid)
    requires Database(m) && Bases(m) && Asked(m.s, s', x, u)
    ensures Database(m.(s := s')) && Bases(m.(s := s'))
  {
    assert forall z, y :: z in m.s.tc ==> (Before(s', y, s'.tc[z]) <==> Before(m.s, y, m.s.tc[z]));
  }

  lemma AskedKeeps(m: Machine, s': State, x: Xid, u: Uid)
    requires Inv(m) && Asked(m.s, s', x, u)
    ensures Inv(m.(s := s'))
  {
    AskedLocking(m.s, s', x, u);
    AskedDeleters(m.s, s', x, u);
    AskedRest(m, s', x, u);
    AskedRecorded(m, s', x, u);
    AskedBases(m, s', x, u);
  }

  lemma ReadyDoesNotWait(m: Machine, x: Xid)
    requires Domains(m) && Control(m.s) && Locking(m.s) && Ready(m.s, x)
    ensures x !in m.s.lt.xwaitu && R.Inv(m.s.lt) && m.s.tc[x].xid == x && Tidy(m, x)
  {
  }

  lemma DeleteCases(s: State, x: Xid, u: Uid)
    requires R.Inv(s.lt) && Ready(s, x) && s.tc[x].xid == x && x !in s.lt.xwaitu
    ensures var s' := DeleteStart(s, x, u);
      s'.frozen || s' == s || (!s.tc[x].err && s' == Fail(s, x)) || Asked(s, s', x, u)
  {
    if !s.tc[x].err && u in s.rows && IsVisible(s, s.tc[x], s.rows[u]) {
      var r := L.Add(s.lt, x, u).1;
      if r == L.Refused {
        R.RefusedRestores(s.lt, x, u);
      } else if r != L.Stuck {
        DeleteAsks(s, x, u);
      }
    }
  }

  lemma DeleteKeeps(m: Machine, x: Xid, u: Uid)
    requires Inv(m) && Enabled(m, OpDelete(x, u))
    ensures Step(m, OpDelete(x, u)).s.frozen || Inv(Step(m, OpDelete(x, u)))
  {
    var s' := DeleteStart(m.s, x, u);
    ReadyDoesNotWait(m, x);
    DeleteCases(m.s, x, u);
    if Asked(m.s, s', x, u) {
      AskedKeeps(m, s', x, u);
    } else if !m.s.tc[x].err && s' == Fail(m.s, x) {
      FailKeeps(m, x);
    }
  }

  /* ----- the second half of Delete ----- */

  /** `x` stamps row `u`; `y` is the stamp it replaces. */
  ghost predicate Stamped(s: State, s': State, x: Xid, u: Uid, y: Xid) {
    && x in s.pc && x in s.tc && s.pc[x] == Deleting(u) && u in s.rows && y == s.rows[u].xmax
    && s.tc[x].xid == x && !s.tc[x].err && Owns(s, x, u)
    && !IsCommitted(s, x) && x != SUPER && x <= s.counter
    && (s.rows[u].xmin == x || IsCommitted(s, s.rows[u].xmin))
    && y != x && (y == SUPER || !IsCommitted(s, y)) && !Sound(s, y)
    && s' == s.(rows := s.rows[u := s.rows[u].(xmax := x)], pc := s.pc[x := Idle])
    && (forall z :: IsCommitted(s', z) <==> IsCommitted(s, z))
    && (forall z :: z != x && z in s.pc ==> z in s'.pc && s'.pc[z] == s.pc[z])
  }

  /** The heart of the matter: the replaced stamp belongs to nobody who committed or still could. */
  lemma WakeReplacesDeadStamp(m: Machine, x: Xid)
    requires Inv(m) && Enabled(m, OpWake(x)) && Disciplined(m.s, OpWake(x))
    requires WakeStamps(m.s, x, m.s.pc[x].u)
    ensures var u := m.s.pc[x].u; Stamped(m.s, DeleteWake(m.s, x, u), x, u, m.s.rows[u].xmax)
  {
    var s := m.s;
    var u := s.pc[x].u;
    var y := s.rows[u].xmax;
    assert ControlAt(s, x);
    assert Owns(s, x, u);
    if y in s.pc {
      assert ControlAt(s, y);
      // a holder would own the row's lock, a committed one would have been invisible or a skip
      assert !Holding(s, y);
      assert !IsCommitted(s, y);
    }
  }

  lemma StampedLocking(s: State, s': State, x: Xid, u: Uid, y: Xid)
    requires Locking(s) && Stamps(s) && Stamped(s, s', x, u, y)
    ensures x !in s.lt.xwaitu ==> Locking(s')
    ensures Stamps(s')
  {
    forall v | v in s'.rows && Holding(s', s'.rows[v].xmax)
      ensures Owns(s', s'.rows[v].xmax, v)
    {
      if v != u {
        assert Holding(s, s.rows[v].xmax);
      }
    }
  }

  lemma StampedDeleters(s: State, s': State, x: Xid, u: Uid, y: Xid)
    requires Deleters(s) && Stamped(s, s', x, u, y)
    ensures Deleters(s')
  {
    forall z | z in s'.pc && z in s'.tc && s'.pc[z].Deleting?
      ensures var v := s'.pc[z].u;
        && v in s'.rows
        && (z in s'.lt.xwaitu || Owns(s', z, v))
        && (s'.rows[v].xmin == z || IsCommitted(s', s'.rows[v].xmin))
        && (s'.tc[z].level != 0 ==> !Before(s', s'.rows[v].xmax, s'.tc[z]))
    {
      assert z in s.pc && z in s.tc && s.pc[z].Deleting?;
    }
  }

  lemma StampedRest(m: Machine, s': State, x: Xid, u: Uid, y: Xid, h': History)
    requires Domains(m) && Control(m.s) && Snapshots(m.s) && Stamped(m.s, s', x, u, y)
    requires h'.base == m.h.base && h'.ins == m.h.ins && h'.del.Keys == m.h.del.Keys
    ensures Domains(Machine(s', h')) && Control(s') && Snapshots(s')
  {
    assert s'.pc.Keys == m.s.pc.Keys;
    forall z | z in s'.pc
      ensures ControlAt(s', z)
    {
      assert ControlAt(m.s, z);
    }
    assert forall z :: Live(s', z) <==> Live(m.s, z);
    forall z | Live(m.s, z) && Harmless(m.s, z)
      ensures Harmless(s', z)
    {
      assert Sound(m.s, z);
    }
  }

  lemma StampedRecorded(m: Machine, s': State, x: Xid, u: Uid, y: Xid)
    requires Domains(m) && Recorded(m) && Stamped(m.s, s', x, u, y)
    ensures Recorded(Machine(s', m.h.(del := m.h.del[x := m.h.del[x] + {u}])))
  {
    var s := m.s;
    assert forall z :: Sound(s', z) <==> Sound(s, z);
    assert forall v :: v in s.rows && v != u ==> s'.rows[v] == s.rows[v];
  }

  lemma StampedBases(m: Machine, s': State, x: Xid, u: Uid, y: Xid, h': History)
    requires Database(m) && Bases(m) && Stamped(m.s, s', x, u, y)
    requires h'.base == m.h.base && h'.db == m.h.db
    ensures Database(Machine(s', h')) && Bases(Machine(s', h'))
  {
    var s := m.s;
    assert forall z, w :: z in s.tc ==> (Before(s', w, s'.tc[z]) <==> Before(s, w, s.tc[z]));
    assert forall v :: v in s.rows && v != u ==> s'.rows[v] == s.rows[v];
  }

  lemma WakeKeeps(m: Machine, x: Xid)
    requires Inv(m) && Enabled(m, OpWake(x)) && Disciplined(m.s, OpWake(x))
    ensures Inv(Step(m, OpWake(x)))
  {
    var s, m' := m.s, Step(m, OpWake(x));
    var u := s.pc[x].u;
    if WakeStamps(s, x, u) {
      var y := s.rows[u].xmax;
      WakeReplacesDeadStamp(m, x);
      StampedLocking(s, m'.s, x, u, y);
      StampedDeleters(s, m'.s, x, u, y);
      StampedRest(m, m'.s, x, u, y, m'.h);
      StampedRecorded(m, m'.s, x, u, y);
      StampedBases(m, m'.s, x, u, y, m'.h);
    } else if s.tc[x].err || s.rows[u].xmax == x {
      WakeReturns(m, x);
    } else {
      FailKeeps(m, x);
    }
  }

  lemma WakeReturns(m: Machine, x: Xid)
    requires Inv(m) && Enabled(m, OpWake(x))
    ensures Inv(m.(s := m.s.(pc := m.s.pc[x := Idle])))
  {
    var s' := m.s.(pc := m.s.pc[x := Idle]);
    WakeDemotes(m.s, x);
    StaysTidy(m, s', x);
    StepKeeps(m, m.(s := s'), x);
  }

  lemma WakeDemotes(s: State, x: Xid)
    requires x in s.pc && ControlAt(s, x) && x !in s.lt.xwaitu && x in s.tc && s.pc[x].Deleting? && R.Inv(s.lt)
    ensures var s' := s.(pc := s.pc[x := Idle]); Steps(s, s', x) && ControlAt(s', x)
  {
  }

  /* ----- the status is marked ----- */

  ghost predicate Marked(s: State, s': State, x: Xid) {
    && x in s.pc && s.pc[x] == Released && x !in s.tc && x != SUPER && !IsCommitted(s, x)
    && s' == CommitMark(s, x)
    && (forall y :: y != x ==> (IsCommitted(s', y) <==> IsCommitted(s, y)))
    && IsCommitted(s', x)
    && (forall y :: y != x && y in s.pc ==> y in s'.pc && s'.pc[y] == s.pc[y])
  }

  /** A commit changes nothing about which rows were there when a running transaction began. */
  lemma MarkedBefore(s: State, s': State, x: Xid)
    requires Snapshots(s) && Marked(s, s', x)
    ensures forall z, u :: z in s.tc && s.tc[z].level != 0 && s.tc[z].xid == z && u in s.rows ==>
              (Past(s', s.rows[u], s.tc[z]) <==> Past(s, s.rows[u], s.tc[z]))
  {
    assert Live(s, x);
    forall z, u | z in s.tc && s.tc[z].level != 0 && s.tc[z].xid == z && u in s.rows
      ensures Past(s', s.rows[u], s.tc[z]) <==> Past(s, s.rows[u], s.tc[z])
    {
      if 1 <= x < z && Harmless(s, x) {
        assert !Touched(s.rows[u], x);
      }
    }
  }

  lemma MarkedLocking(s: State, s': State, x: Xid)
    requires Locking(s) && Stamps(s) && Marked(s, s', x)
    ensures Locking(s') && Stamps(s')
  {
    forall v | v in s'.rows && Holding(s', s'.rows[v].xmax)
      ensures Owns(s', s'.rows[v].xmax, v)
    {
      assert Holding(s, s.rows[v].xmax);
    }
  }

  lemma MarkedDeleters(s: State, s': State, x: Xid)
    requires Control(s) && Deleters(s) && Snapshots(s) && Marked(s, s', x)
    requires forall z :: z in s.tc ==> s.tc[z].xid == z
    ensures Deleters(s')
  {
    assert Live(s, x);
    forall z | z in s'.pc && z in s'.tc && s'.pc[z].Deleting?
      ensures var v := s'.pc[z].u;
        && v in s'.rows
        && (z in s'.lt.xwaitu || Owns(s', z, v))
        && (s'.rows[v].xmin == z || IsCommitted(s', s'.rows[v].xmin))
        && (s'.tc[z].level != 0 ==> !Before(s', s'.rows[v].xmax, s'.tc[z]))
    {
      assert ControlAt(s, z);
      assert z in s.pc && z in s.tc && s.pc[z].Deleting?;
      if 1 <= x < z && Harmless(s, x) {
        assert !Touched(s.rows[s.pc[z].u], x);
      }
    }
  }

  lemma MarkedRest(m: Machine, s': State, x: Xid, h': History)
    requires Domains(m) && Control(m.s) && Snapshots(m.s) && Marked(m.s, s', x)
    requires h' == m.h.(db := h'.db)
    ensures Domains(Machine(s', h')) && Control(s') && Snapshots(s')
  {
    assert s'.pc.Keys == m.s.pc.Keys;
    forall z | z in s'.pc
      ensures ControlAt(s', z)
    {
      assert ControlAt(m.s, z);
    }
    assert forall z :: Live(s', z) ==> Live(m.s, z);
    assert forall z :: Harmless(s', z) <==> Harmless(m.s, z);
  }

  lemma MarkedRecorded(m: Machine, s': State, x: Xid, h': History)
    requires Recorded(m) && Marked(m.s, s', x) && h' == m.h.(db := h'.db)
    ensures Recorded(Machine(s', h'))
  {
    assert forall z :: Sound(s', z) <==> Sound(m.s, z);
  }

  /** Marking the status is the moment the abstract database takes over the transaction's work. */
  lemma MarkedDatabase(m: Machine, s': State, x: Xid)
    requires Domains(m) && Stamps(m.s) && Recorded(m) && Database(m) && Marked(m.s, s', x)
    ensures Database(Machine(s', m.h.(db := (m.h.db + m.h.ins[x]) - m.h.del[x])))
  {
    var s, h := m.s, m.h;
    assert Sound(s, x);
    var db' := (h.db + h.ins[x]) - h.del[x];
    forall u
      ensures u in db' <==> u in s'.rows && LiveRow(s', s'.rows[u])
    {
      if u in s.rows {
        assert u in h.ins[x] <==> s.rows[u].xmin == x;
        assert u in h.del[x] <==> s.rows[u].xmax == x;
      }
    }
  }

  lemma MarkedBases(m: Machine, s': State, x: Xid, h': History)
    requires Domains(m) && Snapshots(m.s) && Bases(m) && Marked(m.s, s', x)
    requires h'.base == m.h.base
    ensures Bases(Machine(s', h'))
  {
    MarkedBefore(m.s, s', x);
  }

  lemma MarkMarks(m: Machine, x: Xid)
    requires Domains(m) && Control(m.s) && x in m.s.pc && m.s.pc[x] == Released
    ensures Marked(m.s, CommitMark(m.s, x), x)
  {
    assert ControlAt(m.s, x);
  }

  lemma MarkKeeps(m: Machine, x: Xid)
    requires Inv(m) && Enabled(m, OpMark(x))
    ensures Inv(Step(m, OpMark(x)))
  {
    var m' := Step(m, OpMark(x));
    MarkMarks(m, x);
    MarkedLocking(m.s, m'.s, x);
    MarkedDeleters(m.s, m'.s, x);
    MarkedRest(m, m'.s, x, m'.h);
    MarkedRecorded(m, m'.s, x, m'.h);
    MarkedDatabase(m, m'.s, x);
    MarkedBases(m, m'.s, x, m'.h);
  }

  /* ----- runs ----- */

  lemma StepInv(m: Machine, op: Op)
    requires Inv(m) && Enabled(m, op) && Disciplined(m.s, op)
    ensures Step(m, op).s.frozen || Inv(Step(m, op))
  {
    match op {
      case OpBegin(level) => BeginKeeps(m, level);
      case OpInsert(x, u) => InsertKeeps(m, x, u);
      case OpDelete(x, u) => DeleteKeeps(m, x, u);
      case OpWake(x) => WakeKeeps(m, x);
      case OpLeave(x) => LeaveKeeps(m, x);
      case OpRelease(x) => ReleaseKeeps(m, x);
      case OpMark(x) => MarkKeeps(m, x);
      case OpAbort(x) => AbortKeeps(m, x);
      case OpFinish(x) => FinishKeeps(m, x);
    }
  }

  /** The machine after `ops`, if every step was possible (and, on request, disciplined). */
  ghost function Run(ops: seq<Op>, disciplined: bool): Option<Machine>
    decreases |ops|
  {
    if ops == [] then Some(START)
    else
      var n := |ops| - 1;
      match Run(ops[..n], disciplined)
      case None => None
      case Some(m) =>
        if Enabled(m, ops[n]) && (disciplined ==> Disciplined(m.s, ops[n])) then Some(Step(m, ops[n])) else None
  }

  lemma {:induction false} RunInv(ops: seq<Op>)
    requires Run(ops, true).Some? && !Run(ops, true).value.s.frozen
    ensures Inv(Run(ops, true).value)
    decreases |ops|
  {
    if ops == [] {
      StartInv();
    } else {
      var n := |ops| - 1;
      RunInv(ops[..n]);
      StepInv(Run(ops[..n], true).value, ops[n]);
    }
  }

  /**
   Snapshot isolation: at every moment of every disciplined run, a repeatable-read transaction that
   has not failed sees exactly the rows of the database it began with and its own inserts, less its
   own deletes.
   */
  lemma SnapshotIsolation(ops: seq<Op>, x: Xid, u: Uid)
    requires Run(ops, true).Some? && !Run(ops, true).value.s.frozen
    requires var s := Run(ops, true).value.s;
      && x in s.tc && x != SUPER && s.tc[x].level != 0 && !s.tc[x].err
      && u in s.rows && s.rows[u].xmin != SUPER
    ensures var m := Run(ops, true).value;
      && x in m.h.base && x in m.h.ins && x in m.h.del
      && (IsVisible(m.s, m.s.tc[x], m.s.rows[u]) <==> u in (m.h.base[x] + m.h.ins[x]) - m.h.del[x])
  {
    RunInv(ops);
    var m := Run(ops, true).value;
    VisibleIsSnapshot(m, x, u);
  }

  lemma VisibleIsSnapshot(m: Machine, x: Xid, u: Uid)
    requires Domains(m) && Control(m.s) && Stamps(m.s) && Recorded(m) && Bases(m)
    requires x in m.s.tc && x != SUPER && m.s.tc[x].level != 0 && !m.s.tc[x].err
    requires u in m.s.rows && m.s.rows[u].xmin != SUPER
    ensures x in m.h.base && x in m.h.ins && x in m.h.del
    ensures IsVisible(m.s, m.s.tc[x], m.s.rows[u]) <==> u in (m.h.base[x] + m.h.ins[x]) - m.h.del[x]
  {
    assert ControlAt(m.s, x);
    assert Sound(m.s, x);
    assert u in m.h.del[x] <==> m.s.rows[u].xmax == x;
    assert u in m.h.ins[x] <==> m.s.rows[u].xmin == x;
  }

  /** The base of a transaction is the database of its `Begin`, for good. */
  lemma {:induction false} BaseIsDatabaseAtBegin(ops: seq<Op>, i: nat)
    requires Run(ops, true).Some? && i < |ops| && ops[i].OpBegin?
    ensures Run(ops[..i], true).Some?
    ensures BegunFrom(Run(ops[..i], true).value, Run(ops, true).value)
    decreases |ops|
  {
    var n := |ops| - 1;
    var m := RunBack(ops);
    if i == n {
      BeginTakesDatabase(m, ops[n].level);
    } else {
      assert ops[..n][..i] == ops[..i];
      BaseIsDatabaseAtBegin(ops[..n], i);
      BaseStays(Run(ops[..i], true).value, m, ops[n]);
    }
  }

  lemma RunBack(ops: seq<Op>) returns (m: Machine)
    requires Run(ops, true).Some? && ops != []
    ensures Run(ops[..|ops| - 1], true) == Some(m) && Enabled(m, ops[|ops| - 1])
    ensures Run(ops, true).value == Step(m, ops[|ops| - 1])
    ensures Domains(m) && Control(m.s) && Database(m)
  {
    m := Run(ops[..|ops| - 1], true).value;
    RunInv(ops[..|ops| - 1]);
  }

  /** In `m`, the transaction begun in `m0` has the committed rows of `m0` as its base. */
  ghost predicate BegunFrom(m0: Machine, m: Machine) {
    var x := m0.s.counter + 1;
    x in m.h.base && m.h.base[x] == set u | u in m0.s.rows && LiveRow(m0.s, m0.s.rows[u])
  }

  lemma BeginTakesDatabase(m: Machine, level: nat)
    requires Database(m) && Enabled(m, OpBegin(level))
    ensures BegunFrom(m, Step(m, OpBegin(level)))
  {
    assert m.h.db == set u | u in m.s.rows && LiveRow(m.s, m.s.rows[u]);
  }

  lemma BaseStays(m0: Machine, m: Machine, op: Op)
    requires Domains(m) && Enabled(m, op) && BegunFrom(m0, m)
    ensures BegunFrom(m0, Step(m, op))
  {
  }

  /** A read-committed transaction sees the database of the moment and its own inserts: no dirty read. */
  lemma ReadCommittedSeesDatabase(ops: seq<Op>, x: Xid, u: Uid)
    requires Run(ops, true).Some? && !Run(ops, true).value.s.frozen
    requires var s := Run(ops, true).value.s;
      && x in s.tc && x != SUPER && s.tc[x].level == 0 && !s.tc[x].err
      && u in s.rows && s.rows[u].xmin != SUPER
    ensures var m := Run(ops, true).value;
      && x in m.h.ins && x in m.h.del
      && (IsVisible(m.s, m.s.tc[x], m.s.rows[u]) <==> u in (m.h.db + m.h.ins[x]) - m.h.del[x])
  {
    RunInv(ops);
    var m := Run(ops, true).value;
    assert ControlAt(m.s, x);
    assert Sound(m.s, x);
    assert u in m.h.del[x] <==> m.s.rows[u].xmax == x;
    assert u in m.h.ins[x] <==> m.s.rows[u].xmin == x;
  }

  /** No lost update: two committed transactions never both deleted the same row. */
  lemma NoLostUpdate(ops: seq<Op>, x: Xid, y: Xid)
    requires Run(ops, true).Some? && !Run(ops, true).value.s.frozen
    requires x != SUPER && y != SUPER && x != y
    requires IsCommitted(Run(ops, true).value.s, x) && IsCommitted(Run(ops, true).value.s, y)
    ensures var h := Run(ops, true).value.h;
      x in h.del && y in h.del && h.del[x] !! h.del[y]
  {
    RunInv(ops);
    DisjointDeletes(Run(ops, true).value, x, y);
  }

  lemma DisjointDeletes(m: Machine, x: Xid, y: Xid)
    requires Domains(m) && Recorded(m)
    requires x != SUPER && y != SUPER && x != y && IsCommitted(m.s, x) && IsCommitted(m.s, y)
    ensures x in m.h.del && y in m.h.del && m.h.del[x] !! m.h.del[y]
  {
    assert x in m.s.pc && y in m.s.pc;
    assert Sound(m.s, x) && Sound(m.s, y);
    assert forall u :: u in m.h.del[x] ==> m.s.rows[u].xmax == x;
    assert forall u :: u in m.h.del[y] ==> m.s.rows[u].xmax == y;
  }

  ghost predicate StampedFor(m: Machine, u: Uid, y: Xid) {
    u in m.s.rows && m.s.rows[u].xmax == y && y != SUPER && IsCommitted(m.s, y)
  }

  lemma CommittedStampStep(m: Machine, op: Op, u: Uid, y: Xid)
    requires Inv(m) && Enabled(m, op) && Disciplined(m.s, op) && StampedFor(m, u, y)
    ensures StampedFor(Step(m, op), u, y)
  {
    if op.OpWake? {
      if WakeStamps(m.s, op.x, m.s.pc[op.x].u) {
        WakeReplacesDeadStamp(m, op.x);
      }
    } else {
      OtherStepsKeepStamp(m, op, u, y);
    }
  }

  lemma OtherStepsKeepStamp(m: Machine, op: Op, u: Uid, y: Xid)
    requires Domains(m) && Control(m.s) && Enabled(m, op) && !op.OpWake? && StampedFor(m, u, y)
    ensures StampedFor(Step(m, op), u, y)
  {
    assert op.OpFinish? ==> ControlAt(m.s, op.x);
  }

  /** Once a row's XMAX is a committed xid it never changes. */
  lemma {:induction false} CommittedStampIsFinal(ops: seq<Op>, i: nat, u: Uid, y: Xid)
    requires Run(ops, true).Some? && i <= |ops|
    requires Run(ops[..i], true).Some? && StampedFor(Run(ops[..i], true).value, u, y)
    ensures StampedFor(Run(ops, true).value, u, y)
    decreases |ops|
  {
    if i == |ops| {
      assert ops[..i] == ops;
    } else {
      var n := |ops| - 1;
      assert ops[..n][..i] == ops[..i];
      var m := Run(ops[..n], true).value;
      CommittedStampIsFinal(ops[..n], i, u, y);
      RunInv(ops[..n]);
      assert Run(ops, true).value == Step(m, ops[n]);
      CommittedStampStep(m, ops[n], u, y);
    }
  }

  /* ----- what a Delete comes to ----- */

  /** The transaction begun in `m0` keeps its level and its snapshot, and what was committed stays so. */
  ghost predicate Began(m0: Machine, level: nat, m: Machine) {
    var x := m0.s.counter + 1;
    && x <= m.s.counter
    && (x in m.s.tc ==> m.s.tc[x].level == level && m.s.tc[x].snapshot == if level == 0 then {} else m0.s.tc.Keys)
    && (forall y :: IsCommitted(m0.s, y) ==> IsCommitted(m.s, y))
  }

  lemma BeganHere(m: Machine, level: nat)
    requires Domains(m) && Enabled(m, OpBegin(level))
    ensures Began(m, level, Step(m, OpBegin(level)))
  {
  }

  lemma BeganStays(m0: Machine, level: nat, m: Machine, op: Op)
    requires Began(m0, level, m) && Domains(m) && Control(m.s) && Enabled(m, op)
    ensures Began(m0, level, Step(m, op))
  {
    var m' := Step(m, op);
    assert forall y :: IsCommitted(m.s, y) ==> IsCommitted(m'.s, y) by {
      CommitsStay(m, op);
    }
    assert SameTerms(m.s, m'.s, m0.s.counter + 1) by {
      TermsStay(m, op, m0.s.counter + 1);
    }
    BeganFrame(m0, level, m, m');
  }

  lemma BeganFrame(m0: Machine, level: nat, m: Machine, m': Machine)
    requires Began(m0, level, m) && (forall y :: IsCommitted(m.s, y) ==> IsCommitted(m'.s, y))
    requires SameTerms(m.s, m'.s, m0.s.counter + 1)
    ensures Began(m0, level, m')
  {
  }

  predicate SameTerms(s: State, s': State, x: Xid) {
    && s.counter <= s'.counter
    && (x in s'.tc ==> x in s.tc && s'.tc[x].level == s.tc[x].level && s'.tc[x].snapshot == s.tc[x].snapshot)
  }

  lemma CommitsStay(m: Machine, op: Op)
    requires Domains(m) && Control(m.s) && Enabled(m, op)
    ensures forall y :: IsCommitted(m.s, y) ==> IsCommitted(Step(m, op).s, y)
  {
    assert op.OpFinish? ==> ControlAt(m.s, op.x);
  }

  lemma TermsStay(m: Machine, op: Op, x: Xid)
    requires Enabled(m, op) && x <= m.s.counter
    ensures SameTerms(m.s, Step(m, op).s, x)
  {
    if op.OpDelete? {
      DeleteTerms(m.s, op.x, op.u, x);
    }
  }

  lemma DeleteTerms(s: State, x: Xid, u: Uid, z: Xid)
    requires x in s.tc
    ensures SameTerms(s, DeleteStart(s, x, u), z)
  {
  }

  lemma {:induction false} BeganOverRun(ops: seq<Op>, i: nat)
    requires Run(ops, true).Some? && i < |ops| && ops[i].OpBegin?
    ensures Run(ops[..i], true).Some? && Began(Run(ops[..i], true).value, ops[i].level, Run(ops, true).value)
    decreases |ops|
  {
    var n := |ops| - 1;
    var m := RunBack(ops);
    if i == n {
      BeganHere(m, ops[n].level);
    } else {
      assert ops[..n][..i] == ops[..i];
      BeganOverRun(ops[..n], i);
      BeganStays(Run(ops[..i], true).value, ops[i].level, m, ops[n]);
    }
  }

  /** Some transaction that had not committed in `m0` has by now, and has deleted `u`. */
  ghost predicate DeletedSince(m0: Machine, m: Machine, u: Uid) {
    exists y :: y != SUPER && !IsCommitted(m0.s, y) && IsCommitted(m.s, y) && y in m.h.del && u in m.h.del[y]
  }

  /**
   When a Delete stamps: at the moment transaction `x` has the lock on a row it has not deleted itself, a
   repeatable-read transaction stamps it if and only if no transaction that had not committed when
   `x` began has since committed a delete of that row; otherwise it fails.  One that reads committed
   always stamps it.
   */
  lemma DeleteStampsIff(ops: seq<Op>, i: nat, x: Xid)
    requires Run(ops, true).Some? && i < |ops| && ops[i].OpBegin?
    requires Run(ops[..i], true).Some? && x == Run(ops[..i], true).value.s.counter + 1
    requires var m := Run(ops, true).value;
      Enabled(m, OpWake(x)) && x in m.h.del && m.s.pc[x].u !in m.h.del[x]
    ensures var m0, m := Run(ops[..i], true).value, Run(ops, true).value;
      var u, m' := m.s.pc[x].u, Step(m, OpWake(x));
      var stamps := ops[i].level == 0 || !DeletedSince(m0, m, u);
      && (WakeStamps(m.s, x, u) <==> stamps)
      && u in m'.s.rows && (m'.s.rows[u].xmax == x <==> stamps)
      && x in m'.s.tc && (m'.s.tc[x].err <==> !stamps)
      && x in m'.s.pc && m'.s.pc[x] == if stamps then Idle else Aborting(true)
  {
    RunInv(ops);
    BeganOverRun(ops, i);
    var m0, m := Run(ops[..i], true).value, Run(ops, true).value;
    RunInvBefore(ops, i);
    StampsIff(m, x);
    if ops[i].level != 0 {
      NoneBefore(m0, m, x);
    }
  }

  lemma RunInvBefore(ops: seq<Op>, i: nat)
    requires Run(ops, true).Some? && i < |ops| && Run(ops[..i], true).Some?
    ensures Domains(Run(ops[..i], true).value) && Control(Run(ops[..i], true).value.s)
  {
    RunEnabled(ops, i);
    RunInv(ops[..i]);
  }

  /** A run that goes on is not stuck. */
  lemma {:induction false} RunEnabled(ops: seq<Op>, i: nat)
    requires Run(ops, true).Some? && i < |ops|
    ensures Run(ops[..i], true).Some? && !Run(ops[..i], true).value.s.frozen
    decreases |ops|
  {
    var n := |ops| - 1;
    if i < n {
      assert ops[..n][..i] == ops[..i];
      RunEnabled(ops[..n], i);
    }
  }

  /** Some committed transaction has deleted `u`. */
  ghost predicate DeletedByNow(m: Machine, u: Uid) {
    exists y :: y != SUPER && IsCommitted(m.s, y) && y in m.h.del && u in m.h.del[y]
  }

  lemma StampsIff(m: Machine, x: Xid)
    requires Domains(m) && Control(m.s) && Deleters(m.s) && Recorded(m) && Enabled(m, OpWake(x))
    requires x in m.h.del && m.s.pc[x].u !in m.h.del[x]
    ensures var u, m' := m.s.pc[x].u, Step(m, OpWake(x));
      var stamps := m.s.tc[x].level == 0 || !DeletedByNow(m, u);
      && (WakeStamps(m.s, x, u) <==> stamps)
      && u in m'.s.rows && (m'.s.rows[u].xmax == x <==> stamps)
      && x in m'.s.tc && (m'.s.tc[x].err <==> !stamps)
      && x in m'.s.pc && m'.s.pc[x] == if stamps then Idle else Aborting(true)
  {
    var u := m.s.pc[x].u;
    assert ControlAt(m.s, x) && Sound(m.s, x);
    assert m.s.rows[u].xmax != x;
    StampedByNow(m, u);
    SkipIff(m, x, u);
  }

  /** The stamp of a row that a committed transaction has deleted is that transaction's. */
  lemma StampedByNow(m: Machine, u: Uid)
    requires Domains(m) && Recorded(m) && u in m.s.rows
    ensures DeletedByNow(m, u) <==> m.s.rows[u].xmax != SUPER && IsCommitted(m.s, m.s.rows[u].xmax)
  {
    var y := m.s.rows[u].xmax;
    if y != SUPER && IsCommitted(m.s, y) {
      assert Sound(m.s, y) && u in m.h.del[y];
    }
    forall z | z != SUPER && IsCommitted(m.s, z) && z in m.h.del && u in m.h.del[z]
      ensures z == y
    {
      assert Sound(m.s, z);
    }
  }

  lemma SkipIff(m: Machine, x: Xid, u: Uid)
    requires Domains(m) && Control(m.s) && Deleters(m.s) && x in m.s.tc && x in m.s.pc && m.s.pc[x] == Deleting(u)
    requires u in m.s.rows
    ensures IsVersionSkip(m.s, m.s.tc[x], m.s.rows[u]) <==>
      m.s.tc[x].level != 0 && m.s.rows[u].xmax != SUPER && IsCommitted(m.s, m.s.rows[u].xmax)
  {
    assert ControlAt(m.s, x);
    assert m.s.tc[x].level != 0 ==> !Before(m.s, m.s.rows[u].xmax, m.s.tc[x]);
  }

  /** Nobody who had committed at the Begin can have deleted a row that is being deleted now. */
  lemma NoneBefore(m0: Machine, m: Machine, x: Xid)
    requires Domains(m0) && Control(m0.s) && Domains(m) && Control(m.s) && Deleters(m.s) && Recorded(m)
    requires x == m0.s.counter + 1 && Enabled(m, OpWake(x)) && m.s.tc[x].level != 0
    requires Began(m0, m.s.tc[x].level, m)
    ensures DeletedByNow(m, m.s.pc[x].u) <==> DeletedSince(m0, m, m.s.pc[x].u)
  {
    var u := m.s.pc[x].u;
    StampedByNow(m, u);
    var y := m.s.rows[u].xmax;
    CommittedIsBefore(m0, m, x);
    assert ControlAt(m.s, x);
    assert !Before(m.s, y, m.s.tc[x]);
    if y != SUPER && IsCommitted(m.s, y) {
      assert Sound(m.s, y) && u in m.h.del[y];
    }
  }

  lemma CommittedIsBefore(m0: Machine, m: Machine, x: Xid)
    requires Domains(m0) && Control(m0.s) && Domains(m)
    requires x == m0.s.counter + 1 && x in m.s.tc && m.s.tc[x].level != 0 && Began(m0, m.s.tc[x].level, m)
    ensures forall y :: y != SUPER && IsCommitted(m0.s, y) ==> Before(m.s, y, m.s.tc[x])
  {
    forall y | y != SUPER && IsCommitted(m0.s, y) ensures Before(m.s, y, m.s.tc[x]) {
      assert ControlAt(m0.s, y);
    }
  }

  /**
   A Delete that nobody stands in the way of: if the row is visible and its lock is free or the caller's
   own, it need not wait; it stamps the row, which is then gone for its transaction, if and only if
   the caller reads committed or no committed transaction has deleted the row.
   */
  lemma LoneDelete(m: Machine, x: Xid, u: Uid)
    requires Inv(m) && !m.s.frozen && Ready(m.s, x) && !m.s.tc[x].err && Sees(m, x, u)
    requires u !in m.s.lt.u2x || R.HoldsDirectly(m.s.lt, x, u)
    ensures Enabled(m, OpDelete(x, u)) && Enabled(Step(m, OpDelete(x, u)), OpWake(x))
    ensures var m1 := Step(m, OpDelete(x, u));
      var m2 := Step(m1, OpWake(x));
      var stamps := m.s.tc[x].level == 0 || !DeletedByNow(m, u);
      && m1.s.pc[x] == Deleting(u) && m1.h == m.h && m1.s.rows == m.s.rows
      && (WakeStamps(m1.s, x, u) <==> stamps)
      && (stamps ==> u in m2.s.rows && m2.s.rows[u].xmax == x && !Sees(m2, x, u) && x in m2.h.del && u in m2.h.del[x])
  {
    ReadyDoesNotWait(m, x);
    R.AddAnswer(m.s.lt, x, u);
    DeleteKeeps(m, x, u);
    var m1 := Step(m, OpDelete(x, u));
    NotYetDeleted(m, x, u);
    StampsIff(m1, x);
  }

  /**
   The first half of a Delete.  Nothing happens if the row cannot be seen.  Otherwise the transaction
   has the lock, or it waits for it, exactly if that blocks nobody for good who holds a lock directly;
   or else it fails, or the call hangs behind somebody who waits for the row already.
   */
  lemma DeleteAnswers(m: Machine, x: Xid, u: Uid)
    requires Domains(m) && Control(m.s) && Locking(m.s) && Enabled(m, OpDelete(x, u)) && !m.s.tc[x].err
    ensures Step(m, OpDelete(x, u)).h == m.h
    ensures if Sees(m, x, u) then Answered(m.s, Step(m, OpDelete(x, u)).s, x, u) else Step(m, OpDelete(x, u)) == m
  {
    ReadyDoesNotWait(m, x);
    if Sees(m, x, u) {
      AnswersAsked(m.s, x, u);
    }
  }

  ghost predicate Answered(s: State, s': State, x: Xid, u: Uid) {
    var t, t' := s.lt, s'.lt;
    if u !in t.u2x || R.HoldsDirectly(t, x, u) then
      x in s'.pc && s'.pc[x] == Deleting(u) && R.Owns(t', x, u) && x !in t'.xwaitu
    else if !R.WouldClose(t, x, t.u2x[u]) then
      x in s'.pc && s'.pc[x] == Deleting(u) && x in t'.xwaitu && t'.xwaitu[x] == u
    else if u !in t.wait then
      x in s'.tc && s'.tc[x].err && x in s'.pc && s'.pc[x] == Aborting(true) && t' == t
    else s'.frozen
  }

  lemma AnswersAsked(s: State, x: Xid, u: Uid)
    requires R.Inv(s.lt) && x !in s.lt.xwaitu && x in s.tc && !s.tc[x].err && u in s.rows && IsVisible(s, s.tc[x], s.rows[u])
    ensures Answered(s, DeleteStart(s, x, u), x, u)
  {
    AddAnswers(s.lt, x, u);
  }

  lemma AddAnswers(t: L.Table, x: Xid, u: Uid)
    requires R.Inv(t) && x !in t.xwaitu
    ensures var (t', r) := L.Add(t, x, u);
      if u !in t.u2x || R.HoldsDirectly(t, x, u) then r == L.Granted && R.Owns(t', x, u) && x !in t'.xwaitu
      else if !R.WouldClose(t, x, t.u2x[u]) then r == L.Waits && x in t'.xwaitu && t'.xwaitu[x] == u
      else if u !in t.wait then r == L.Refused && t' == t
      else r == L.Stuck
  {
    R.AddAnswer(t, x, u);
    if L.Add(t, x, u).1 == L.Refused {
      R.RefusedRestores(t, x, u);
    }
  }

  lemma NotYetDeleted(m: Machine, x: Xid, u: Uid)
    requires Domains(m) && Control(m.s) && Recorded(m) && x in m.s.tc && x in m.s.pc && !m.s.tc[x].err && Sees(m, x, u)
    ensures x in m.h.del && u !in m.h.del[x]
  {
    assert Sound(m.s, x);
  }

  /* ----- a transaction that ends frees its locks ----- */

  /** The part of a commit or an abort that frees the locks of `x`. */
  predicate Frees(op: Op, x: Xid) {
    op == OpFinish(x) || op == OpRelease(x)
  }

  /**
   After it `x` holds nothing directly: every lock it held so goes to the head of its queue, who may
   then resume, or is free; every other lock stays where it is.
   */
  lemma EndFreesLocks(m: Machine, op: Op, x: Xid)
    requires Inv(m) && Enabled(m, op) && Frees(op, x)
    ensures var m' := Step(m, op);
      var t, t' := m.s.lt, m'.s.lt;
      && x !in t'.x2u
      && (forall u :: R.HoldsDirectly(t, x, u) ==>
            if u in t.wait then
              t.wait[u] != [] && t.wait[u][0] != x && Owns(m'.s, t.wait[u][0], u) && Enabled(m', OpWake(t.wait[u][0]))
            else u !in t'.u2x)
      && (forall u :: u in t.u2x && !R.HoldsDirectly(t, x, u) ==> Owns(m'.s, t.u2x[u], u))
      && (op.OpFinish? ==> x in m'.s.status && m'.s.status[x] == Aborted)
  {
    assert x !in m.s.lt.xwaitu;
    R.RemoveKeeps(m.s.lt, x);
    R.RemoveHands(m.s.lt, x);
    R.QueuedAreOthers(m.s.lt, x);
    forall u | R.HoldsDirectly(m.s.lt, x, u) && u in m.s.lt.wait
      ensures Enabled(Step(m, op), OpWake(m.s.lt.wait[u][0]))
    {
      WaiterMayWake(m, op, x, u);
    }
  }

  lemma WaiterMayWake(m: Machine, op: Op, x: Xid, u: Uid)
    requires Control(m.s) && Locking(m.s) && Deleters(m.s) && Enabled(m, op) && Frees(op, x)
    requires u in m.s.lt.wait && m.s.lt.wait[u] != [] && m.s.lt.wait[u][0] != x
    requires m.s.lt.wait[u][0] !in Step(m, op).s.lt.xwaitu
    ensures Enabled(Step(m, op), OpWake(m.s.lt.wait[u][0]))
  {
    var y := m.s.lt.wait[u][0];
    assert y in m.s.lt.wait[u];
    assert y in m.s.pc && m.s.pc[y] == Deleting(u);
    assert ControlAt(m.s, y);
  }

  /**
   A transaction that has not failed can commit: it is then committed, the database has taken over
   its work, and it holds no lock directly.
   */
  lemma CommitTakesEffect(m: Machine, x: Xid)
    requires Inv(m) && !m.s.frozen && Ready(m.s, x) && !m.s.tc[x].err
    ensures Enabled(m, OpLeave(x))
    ensures var m1 := Step(m, OpLeave(x));
      && Enabled(m1, OpRelease(x))
      && var m2 := Step(m1, OpRelease(x));
      && Enabled(m2, OpMark(x))
      && var m3 := Step(m2, OpMark(x));
      && IsCommitted(m3.s, x) && x !in m3.s.tc && x !in m3.s.lt.x2u
      && x in m.h.ins && x in m.h.del && m3.h.db == (m.h.db + m.h.ins[x]) - m.h.del[x]
  {
    var m1 := Step(m, OpLeave(x));
    LeaveKeeps(m, x);
    EndFreesLocks(m1, OpRelease(x), x);
  }

  /**
   A transaction that has not been aborted already can abort: its status is then aborted, the
   database stays as it is, it holds no lock directly, and nobody else sees what it inserted.
   */
  lemma AbortTakesEffect(m: Machine, x: Xid)
    requires Inv(m) && !m.s.frozen && Ready(m.s, x) && !m.s.tc[x].autoAborted
    ensures Enabled(m, OpAbort(x))
    ensures var m1 := Step(m, OpAbort(x));
      && Enabled(m1, OpFinish(x))
      && var m2 := Step(m1, OpFinish(x));
      && x in m2.s.status && m2.s.status[x] == Aborted && x !in m2.s.tc && x !in m2.s.lt.x2u
      && m2.h.db == m.h.db && m2.s.rows == m.s.rows
      && forall y, u :: y in m2.s.tc && u in m.s.rows && m.s.rows[u].xmin == x ==> !Sees(m2, y, u)
  {
    var m1 := Step(m, OpAbort(x));
    AbortKeeps(m, x);
    FinishesAborted(m, x);
    EndFreesLocks(m1, OpFinish(x), x);
    var m2 := Step(m1, OpFinish(x));
    FinishKeeps(m1, x);
    forall y, u | y in m2.s.tc && u in m.s.rows && m.s.rows[u].xmin == x ensures !Sees(m2, y, u) {
      UnseenAborted(m2, x, y, u);
    }
  }

  lemma FinishesAborted(m: Machine, x: Xid)
    requires Domains(m) && !m.s.frozen && Ready(m.s, x) && !m.s.tc[x].autoAborted
    ensures var m1 := Step(m, OpAbort(x));
      && Enabled(m1, OpFinish(x)) && m1.h == m.h && m1.s.rows == m.s.rows
      && var m2 := Step(m1, OpFinish(x));
      && m2.h == m.h && m2.s.rows == m.s.rows && x !in m2.s.tc
  {
  }

  lemma UnseenAborted(m: Machine, x: Xid, y: Xid, u: Uid)
    requires Domains(m) && x != SUPER && x in m.s.status && m.s.status[x] == Aborted && x !in m.s.tc
    requires y in m.s.tc && u in m.s.rows && m.s.rows[u].xmin == x
    ensures !Sees(m, y, u)
  {
  }

  /** Whoever holds a lock directly has not yet come to the release of its locks. */
  ghost predicate OnlyHolders(s: State) {
    forall x :: x in s.lt.x2u ==> Holding(s, x)
  }

  /** The locks are as they were, and `x` is still before the release of its locks if it was. */
  lemma SameHolders(s: State, s': State, x: Xid)
    requires OnlyHolders(s) && s'.lt == s.lt && (Holding(s, x) ==> Holding(s', x))
    requires forall y :: y != x ==> (y in s'.tc <==> y in s.tc) && (y in s.tc ==> s'.tc[y] == s.tc[y])
    requires forall y :: y != x && y in s.pc ==> y in s'.pc && s'.pc[y] == s.pc[y]
    ensures OnlyHolders(s')
  {
    forall y | y in s'.lt.x2u ensures Holding(s', y) {
      assert Holding(s, y);
    }
  }

  lemma FailHolds(s: State, x: Xid)
    requires OnlyHolders(s) && x in s.tc
    ensures OnlyHolders(Fail(s, x))
  {
    SameHolders(s, Fail(s, x), x);
  }

  lemma CommitOnlyHolders(m: Machine, op: Op)
    requires Domains(m) && Control(m.s) && OnlyHolders(m.s) && Enabled(m, op)
    requires op.OpBegin? || op.OpInsert? || op.OpLeave? || op.OpMark?
    ensures OnlyHolders(Step(m, op).s)
  {
    if op.OpBegin? {
      SameHolders(m.s, Step(m, op).s, m.s.counter + 1);
    } else {
      SameHolders(m.s, Step(m, op).s, op.x);
    }
  }

  lemma AbortOnlyHolders(m: Machine, op: Op)
    requires Domains(m) && Control(m.s) && OnlyHolders(m.s) && Enabled(m, op) && (op.OpAbort? || op.OpWake?)
    ensures OnlyHolders(Step(m, op).s)
  {
    assert ControlAt(m.s, op.x);
    SameHolders(m.s, Step(m, op).s, op.x);
  }

  lemma FreeOnlyHolders(m: Machine, op: Op)
    requires Domains(m) && R.Inv(m.s.lt) && OnlyHolders(m.s) && Enabled(m, op) && (op.OpRelease? || op.OpFinish?)
    requires op.x !in m.s.lt.xwaitu
    ensures OnlyHolders(Step(m, op).s)
  {
    var s, s' := m.s, Step(m, op).s;
    R.RemoveKeeps(s.lt, op.x);
    forall y | y in s'.lt.x2u ensures Holding(s', y) {
      assert y in s.lt.x2u && y != op.x && Holding(s, y);
    }
  }

  lemma StepOnlyHolders(m: Machine, op: Op)
    requires Inv(m) && OnlyHolders(m.s) && Enabled(m, op)
    ensures Step(m, op).s.frozen || OnlyHolders(Step(m, op).s)
  {
    if op.OpDelete? {
      DeleteOnlyHolders(m, op.x, op.u);
    } else if op.OpRelease? || op.OpFinish? {
      FreeOnlyHolders(m, op);
    } else if op.OpAbort? || op.OpWake? {
      AbortOnlyHolders(m, op);
    } else {
      CommitOnlyHolders(m, op);
    }
  }

  lemma AskedOnlyHolders(s: State, s': State, x: Xid, u: Uid)
    requires OnlyHolders(s) && Asked(s, s', x, u) && !s.tc[x].autoAborted
    requires forall y, v :: R.HoldsDirectly(s'.lt, y, v) ==> R.HoldsDirectly(s.lt, y, v) || y == x
    ensures OnlyHolders(s')
  {
    forall y | y in s'.lt.x2u ensures Holding(s', y) {
      assert R.HoldsDirectly(s'.lt, y, s'.lt.x2u[y][0]);
      if y != x {
        assert Holding(s, y);
      }
    }
  }

  lemma DeleteOnlyHolders(m: Machine, x: Xid, u: Uid)
    requires Domains(m) && Control(m.s) && Locking(m.s) && OnlyHolders(m.s) && Enabled(m, OpDelete(x, u))
    ensures Step(m, OpDelete(x, u)).s.frozen || OnlyHolders(Step(m, OpDelete(x, u)).s)
  {
    var s, s' := m.s, DeleteStart(m.s, x, u);
    ReadyDoesNotWait(m, x);
    DeleteCases(s, x, u);
    if Asked(s, s', x, u) {
      assert ControlAt(s, x);
      DeleteTakes(s, x, u);
      AskedOnlyHolders(s, s', x, u);
    } else if s' == Fail(s, x) {
      FailHolds(s, x);
    }
  }

  lemma DeleteTakes(s: State, x: Xid, u: Uid)
    requires R.Inv(s.lt) && x in s.tc && x !in s.lt.xwaitu && DeleteStart(s, x, u) != s
    ensures forall y, v :: R.HoldsDirectly(DeleteStart(s, x, u).lt, y, v) ==> R.HoldsDirectly(s.lt, y, v) || y == x
  {
    R.AddFrame(s.lt, x, u);
  }

  lemma {:induction false} OnlyHoldersOverRun(ops: seq<Op>)
    requires Run(ops, true).Some? && !Run(ops, true).value.s.frozen
    ensures OnlyHolders(Run(ops, true).value.s)
    decreases |ops|
  {
    if ops != [] {
      var n := |ops| - 1;
      OnlyHoldersOverRun(ops[..n]);
      RunInv(ops[..n]);
      StepOnlyHolders(Run(ops[..n], true).value, ops[n]);
    }
  }

  /** In every disciplined run, a transaction that is past its commit or its abort holds no lock directly. */
  lemma EndedHoldsNothing(ops: seq<Op>, x: Xid, u: Uid)
    requires Run(ops, true).Some? && !Run(ops, true).value.s.frozen
    requires var s := Run(ops, true).value.s;
      x in s.pc && (s.pc[x] == Released || s.pc[x] == Ended || (s.pc[x] == Idle && x in s.tc && s.tc[x].autoAborted))
    ensures !R.HoldsDirectly(Run(ops, true).value.s.lt, x, u)
  {
    OnlyHoldersOverRun(ops);
  }

  /* ----- what the object is ----- */

  /** Some disciplined run leads here. */
  ghost predicate Reached(m: Machine) {
    exists ops :: Run(ops, true) == Some(m)
  }

  ghost predicate Safe(m: Machine, op: Op) {
    Reached(m) && Enabled(m, op) && Disciplined(m.s, op)
  }

  /** What the abstract database records of a step. */
  ghost function Record(m: Machine, op: Op): History {
    if Enabled(m, op) then Step(m, op).h else m.h
  }

  lemma ReachedStart()
    ensures Reached(START)
  {
    assert Run([], true) == Some(START);
  }

  lemma ReachedStep(m: Machine, op: Op)
    ensures Safe(m, op) ==> Reached(Step(m, op))
  {
    if Safe(m, op) {
      var ops :| Run(ops, true) == Some(m);
      assert (ops + [op])[..|ops|] == ops;
      assert Run(ops + [op], true) == Some(Step(m, op));
    }
  }

  /** What a sound transaction should see of row `u`: its snapshot, or the database if it reads committed. */
  ghost predicate Owed(m: Machine, x: Xid, u: Uid)
    requires x in m.s.tc && x in m.h.base && x in m.h.ins && x in m.h.del
  {
    u in ((if m.s.tc[x].level == 0 then m.h.db else m.h.base[x]) + m.h.ins[x]) - m.h.del[x]
  }

  lemma ReachedSees(m: Machine, x: Xid, u: Uid)
    requires Reached(m) && !m.s.frozen
    requires x in m.s.tc && x != SUPER && !m.s.tc[x].err && u in m.s.rows && m.s.rows[u].xmin != SUPER
    ensures x in m.h.base && x in m.h.ins && x in m.h.del
    ensures IsVisible(m.s, m.s.tc[x], m.s.rows[u]) <==> Owed(m, x, u)
  {
    var ops :| Run(ops, true) == Some(m);
    ReachedDomains(m);
    if m.s.tc[x].level == 0 {
      ReadCommittedSeesDatabase(ops, x, u);
    } else {
      SnapshotIsolation(ops, x, u);
    }
  }

  /** When the Delete of a transaction that has the lock stamps the row, as the abstract database says. */
  ghost predicate Deletes(m: Machine, x: Xid, u: Uid)
    requires x in m.s.tc
  {
    m.s.tc[x].level == 0 || !DeletedByNow(m, u)
  }

  lemma ReachedStamps(m: Machine, x: Xid)
    ensures Reached(m) && Enabled(m, OpWake(x)) && x in m.h.del && m.s.pc[x].u !in m.h.del[x] ==>
      (WakeStamps(m.s, x, m.s.pc[x].u) <==> Deletes(m, x, m.s.pc[x].u))
  {
    if Reached(m) && Enabled(m, OpWake(x)) && x in m.h.del && m.s.pc[x].u !in m.h.del[x] {
      var ops :| Run(ops, true) == Some(m);
      RunInv(ops);
      StampsIff(m, x);
    }
  }

  lemma ReachedDomains(m: Machine)
    requires Reached(m) && !m.s.frozen
    ensures Domains(m)
  {
    var ops :| Run(ops, true) == Some(m);
    RunInv(ops);
  }

  /* ----- without the discipline ----- */

  /** Whom the stamp that a resuming deleter finds belongs to: nobody, or one who committed or will. */
  predicate Binding(s: State, y: Xid) {
    y != SUPER && (IsCommitted(s, y) || (y in s.pc && s.pc[y] == Released))
  }

  /** Both transactions have deleted `u`; `y` has committed or is about to be marked, and `x` is free to commit. */
  predicate DoubleDelete(m: Machine, x: Xid, y: Xid, u: Uid) {
    && !m.s.frozen && x != y && Ready(m.s, x) && !m.s.tc[x].err
    && Binding(m.s, y)
    && x in m.h.ins && y in m.h.ins && x in m.h.del && y in m.h.del && u in m.h.del[x] && u in m.h.del[y]
  }

  /**
   The discipline on `Wake` says exactly when a stamp is replaced that belongs to a transaction
   which has committed or is past the release of its locks.
   */
  lemma WakeGuardIsExact(m: Machine, x: Xid)
    requires Inv(m) && Enabled(m, OpWake(x))
    ensures var u := m.s.pc[x].u;
      !Disciplined(m.s, OpWake(x)) <==> WakeStamps(m.s, x, u) && Binding(m.s, m.s.rows[u].xmax)
  {
    var y := m.s.rows[m.s.pc[x].u].xmax;
    assert ControlAt(m.s, x);
    if y in m.s.pc {
      assert ControlAt(m.s, y);
    }
    if Disciplined(m.s, OpWake(x)) && WakeStamps(m.s, x, m.s.pc[x].u) {
      WakeReplacesDeadStamp(m, x);
    }
  }

  /** Outside the window a committed stamp is replaced exactly by a deleter that reads committed. */
  lemma CommittedStampReplacedIff(m: Machine, x: Xid)
    requires Inv(m) && Enabled(m, OpWake(x))
    requires var y := m.s.rows[m.s.pc[x].u].xmax; !(y in m.s.pc && m.s.pc[y] == Released)
    ensures var u := m.s.pc[x].u;
      var y := m.s.rows[u].xmax;
      (exists w :: w != SUPER && StampedFor(m, u, w) && !StampedFor(Step(m, OpWake(x)), u, w))
      <==> m.s.tc[x].level == 0 && y != SUPER && IsCommitted(m.s, y)
  {
    WakeGuardIsExact(m, x);
    var u := m.s.pc[x].u;
    var y := m.s.rows[u].xmax;
    if WakeStamps(m.s, x, u) && Binding(m.s, y) {
      assert StampedFor(m, u, y) && !StampedFor(Step(m, OpWake(x)), u, y);
    }
  }

  /** The machine after the rest of the commit of `y`. */
  ghost function CommitRest(m: Machine, y: Xid): Machine
    requires !m.s.frozen && Committing(m.s, y)
  {
    var m1 := if m.s.pc[y] == Leaving then Step(m, OpRelease(y)) else m;
    Step(m1, OpMark(y))
  }

  /** The machine after the mark of `y`, if that is still to come. */
  ghost function MarkDue(m: Machine, y: Xid): Machine
    requires !m.s.frozen
  {
    if y in m.s.pc && m.s.pc[y] == Released then Step(m, OpMark(y)) else m
  }

  /**
   What the discipline on `Wake` rules out costs an update: once both transactions are marked, both
   have deleted the same row.
   */
  lemma UndisciplinedWakeLosesUpdate(m: Machine, x: Xid)
    requires Inv(m) && Enabled(m, OpWake(x)) && !Disciplined(m.s, OpWake(x))
    ensures var u := m.s.pc[x].u;
      var y := m.s.rows[u].xmax;
      var m1 := Step(m, OpWake(x));
      && !m1.s.frozen
      && var m2 := MarkDue(m1, y);
      && Enabled(m2, OpLeave(x))
      && var m3 := Step(m2, OpLeave(x));
      && !m3.s.frozen && Committing(m3.s, x)
      && var m4 := CommitRest(m3, x);
      && IsCommitted(m4.s, x) && IsCommitted(m4.s, y) && x != y
      && x in m4.h.del && y in m4.h.del && u in m4.h.del[x] && u in m4.h.del[y]
  {
    WakeGuardIsExact(m, x);
    WakeDoubles(m, x);
    BothCommit(Step(m, OpWake(x)), x, m.s.rows[m.s.pc[x].u].xmax, m.s.pc[x].u);
  }

  lemma WakeDoubles(m: Machine, x: Xid)
    requires Domains(m) && Control(m.s) && Recorded(m) && Enabled(m, OpWake(x))
    requires WakeStamps(m.s, x, m.s.pc[x].u) && Binding(m.s, m.s.rows[m.s.pc[x].u].xmax)
    ensures var u := m.s.pc[x].u; DoubleDelete(Step(m, OpWake(x)), x, m.s.rows[u].xmax, u)
  {
    var u := m.s.pc[x].u;
    var y := m.s.rows[u].xmax;
    assert ControlAt(m.s, x) && y in m.s.pc && ControlAt(m.s, y);
    assert Sound(m.s, y) && u in m.h.del[y];
  }

  lemma BothCommit(m: Machine, x: Xid, y: Xid, u: Uid)
    requires DoubleDelete(m, x, y, u)
    ensures var m2 := MarkDue(m, y);
      && Enabled(m2, OpLeave(x)) && Committing(Step(m2, OpLeave(x)).s, x)
      && !Step(m2, OpLeave(x)).s.frozen
      && var m5 := CommitRest(Step(m2, OpLeave(x)), x);
      && IsCommitted(m5.s, x) && IsCommitted(m5.s, y)
      && x in m5.h.del && y in m5.h.del && u in m5.h.del[x] && u in m5.h.del[y]
  {
  }

  predicate Sees(m: Machine, x: Xid, u: Uid) {
    x in m.s.tc && u in m.s.rows && IsVisible(m.s, m.s.tc[x], m.s.rows[u])
  }

  /** What a transaction that begins now sees of `u` is the same after the commit of `y`. */
  ghost predicate Unmoved(m: Machine, level: nat, y: Xid, u: Uid)
    requires !m.s.frozen
  {
    var x, m1 := m.s.counter + 1, Step(m, OpBegin(level));
    Committing(m1.s, y) ==> (Sees(m1, x, u) <==> Sees(CommitRest(m1, y), x, u))
  }

  /**
   The discipline on `Begin` is exact as well: a repeatable-read transaction goes on seeing what it
   sees when it begins, whichever of the commits under way is completed, exactly if none of them
   touches a row.
   */
  lemma BeginGuardIsExact(m: Machine, level: nat)
    requires Inv(m) && !m.s.frozen && level != 0
    ensures Disciplined(m.s, OpBegin(level)) <==>
      forall y, u :: Committing(m.s, y) ==> Unmoved(m, level, y, u)
  {
    if Disciplined(m.s, OpBegin(level)) {
      forall y, u | Committing(m.s, y)
        ensures Unmoved(m, level, y, u)
      {
        BeginBesideCommit(m, level, y, u);
      }
    } else {
      var y :| Committing(m.s, y) && !TouchesNothing(m.s, y);
      var u :| u in m.s.rows && Touched(m.s.rows[u], y);
      BeginBesideCommit(m, level, y, u);
    }
  }

  /** How the end of the commit of `y` looks to a transaction that has just begun. */
  ghost predicate Overtaken(s: State, s1: State, s2: State, x: Xid, y: Xid) {
    && x == s.counter + 1 && x in s1.tc && x in s2.tc && s2.tc[x] == s1.tc[x] && s1.tc[x].xid == x
    && s1.tc[x].level != 0 && s1.tc[x].snapshot == s.tc.Keys
    && s1.rows == s.rows && s2.rows == s.rows
    && (forall z :: z != x ==> (IsCommitted(s1, z) <==> IsCommitted(s, z)))
    && (forall z :: z != x ==> (IsCommitted(s2, z) <==> IsCommitted(s, z) || z == y))
  }

  lemma CommitOvertakes(m: Machine, level: nat, y: Xid)
    requires Domains(m) && !m.s.frozen && level != 0 && Committing(m.s, y)
    ensures var m1 := Step(m, OpBegin(level));
      !m1.s.frozen && Committing(m1.s, y) && Overtaken(m.s, m1.s, CommitRest(m1, y).s, m.s.counter + 1, y)
  {
    BeginStarts(m, level);
    CommitRestShape(Step(m, OpBegin(level)), y);
  }

  lemma CommitRestShape(m: Machine, y: Xid)
    requires !m.s.frozen && Committing(m.s, y)
    ensures var s' := CommitRest(m, y).s;
      s'.rows == m.s.rows && s'.tc == m.s.tc && s'.status == m.s.status[y := Committed]
  {
  }

  lemma OvertakenSees(s: State, s1: State, s2: State, x: Xid, y: Xid, u: Uid)
    requires Overtaken(s, s1, s2, x, y) && Control(s) && Stamps(s)
    requires Committing(s, y) && y != SUPER && y <= s.counter && y !in s.tc && !IsCommitted(s, y)
    requires forall z :: z != SUPER && IsCommitted(s, z) ==> z in s.pc
    requires u in s.rows
    ensures (IsVisible(s1, s1.tc[x], s.rows[u]) <==> IsVisible(s2, s2.tc[x], s.rows[u])) <==> !Touched(s.rows[u], y)
  {
    var e := s.rows[u];
    assert e.xmin in s.pc ==> ControlAt(s, e.xmin);
    assert e.xmax in s.pc ==> ControlAt(s, e.xmax);
  }

  lemma CommitIsOpen(m: Machine, y: Xid)
    requires Domains(m) && Control(m.s) && Committing(m.s, y)
    ensures y != SUPER && y <= m.s.counter && y !in m.s.tc && !IsCommitted(m.s, y)
  {
    assert ControlAt(m.s, y);
  }

  lemma BeginBesideCommit(m: Machine, level: nat, y: Xid, u: Uid)
    requires Domains(m) && Control(m.s) && Stamps(m.s) && !m.s.frozen && level != 0 && Committing(m.s, y)
    ensures Unmoved(m, level, y, u) <==> (u in m.s.rows ==> !Touched(m.s.rows[u], y))
  {
    CommitOvertakes(m, level, y);
    CommitIsOpen(m, y);
    UnmovedIff(m, Step(m, OpBegin(level)), level, y, u);
  }

  lemma UnmovedIff(m: Machine, m1: Machine, level: nat, y: Xid, u: Uid)
    requires !m.s.frozen && m1 == Step(m, OpBegin(level)) && !m1.s.frozen && Committing(m1.s, y)
    requires Overtaken(m.s, m1.s, CommitRest(m1, y).s, m.s.counter + 1, y)
    requires Control(m.s) && Stamps(m.s)
    requires Committing(m.s, y) && y != SUPER && y <= m.s.counter && y !in m.s.tc && !IsCommitted(m.s, y)
    requires forall z :: z != SUPER && IsCommitted(m.s, z) ==> z in m.s.pc
    ensures Unmoved(m, level, y, u) <==> (u in m.s.rows ==> !Touched(m.s.rows[u], y))
  {
    if u in m.s.rows {
      OvertakenSees(m.s, m1.s, CommitRest(m1, y).s, m.s.counter + 1, y, u);
    }
  }

  /** A reachable broken snapshot: transaction 2 begins while 1 commits, and row 11 appears to it. */
  lemma SnapshotBrokenInWindow() returns (ops: seq<Op>)
    ensures Run(ops, false).Some?
    ensures var m := Run(ops, false).value;
      && 2 in m.s.tc && m.s.tc[2] == Txn(2, 1, {0}, false, false) && Sees(m, 2, 11)
      && 2 in m.h.base && 2 in m.h.ins && 2 in m.h.del
      && 11 !in (m.h.base[2] + m.h.ins[2]) - m.h.del[2]
  {
    var m: Machine;
    ops, m := ReachOne();
    ops := Extend(ops, m, OpInsert(1, 11));
    m := Step(m, OpInsert(1, 11));
    ops := Extend(ops, m, OpLeave(1));
    m := Step(m, OpLeave(1));
    assert m.s.tc.Keys == {0};
    ops := Extend(ops, m, OpBegin(1));
    m := Step(m, OpBegin(1));
    ops := Extend(ops, m, OpRelease(1));
    m := Step(m, OpRelease(1));
    ops := Extend(ops, m, OpMark(1));
    m := Step(m, OpMark(1));
  }

  lemma Extend(ops: seq<Op>, m: Machine, op: Op) returns (ops': seq<Op>)
    requires Run(ops, false) == Some(m) && Enabled(m, op)
    ensures Run(ops', false) == Some(Step(m, op))
  {
    ops' := ops + [op];
    assert ops'[..|ops|] == ops;
  }

  const LOCKED := L.EMPTY.(u2x := L.EMPTY.u2x[10 := 1], x2u := L.EMPTY.x2u[1 := [10]])
  const QUEUED := LOCKED.(
    xwaitu := LOCKED.xwaitu[2 := 10], wait := LOCKED.wait[10 := [2]], waitCh := LOCKED.waitCh + {2})

  /** Row 10 is the super transaction's; transactions 1 and 2 have begun at levels 1 and `l`. */
  predicate Scene(m: Machine, l: nat) {
    var s := m.s;
    && !s.frozen && 10 in s.rows && s.rows[10].xmin == SUPER
    && 1 in s.pc && 1 in s.status && s.status[1] == Active
    && 2 in s.pc && 2 in s.status && s.status[2] == Active
    && 2 in s.tc && s.tc[2] == Txn(2, l, if l == 0 then {} else {0, 1}, false, false)
    && 1 in m.h.ins && 2 in m.h.ins && 1 in m.h.del && 2 in m.h.del
  }

  predicate OneRuns(m: Machine) {
    1 in m.s.tc && m.s.tc[1] == Txn(1, 1, {0}, false, false)
  }

  lemma ReachTwo(l: nat) returns (ops: seq<Op>, m: Machine)
    ensures Run(ops, false) == Some(m) && Scene(m, l) && OneRuns(m)
    ensures m.s.rows[10].xmax == 0 && m.s.pc[1] == Idle && m.s.pc[2] == Idle && m.s.lt == L.EMPTY
  {
    ops, m := ReachOne();
    ops := Extend(ops, m, OpBegin(l));
    m := Step(m, OpBegin(l));
  }

  /** Transaction 1 has begun. */
  lemma ReachOne() returns (ops: seq<Op>, m: Machine)
    ensures Run(ops, false) == Some(m) && OneRuns(m)
    ensures var s := m.s;
      && !s.frozen && s.counter == 1 && s.tc.Keys == {0, 1} && s.lt == L.EMPTY
      && 10 in s.rows && s.rows[10] == Row(SUPER, 0)
      && 1 in s.pc && s.pc[1] == Idle && 1 in s.status && s.status[1] == Active
      && 1 in m.h.ins && 1 in m.h.del && m.h.db == {} && s.rows.Keys == {10}
  {
    m := START;
    ops := Extend([], m, OpInsert(0, 10));
    m := Step(m, OpInsert(0, 10));
    assert m.s.tc.Keys == {0};
    ops := Extend(ops, m, OpBegin(1));
    m := Step(m, OpBegin(1));
  }

  /** Transaction 1 has stamped row 10. */
  lemma ReachStamped(l: nat) returns (ops: seq<Op>, m: Machine)
    ensures Run(ops, false) == Some(m) && Scene(m, l) && OneRuns(m)
    ensures m.s.rows[10].xmax == 1 && m.s.pc[1] == Idle && m.s.pc[2] == Idle && m.s.lt == LOCKED
    ensures 10 in m.h.del[1]
  {
    ops, m := ReachTwo(l);
    var t := R.TakeFree(L.EMPTY, 1, 10);
    ops := Extend(ops, m, OpDelete(1, 10));
    m := Step(m, OpDelete(1, 10));
    ops := Extend(ops, m, OpWake(1));
    m := Step(m, OpWake(1));
  }

  /** Transaction 2 waits for row 10. */
  lemma ReachWaiting(l: nat) returns (ops: seq<Op>, m: Machine)
    ensures Run(ops, false) == Some(m) && Scene(m, l) && OneRuns(m)
    ensures m.s.rows[10].xmax == 1 && m.s.pc[1] == Idle && m.s.pc[2] == Deleting(10) && m.s.lt == QUEUED
    ensures 10 in m.h.del[1]
  {
    ops, m := ReachStamped(l);
    var t := R.QueueUp(LOCKED, 2, 10);
    ops := Extend(ops, m, OpDelete(2, 10));
    m := Step(m, OpDelete(2, 10));
  }

  /** Transaction 1 has freed its lock, which is handed to transaction 2. */
  lemma ReachFreed(l: nat) returns (ops: seq<Op>, m: Machine)
    ensures Run(ops, false) == Some(m) && Scene(m, l)
    ensures m.s.rows[10].xmax == 1 && m.s.pc[1] == Released && m.s.pc[2] == Deleting(10)
    ensures 2 !in m.s.lt.xwaitu && 10 in m.h.del[1]
  {
    ops, m := ReachWaiting(l);
    ops := Extend(ops, m, OpLeave(1));
    m := Step(m, OpLeave(1));
    R.PassOn(QUEUED, 1, 10, 2);
    ops := Extend(ops, m, OpRelease(1));
    m := Step(m, OpRelease(1));
  }

  /** A reachable lost update: transaction 2 resumes between the lock release and the mark of transaction 1. */
  lemma LostUpdateInWindow() returns (ops: seq<Op>)
    ensures Run(ops, false).Some?
    ensures var m := Run(ops, false).value;
      && IsCommitted(m.s, 1) && IsCommitted(m.s, 2)
      && 1 in m.h.del && 2 in m.h.del && 10 in m.h.del[1] && 10 in m.h.del[2]
  {
    var m: Machine;
    ops, m := ReachFreed(1);
    ops := Extend(ops, m, OpWake(2));
    m := Step(m, OpWake(2));
    assert DoubleDelete(m, 2, 1, 10);
    ops := BothCommitRun(ops, m, 2, 1, 10);
  }

  lemma BothCommitRun(ops: seq<Op>, m: Machine, x: Xid, y: Xid, u: Uid) returns (ops': seq<Op>)
    requires Run(ops, false) == Some(m) && DoubleDelete(m, x, y, u)
    ensures Run(ops', false).Some?
    ensures var m' := Run(ops', false).value;
      && IsCommitted(m'.s, x) && IsCommitted(m'.s, y)
      && x in m'.h.del && y in m'.h.del && u in m'.h.del[x] && u in m'.h.del[y]
      && m'.s.rows == m.s.rows
  {
    BothCommit(m, x, y, u);
    ops' := ops;
    var m2 := MarkDue(m, y);
    if y in m.s.pc && m.s.pc[y] == Released {
      ops' := Extend(ops', m, OpMark(y));
    }
    ops' := Extend(ops', m2, OpLeave(x));
    var m3 := Step(m2, OpLeave(x));
    ops' := Extend(ops', m3, OpRelease(x));
    ops' := Extend(ops', Step(m3, OpRelease(x)), OpMark(x));
  }

  /** A reachable lost update with undivided commits: transaction 2 reads committed and skips no version. */
  lemma LostUpdateAtLevelZero() returns (ops: seq<Op>)
    ensures Run(ops, false).Some?
    ensures var m := Run(ops, false).value;
      && IsCommitted(m.s, 1) && IsCommitted(m.s, 2) && 10 in m.s.rows && m.s.rows[10].xmax == 2
      && 1 in m.h.del && 2 in m.h.del && 10 in m.h.del[1] && 10 in m.h.del[2]
  {
    var m: Machine;
    ops, m := ReachFreed(0);
    ops := Extend(ops, m, OpMark(1));
    m := Step(m, OpMark(1));
    ops := Extend(ops, m, OpWake(2));
    m := Step(m, OpWake(2));
    ops := BothCommitRun(ops, m, 2, 1, 10);
  }
}
