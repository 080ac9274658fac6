/**
 The row lock table: who owns a uid, who waits for it, and the wait-for graph that is searched
 for a cycle before a wait is admitted.  `Table` is the content of the five maps; its functions
 say what each locked section does to them.
 */
module LockGraph {
  import opened Types

  /** Transaction ids and row ids; the table never looks inside them. */
  type Id = nat

  /** `waitCh` holds the xids whose channel has been handed out and not yet been sent to. */
  datatype Table = Table(
    x2u: map<Id, seq<Id>>,
    u2x: map<Id, Id>,
    wait: map<Id, seq<Id>>,
    waitCh: set<Id>,
    xwaitu: map<Id, Id>)

  const EMPTY := Table(map[], map[], map[], {}, map[])

  /** `Stuck`: the call never returns, and it holds the table's mutex. */
  datatype AddResult = Granted | Waits | Refused | Stuck

  /* ----- list helpers ----- */

  predicate InList(m: map<Id, seq<Id>>, a: Id, b: Id) {
    a in m && b in m[a]
  }

  function PutInList(m: map<Id, seq<Id>>, a: Id, b: Id): map<Id, seq<Id>> {
    m[a := (if a in m then m[a] else []) + [b]]
  }

  /** One turn of the removal loop: the cursor is compared and, on a mismatch, left where it is. */
  function ScanTurn(l: seq<Id>, b: Id, cursor: nat): Option<nat> {
    if cursor < |l| && l[cursor] != b then Some(cursor) else None
  }

  /** Whether the removal loop is still running after `n` turns. */
  predicate Scanning(l: seq<Id>, b: Id, n: nat) {
    if n == 0 then |l| > 0
    else Scanning(l, b, n - 1) && ScanTurn(l, b, 0).Some?
  }

  /** The removal loop ends exactly on an empty list or a match at the front. */
  lemma {:induction false} ScanEndsIff(l: seq<Id>, b: Id)
    ensures (exists n: nat :: !Scanning(l, b, n)) <==> (l == [] || l[0] == b)
  {
    if l == [] {
      assert !Scanning(l, b, 0);
    } else if l[0] == b {
      assert !Scanning(l, b, 1);
    } else {
      forall n: nat
        ensures Scanning(l, b, n)
      {
        StillScanning(l, b, n);
      }
    }
  }

  lemma {:induction false} StillScanning(l: seq<Id>, b: Id, n: nat)
    requires l != [] && l[0] != b
    ensures Scanning(l, b, n)
  {
    if n > 0 {
      StillScanning(l, b, n - 1);
    }
  }

  /** The list map after the removal loop; `None` when the loop does not end. */
  function TakeFromList(m: map<Id, seq<Id>>, a: Id, b: Id): Option<map<Id, seq<Id>>>
    requires a in m
  {
    var l := m[a];
    if l == [] then Some(m - {a})
    else if l[0] != b then None
    else if |l| == 1 then Some(m - {a})
    else Some(m[a := l[1..]])
  }

  /* ----- the wait-for graph ----- */

  /** The xid that `x` waits for, if it waits. */
  function Next(t: Table, x: Id): Option<Id> {
    if x in t.xwaitu && t.xwaitu[x] in t.u2x then Some(t.u2x[t.xwaitu[x]]) else None
  }

  /** The xid reached from `x` by `n` wait-for edges. */
  function Follow(t: Table, x: Id, n: nat): Option<Id>
    decreases n
  {
    if n == 0 then Some(x)
    else match Next(t, x)
      case None => None
      case Some(y) => Follow(t, y, n - 1)
  }

  /** Following the edges from `x` comes to some xid twice. */
  ghost predicate Revisits(t: Table, x: Id) {
    exists i: nat, j: nat :: i < j && Follow(t, x, i).Some? && Follow(t, x, i) == Follow(t, x, j)
  }

  /** What `hasDeadLock` looks for: only xids that own something directly are starting points. */
  ghost predicate DeadLock(t: Table) {
    exists k :: k in t.x2u && Revisits(t, k)
  }

  ghost predicate Acyclic(t: Table) {
    forall x :: !Revisits(t, x)
  }

  lemma {:induction false} FollowAdd(t: Table, x: Id, m: nat, n: nat)
    requires Follow(t, x, m).Some?
    ensures Follow(t, x, m + n) == Follow(t, Follow(t, x, m).value, n)
    decreases m
  {
    if m > 0 {
      FollowAdd(t, Next(t, x).value, m - 1, n);
    }
  }

  /** Having a revisit ahead is invariant along an edge. */
  lemma RevisitsStep(t: Table, x: Id)
    requires Next(t, x).Some?
    ensures Revisits(t, x) <==> Revisits(t, Next(t, x).value)
  {
    var y := Next(t, x).value;
    assert Follow(t, x, 1) == Some(y) by {
      assert Follow(t, y, 0) == Some(y);
    }
    if Revisits(t, x) {
      var i: nat, j: nat :| i < j && Follow(t, x, i).Some? && Follow(t, x, i) == Follow(t, x, j);
      var z := Follow(t, x, i).value;
      // one edge further on, both visits move to the same xid
      FollowAdd(t, x, 1, i);
      FollowAdd(t, x, i, 1);
      FollowAdd(t, x, 1, j);
      FollowAdd(t, x, j, 1);
      if i == 0 {
        assert Follow(t, y, 0) == Follow(t, y, j);
        assert Follow(t, y, 0).Some?;
      } else {
        assert Follow(t, y, i - 1) == Follow(t, x, i);
        assert Follow(t, y, j - 1) == Follow(t, x, j);
      }
    }
    if Revisits(t, y) {
      var i: nat, j: nat :| i < j && Follow(t, y, i).Some? && Follow(t, y, i) == Follow(t, y, j);
      assert Follow(t, x, i + 1) == Follow(t, y, i);
      assert Follow(t, x, j + 1) == Follow(t, y, j);
    }
  }

  lemma SinkHasNoRevisit(t: Table, x: Id)
    requires Next(t, x).None?
    ensures !Revisits(t, x)
  {
    forall j: nat | j > 0
      ensures Follow(t, x, j).None?
    {
    }
  }

  /** Having a revisit ahead is invariant along any number of edges. */
  lemma {:induction false} RevisitsAlong(t: Table, x: Id, n: nat)
    requires Follow(t, x, n).Some?
    ensures Revisits(t, x) <==> Revisits(t, Follow(t, x, n).value)
    decreases n
  {
    if n > 0 {
      RevisitsStep(t, x);
      RevisitsAlong(t, Next(t, x).value, n - 1);
    }
  }

  /** A revisit ahead yields an xid that lies on a cycle. */
  lemma RevisitHasCycle(t: Table, x: Id) returns (y: Id, n: nat, m: nat)
    requires Revisits(t, x)
    ensures Follow(t, x, m) == Some(y)
    ensures n > 0 && Follow(t, y, n) == Some(y)
  {
    var i: nat, j: nat :| i < j && Follow(t, x, i).Some? && Follow(t, x, i) == Follow(t, x, j);
    m := i;
    y := Follow(t, x, i).value;
    n := j - i;
    FollowAdd(t, x, i, n);
  }

  lemma CycleRevisits(t: Table, y: Id, n: nat)
    requires n > 0 && Follow(t, y, n) == Some(y)
    ensures Revisits(t, y)
  {
    assert Follow(t, y, 0) == Some(y);
  }

  /** On a chain that does not end early, every xid passed has an outgoing edge. */
  lemma {:induction false} PassedHasNext(t: Table, x: Id, n: nat, m: nat)
    requires m < n && Follow(t, x, n).Some?
    ensures Follow(t, x, m).Some? && Next(t, Follow(t, x, m).value).Some?
    decreases m
  {
    if m > 0 {
      PassedHasNext(t, Next(t, x).value, n - 1, m - 1);
    }
  }

  /**
   If every edge of `t'` is an edge of `t` or leads to an xid without edges in `t'`,
   then `t'` has no cycle that `t` does not have.
   */
  lemma NoNewCycle(t: Table, t': Table)
    requires Acyclic(t)
    requires forall x :: Next(t', x).Some? && Next(t', Next(t', x).value).Some? ==> Next(t', x) == Next(t, x)
    ensures Acyclic(t')
  {
    forall x
      ensures !Revisits(t', x)
    {
      if Revisits(t', x) {
        var y, n, _ := RevisitHasCycle(t', x);
        SameFollow(t, t', y, n, n);
        CycleRevisits(t, y, n);
        assert false;
      }
    }
  }

  lemma {:induction false} SameFollow(t: Table, t': Table, y: Id, n: nat, m: nat)
    requires n > 0 && Follow(t', y, n) == Some(y) && m <= n
    requires forall x :: Next(t', x).Some? && Next(t', Next(t', x).value).Some? ==> Next(t', x) == Next(t, x)
    ensures Follow(t', y, m).Some? && Follow(t, y, m) == Follow(t', y, m)
    decreases m
  {
    if m > 0 {
      SameFollow(t, t', y, n, m - 1);
      PassedHasNext(t', y, n, m - 1);
      var z := Follow(t', y, m - 1).value;
      FollowAdd(t', y, m - 1, 1);
      FollowAdd(t, y, m - 1, 1);
      var z' := Next(t', z).value;
      assert Follow(t', z, 1) == Follow(t', z', 0) == Some(z');
      // z' is either y again or an xid the cycle leaves once more
      if m == n {
        PassedHasNext(t', y, n, 0);
      } else {
        PassedHasNext(t', y, n, m);
      }
      assert Next(t', z').Some?;
      assert Next(t, z) == Some(z');
      assert Follow(t, z, 1) == Follow(t, z', 0);
    }
  }

  /* ----- the operations on the table ----- */

  /** The tentative wait edge of `Add`. */
  function WithEdge(t: Table, x: Id, u: Id): Table {
    t.(xwaitu := t.xwaitu[x := u], wait := PutInList(t.wait, u, x))
  }

  ghost function Add(t: Table, x: Id, u: Id): (Table, AddResult) {
    if InList(t.x2u, x, u) then (t, Granted)
    else if u !in t.u2x then (t.(u2x := t.u2x[u := x], x2u := PutInList(t.x2u, x, u)), Granted)
    else
      var w := WithEdge(t, x, u);
      if DeadLock(w) then
        match TakeFromList(w.wait, u, x)
        case None => (w.(xwaitu := w.xwaitu - {x}), Stuck)
        case Some(m) => (w.(xwaitu := w.xwaitu - {x}, wait := m), Refused)
      else (w.(waitCh := w.waitCh + {x}), Waits)
  }

  /** The first queued xid that still has a channel, and the queue behind it. */
  function PopWaiter(q: seq<Id>, ch: set<Id>): (Option<Id>, seq<Id>) {
    if q == [] then (None, [])
    else if q[0] in ch then (Some(q[0]), q[1..])
    else PopWaiter(q[1..], ch)
  }

  function Grant(t: Table, u: Id, x: Id): Table {
    t.(u2x := t.u2x[u := x], waitCh := t.waitCh - {x}, xwaitu := t.xwaitu - {x})
  }

  /** `selectNewXID`: the next owner is recorded in `u2x` but not in `x2u`. */
  function SelectNew(t: Table, u: Id): Table {
    var t1 := t.(u2x := t.u2x - {u});
    if u !in t.wait then t1
    else
      var (w, rest) := PopWaiter(t.wait[u], t.waitCh);
      var t2 := if w.Some? then Grant(t1, u, w.value) else t1;
      t2.(wait := if rest == [] then t.wait - {u} else t.wait[u := rest])
  }

  function ReleaseAll(t: Table, us: seq<Id>): Table
    decreases |us|
  {
    if us == [] then t else ReleaseAll(SelectNew(t, us[0]), us[1..])
  }

  function Forget(t: Table, x: Id): Table {
    t.(xwaitu := t.xwaitu - {x}, x2u := t.x2u - {x}, waitCh := t.waitCh - {x})
  }

  function Remove(t: Table, x: Id): Table {
    Forget(if x in t.x2u then ReleaseAll(t, t.x2u[x]) else t, x)
  }
}

/** What the lock table keeps over every run of `Add` and `Remove`. */
module LockRuns {
  import opened Types
  import opened LockGraph

  ghost predicate NoDup(l: seq<Id>) {
    forall i, j :: 0 <= i < j < |l| ==> l[i] != l[j]
  }

  /** Every directly owned uid points back to its owner. */
  ghost predicate OwnedBack(t: Table) {
    && (forall x :: x in t.x2u ==> t.x2u[x] != [] && NoDup(t.x2u[x]))
    && (forall x, u :: x in t.x2u && u in t.x2u[x] ==> u in t.u2x && t.u2x[u] == x)
  }

  /** Every waiter has a channel and is queued, once, on an owned uid; nobody else is queued. */
  ghost predicate Queued(t: Table) {
    && (forall x :: x in t.xwaitu <==> x in t.waitCh)
    && (forall x :: x in t.xwaitu ==> t.xwaitu[x] in t.u2x && InList(t.wait, t.xwaitu[x], x))
    && (forall u :: u in t.wait ==> t.wait[u] != [] && NoDup(t.wait[u]))
    && (forall u, x :: u in t.wait && x in t.wait[u] ==> x in t.xwaitu && t.xwaitu[x] == u)
  }

  ghost predicate Inv(t: Table) {
    OwnedBack(t) && Queued(t)
  }

  /** `x` owns `u` and will release it when it is removed. */
  predicate HoldsDirectly(t: Table, x: Id, u: Id) {
    InList(t.x2u, x, u)
  }

  lemma TailDistinct(l: seq<Id>)
    requires l != [] && NoDup(l)
    ensures NoDup(l[1..]) && l[0] !in l[1..]
    ensures forall v :: v in l <==> v == l[0] || v in l[1..]
  {
    var rest := l[1..];
    assert l == [l[0]] + rest;
    forall i | 0 <= i < |rest|
      ensures rest[i] == l[i + 1]
    {
    }
  }

  /* ----- Add ----- */

  lemma GrantOwned(t: Table, x: Id, u: Id, t': Table)
    requires OwnedBack(t) && u !in t.u2x && t'.u2x == t.u2x[u := x] && t'.x2u == PutInList(t.x2u, x, u)
    ensures OwnedBack(t')
  {
    var had := if x in t.x2u then t.x2u[x] else [];
    assert t'.x2u[x] == had + [u];
    assert u !in had;
  }

  lemma GrantQueued(t: Table, x: Id, u: Id, t': Table)
    requires Queued(t) && t'.u2x == t.u2x[u := x]
    requires t'.xwaitu == t.xwaitu && t'.wait == t.wait && t'.waitCh == t.waitCh
    ensures Queued(t')
  {
  }

  lemma WaitQueued(t: Table, x: Id, u: Id, t': Table)
    requires Queued(t) && x !in t.xwaitu && u in t.u2x && t'.u2x == t.u2x
    requires t'.xwaitu == t.xwaitu[x := u] && t'.wait == PutInList(t.wait, u, x) && t'.waitCh == t.waitCh + {x}
    ensures Queued(t')
  {
    var had := if u in t.wait then t.wait[u] else [];
    assert t'.wait[u] == had + [x];
    assert x !in had;
    WaitsStayQueued(t, x, u, t');
  }

  lemma WaitsStayQueued(t: Table, x: Id, u: Id, t': Table)
    requires Queued(t) && x !in t.xwaitu && u in t.u2x && t'.u2x == t.u2x
    requires t'.xwaitu == t.xwaitu[x := u] && t'.wait == PutInList(t.wait, u, x)
    ensures forall y :: y in t'.xwaitu ==> t'.xwaitu[y] in t'.u2x && InList(t'.wait, t'.xwaitu[y], y)
  {
    var had := if u in t.wait then t.wait[u] else [];
    assert t'.wait[u] == had + [x];
    forall y | y in t'.xwaitu && y != x ensures InList(t'.wait, t'.xwaitu[y], y) {
      assert InList(t.wait, t.xwaitu[y], y);
    }
  }

  lemma AddKeeps(t: Table, x: Id, u: Id)
    requires Inv(t) && x !in t.xwaitu
    ensures Add(t, x, u).1 != Stuck ==> Inv(Add(t, x, u).0)
  {
    var (t', r) := Add(t, x, u);
    if !InList(t.x2u, x, u) && u !in t.u2x {
      GrantOwned(t, x, u, t');
      GrantQueued(t, x, u, t');
    } else if r == Refused {
      RefusedRestores(t, x, u);
    } else if r == Waits {
      WaitQueued(t, x, u, t');
    }
  }

  /** A refused request leaves no trace: the table is what it was. */
  lemma RefusedRestores(t: Table, x: Id, u: Id)
    requires Inv(t) && x !in t.xwaitu && Add(t, x, u).1 == Refused
    ensures Add(t, x, u).0 == t
  {
    var w := WithEdge(t, x, u);
    AddStuckIff(t, x, u);
    assert w.wait[u] == [x];
    assert w.wait - {u} == t.wait;
    assert w.xwaitu - {x} == t.xwaitu;
  }

  /** A request hangs exactly when it is found to deadlock and somebody is already queued for the uid. */
  lemma AddStuckIff(t: Table, x: Id, u: Id)
    requires Inv(t) && x !in t.xwaitu
    ensures Add(t, x, u).1 == Stuck <==>
            (!HoldsDirectly(t, x, u) && u in t.u2x && u in t.wait && DeadLock(WithEdge(t, x, u)))
  {
    var w := WithEdge(t, x, u);
    if u in t.wait {
      assert w.wait[u][0] == t.wait[u][0];
      assert t.wait[u][0] in t.wait[u];
    } else {
      assert w.wait[u] == [x];
    }
  }

  /** Nobody loses a lock, or stops waiting, through somebody's `Add`. */
  lemma AddFrame(t: Table, x: Id, u: Id)
    requires Inv(t) && x !in t.xwaitu
    ensures var t' := Add(t, x, u).0;
      && (forall v :: v in t.u2x ==> v in t'.u2x && t'.u2x[v] == t.u2x[v])
      && (forall v :: v in t'.u2x ==> v in t.u2x || (v == u && t'.u2x[v] == x))
      && (forall y, v :: HoldsDirectly(t', y, v) ==> HoldsDirectly(t, y, v) || (y == x && v == u && u !in t.u2x))
      && (forall y, v :: HoldsDirectly(t, y, v) ==> HoldsDirectly(t', y, v))
      && (forall y :: y != x ==> (y in t'.xwaitu <==> y in t.xwaitu))
      && (forall y :: y != x && y in t.xwaitu ==> t'.xwaitu[y] == t.xwaitu[y])
  {
  }

  /** `y` waits for a uid that `z` owns. */
  predicate WaitsFor(t: Table, y: Id, z: Id) {
    y in t.xwaitu && t.xwaitu[y] in t.u2x && t.u2x[t.xwaitu[y]] == z
  }

  /** A walk over the wait-for edges of the table and one more, from `x` to `z`. */
  predicate Walks(t: Table, x: Id, z: Id, p: seq<Id>) {
    p != [] && forall i :: 0 <= i < |p| - 1 ==> WaitsFor(t, p[i], p[i + 1]) || (p[i] == x && p[i + 1] == z)
  }

  ghost predicate Repeats(p: seq<Id>) {
    exists i, j :: 0 <= i < j < |p| && p[i] == p[j]
  }

  /** Somebody who holds a uid directly would come to some xid twice if `x` waited for `z`. */
  ghost predicate WouldClose(t: Table, x: Id, z: Id) {
    exists p :: Walks(t, x, z, p) && p[0] in t.x2u && Repeats(p)
  }

  lemma FollowOne(t: Table, x: Id, n: nat)
    requires Follow(t, x, n).Some?
    ensures Follow(t, x, n + 1) == Next(t, Follow(t, x, n).value)
  {
    var y := Follow(t, x, n).value;
    FollowAdd(t, x, n, 1);
    if Next(t, y).Some? {
      assert Follow(t, Next(t, y).value, 0) == Next(t, y);
    }
  }

  lemma {:induction false} WalkFollows(t: Table, x: Id, u: Id, p: seq<Id>, n: nat)
    requires x !in t.xwaitu && u in t.u2x && Walks(t, x, t.u2x[u], p) && n < |p|
    ensures Follow(WithEdge(t, x, u), p[0], n) == Some(p[n])
    decreases n
  {
    if n > 0 {
      WalkFollows(t, x, u, p, n - 1);
      FollowOne(WithEdge(t, x, u), p[0], n - 1);
      assert WaitsFor(t, p[n - 1], p[n - 1 + 1]) || (p[n - 1] == x && p[n - 1 + 1] == t.u2x[u]);
    }
  }

  lemma FollowWalks(t: Table, x: Id, u: Id, k: Id, n: nat) returns (p: seq<Id>)
    requires u in t.u2x && Follow(WithEdge(t, x, u), k, n).Some?
    ensures |p| == n + 1 && p[0] == k && Walks(t, x, t.u2x[u], p)
    ensures forall i :: 0 <= i <= n ==> Follow(WithEdge(t, x, u), k, i) == Some(p[i])
  {
    var w := WithEdge(t, x, u);
    forall i: nat | i < n ensures Follow(w, k, i).Some? && Follow(w, k, i + 1) == Next(w, Follow(w, k, i).value) {
      PassedHasNext(w, k, n, i);
      FollowOne(w, k, i);
    }
    p := seq(n + 1, i requires 0 <= i <= n => Follow(w, k, i).value);
    forall i | 0 <= i < n ensures WaitsFor(t, p[i], p[i + 1]) || (p[i] == x && p[i + 1] == t.u2x[u]) {
      assert Follow(w, k, i + 1) == Next(w, p[i]);
      PassedHasNext(w, k, n, i);
    }
  }

  /** What the search looks for, said without the search. */
  lemma DeadLockIff(t: Table, x: Id, u: Id)
    requires x !in t.xwaitu && u in t.u2x
    ensures DeadLock(WithEdge(t, x, u)) <==> WouldClose(t, x, t.u2x[u])
  {
    var w := WithEdge(t, x, u);
    if DeadLock(w) {
      var k :| k in w.x2u && Revisits(w, k);
      var i: nat, j: nat :| i < j && Follow(w, k, i).Some? && Follow(w, k, i) == Follow(w, k, j);
      var p := FollowWalks(t, x, u, k, j);
      assert p[i] == p[j];
    }
    if WouldClose(t, x, t.u2x[u]) {
      var p :| Walks(t, x, t.u2x[u], p) && p[0] in t.x2u && Repeats(p);
      var i, j :| 0 <= i < j < |p| && p[i] == p[j];
      WalkFollows(t, x, u, p, i);
      WalkFollows(t, x, u, p, j);
    }
  }

  /**
   What each answer of `Add` means for the caller: a wait is admitted if and only if nobody who holds
   a uid directly would then come to an xid twice, whatever the caller itself holds.
   */
  lemma AddAnswer(t: Table, x: Id, u: Id)
    requires Inv(t) && x !in t.xwaitu
    ensures var (t', r) := Add(t, x, u);
      && (r == Granted <==> HoldsDirectly(t, x, u) || u !in t.u2x)
      && (r == Granted ==> u in t'.u2x && t'.u2x[u] == x && x !in t'.xwaitu)
      && (r == Waits ==> x in t'.xwaitu && t'.xwaitu[x] == u && u in t'.wait && t'.wait[u][|t'.wait[u]| - 1] == x)
      && (r == Refused || r == Stuck ==> x !in t'.xwaitu)
      && (r != Granted ==> (r == Waits <==> !WouldClose(t, x, t.u2x[u])))
      && (r != Granted ==> (r == Refused <==> WouldClose(t, x, t.u2x[u]) && u !in t.wait))
  {
    if u in t.u2x {
      DeadLockIff(t, x, u);
    }
    AddStuckIff(t, x, u);
    AddWaits(t, x, u);
  }

  lemma AddWaits(t: Table, x: Id, u: Id)
    requires Queued(t)
    ensures var (t', r) := Add(t, x, u);
      r == Waits ==> x in t'.xwaitu && t'.xwaitu[x] == u && u in t'.wait && t'.wait[u][|t'.wait[u]| - 1] == x
  {
  }

  /* ----- Remove ----- */

  function SetList(m: map<Id, seq<Id>>, x: Id, l: seq<Id>): map<Id, seq<Id>> {
    if l == [] then m - {x} else m[x := l]
  }

  /** Under the invariant the first in the queue gets the lock. */
  lemma SelectNewShape(t: Table, u: Id)
    requires Inv(t)
    ensures u !in t.wait ==> SelectNew(t, u) == t.(u2x := t.u2x - {u})
    ensures u in t.wait ==>
      && t.wait[u][0] in t.xwaitu && t.xwaitu[t.wait[u][0]] == u
      && SelectNew(t, u) ==
         Grant(t, u, t.wait[u][0]).(wait := SetList(t.wait, u, t.wait[u][1..]))
  {
    if u in t.wait {
      var w := t.wait[u][0];
      assert w in t.wait[u];
      assert (t.u2x - {u})[u := w] == t.u2x[u := w];
    }
  }

  lemma SelectNewKeeps(t: Table, x: Id, u: Id, rest: seq<Id>)
    requires Inv(t) && x in t.x2u && t.x2u[x] == [u] + rest
    ensures Inv(SelectNew(t, u).(x2u := SetList(t.x2u, x, rest)))
  {
    SelectNewShape(t, u);
    var t' := SelectNew(t, u).(x2u := SetList(t.x2u, x, rest));
    assert u == t.x2u[x][0];
    assert u in t.x2u[x];
    assert t.u2x[u] == x;
    TailDistinct(t.x2u[x]);
    assert rest == t.x2u[x][1..];
    assert OwnedBack(t') by {
      forall y, v | y in t'.x2u && v in t'.x2u[y]
        ensures v in t'.u2x && t'.u2x[v] == y
      {
        assert v in t.x2u[y];
        assert t.u2x[v] == y;
        assert v != u;
      }
    }
    QueueShift(t, u, t');
  }

  lemma QueueShift(t: Table, u: Id, t': Table)
    requires Inv(t) && u in t.u2x
    requires t' == SelectNew(t, u).(x2u := t'.x2u)
    ensures Queued(t')
  {
    SelectNewShape(t, u);
    if u in t.wait {
      HeadGoes(t, u, t');
    } else {
      NoneGoes(t, u, t');
    }
  }

  lemma NoneGoes(t: Table, u: Id, t': Table)
    requires Queued(t) && u !in t.wait && t'.u2x == t.u2x - {u}
    requires t'.xwaitu == t.xwaitu && t'.wait == t.wait && t'.waitCh == t.waitCh
    ensures Queued(t')
  {
    forall y | y in t'.xwaitu
      ensures t'.xwaitu[y] in t'.u2x
    {
      assert InList(t.wait, t.xwaitu[y], y);
    }
  }

  lemma HeadGoes(t: Table, u: Id, t': Table)
    requires Queued(t) && u in t.wait && u in t.u2x && t.wait[u][0] in t.xwaitu && t.xwaitu[t.wait[u][0]] == u
    requires var w := t.wait[u][0];
      && t'.u2x == t.u2x[u := w] && t'.xwaitu == t.xwaitu - {w} && t'.waitCh == t.waitCh - {w}
      && t'.wait == SetList(t.wait, u, t.wait[u][1..])
    ensures Queued(t')
  {
    TailDistinct(t.wait[u]);
    forall y | y in t'.xwaitu
      ensures t'.xwaitu[y] in t'.u2x && InList(t'.wait, t'.xwaitu[y], y)
    {
      assert y != t.wait[u][0] && t.xwaitu[y] == t'.xwaitu[y];
    }
  }

  /** The wait-for edges after a hand-over are old ones, or lead to the new owner, who waits for nothing. */
  lemma SelectNewAcyclic(t: Table, u: Id)
    requires Inv(t) && Acyclic(t)
    ensures Acyclic(SelectNew(t, u))
  {
    SelectNewShape(t, u);
    NoNewCycle(t, SelectNew(t, u));
  }

  /** Only `u` changes hands, and whoever stops waiting has got it. */
  lemma SelectNewFrame(t: Table, u: Id)
    requires Inv(t)
    ensures var t' := SelectNew(t, u);
      && t'.x2u == t.x2u
      && (forall v :: v != u ==> (v in t'.u2x <==> v in t.u2x))
      && (forall v :: v != u && v in t.u2x ==> t'.u2x[v] == t.u2x[v])
      && (forall y :: y in t'.xwaitu ==> y in t.xwaitu && t'.xwaitu[y] == t.xwaitu[y])
      && (forall y :: y in t.xwaitu && y !in t'.xwaitu ==>
            t.xwaitu[y] == u && u in t'.u2x && t'.u2x[u] == y)
  {
    SelectNewShape(t, u);
  }

  lemma SelectNewCommutes(t: Table, u: Id, m: map<Id, seq<Id>>)
    ensures SelectNew(t.(x2u := m), u) == SelectNew(t, u).(x2u := m)
  {
  }

  ghost predicate ReleaseFrame(t: Table, t': Table, us: seq<Id>) {
    && (forall v :: v !in us ==> (v in t'.u2x <==> v in t.u2x))
    && (forall v :: v !in us && v in t.u2x ==> t'.u2x[v] == t.u2x[v])
    && (forall y :: y in t'.xwaitu ==> y in t.xwaitu && t'.xwaitu[y] == t.xwaitu[y])
    && (forall y :: y in t.xwaitu && y !in t'.xwaitu ==>
          t.xwaitu[y] in us && t.xwaitu[y] in t'.u2x && t'.u2x[t.xwaitu[y]] == y)
  }

  /** Releasing the first of `x`'s uids. */
  lemma ReleaseOne(t: Table, x: Id, us: seq<Id>, t1: Table)
    requires us != [] && NoDup(us) && Inv(t.(x2u := SetList(t.x2u, x, us))) && t1 == SelectNew(t, us[0])
    ensures t1.x2u == t.x2u && Inv(t1.(x2u := SetList(t.x2u, x, us[1..]))) && NoDup(us[1..])
    ensures ReleaseFrame(t, t1, [us[0]])
    ensures Acyclic(t) ==> Acyclic(t1)
  {
    var s := t.(x2u := SetList(t.x2u, x, us));
    SelectNewCommutes(t, us[0], s.x2u);
    TailDistinct(us);
    ReleaseOneKeeps(t, s, x, us);
    ReleaseOneFrame(s, us[0], t1, t);
    ReleaseOneAcyclic(t, s, us[0]);
  }

  lemma ReleaseOneKeeps(t: Table, s: Table, x: Id, us: seq<Id>)
    requires us != [] && Inv(s) && s.x2u == t.x2u[x := us]
    ensures Inv(SelectNew(s, us[0]).(x2u := SetList(t.x2u, x, us[1..])))
  {
    assert us == [us[0]] + us[1..];
    assert SetList(s.x2u, x, us[1..]) == SetList(t.x2u, x, us[1..]);
    SelectNewKeeps(s, x, us[0], us[1..]);
  }

  lemma ReleaseOneFrame(s: Table, u: Id, t1: Table, t: Table)
    requires Inv(s) && s == t.(x2u := s.x2u) && t1 == SelectNew(t, u)
    requires SelectNew(s, u) == t1.(x2u := s.x2u)
    ensures ReleaseFrame(t, t1, [u])
  {
    SelectNewFrame(s, u);
  }

  lemma ReleaseOneAcyclic(t: Table, s: Table, u: Id)
    requires Inv(s) && s == t.(x2u := s.x2u)
    ensures Acyclic(t) ==> Acyclic(SelectNew(t, u))
  {
    SelectNewCommutes(t, u, s.x2u);
    if Acyclic(t) {
      AcyclicIgnoresHoldings(t, s);
      SelectNewAcyclic(s, u);
      AcyclicIgnoresHoldings(SelectNew(s, u), SelectNew(t, u));
    }
  }

  lemma ReleaseNothing(t: Table, x: Id)
    requires Inv(t.(x2u := SetList(t.x2u, x, [])))
    ensures Inv(t.(x2u := t.x2u - {x})) && ReleaseFrame(t, t, [])
  {
  }

  lemma {:induction false} ReleaseAllKeeps(t: Table, x: Id, us: seq<Id>)
    requires Inv(t.(x2u := SetList(t.x2u, x, us)))
    requires NoDup(us)
    ensures Inv(ReleaseAll(t, us).(x2u := t.x2u - {x}))
    ensures ReleaseAll(t, us).x2u == t.x2u
    ensures ReleaseFrame(t, ReleaseAll(t, us), us)
    ensures Acyclic(t) ==> Acyclic(ReleaseAll(t, us))
    decreases |us|
  {
    if us == [] {
      ReleaseNothing(t, x);
    } else {
      var t1 := SelectNew(t, us[0]);
      ReleaseOne(t, x, us, t1);
      ReleaseAllKeeps(t1, x, us[1..]);
      ReleaseFrameChain(t, t1, ReleaseAll(t1, us[1..]), us);
    }
  }

  lemma ReleaseFrameChain(t: Table, t1: Table, t2: Table, us: seq<Id>)
    requires us != [] && NoDup(us)
    requires ReleaseFrame(t, t1, [us[0]]) && ReleaseFrame(t1, t2, us[1..])
    ensures ReleaseFrame(t, t2, us)
  {
    var u, rest := us[0], us[1..];
    TailDistinct(us);
    assert u in [us[0]];
    forall y | y in t.xwaitu && y !in t2.xwaitu
      ensures t.xwaitu[y] in us && t.xwaitu[y] in t2.u2x && t2.u2x[t.xwaitu[y]] == y
    {
      if y !in t1.xwaitu {
        assert t.xwaitu[y] in [us[0]];
        assert t.xwaitu[y] == u;
      }
    }
  }

  lemma AcyclicIgnoresHoldings(t: Table, t': Table)
    requires Acyclic(t) && t' == t.(x2u := t'.x2u)
    ensures Acyclic(t')
  {
    assert forall x :: Next(t', x) == Next(t, x);
    NoNewCycle(t, t');
  }

  /**
   Removing an xid that does not wait keeps the invariant and keeps the graph acyclic; it takes
   nothing from anybody else, and whoever stops waiting now owns what it waited for.
   */
  lemma RemoveKeeps(t: Table, x: Id)
    requires Inv(t) && x !in t.xwaitu
    ensures var t' := Remove(t, x);
      && Inv(t')
      && t'.x2u == t.x2u - {x}
      && (Acyclic(t) ==> Acyclic(t'))
      && ReleaseFrame(t, t', if x in t.x2u then t.x2u[x] else [])
  {
    var us := if x in t.x2u then t.x2u[x] else [];
    var r := ReleaseAll(t, us);
    Released(t, x, us);
    FrameIgnoresHoldings(t, r, Remove(t, x), us);
    RemovedAcyclic(r, Remove(t, x));
  }

  lemma Released(t: Table, x: Id, us: seq<Id>)
    requires Inv(t) && x !in t.xwaitu && us == if x in t.x2u then t.x2u[x] else []
    ensures var r := ReleaseAll(t, us);
      && Remove(t, x) == r.(x2u := t.x2u - {x}) && Inv(Remove(t, x))
      && (Acyclic(t) ==> Acyclic(r)) && ReleaseFrame(t, r, us)
  {
    SetListSame(t, x);
    ReleaseAllKeeps(t, x, us);
    ForgetsNothing(t, ReleaseAll(t, us), x, us);
  }

  lemma FrameIgnoresHoldings(t: Table, r: Table, t': Table, us: seq<Id>)
    requires ReleaseFrame(t, r, us) && t' == r.(x2u := t'.x2u)
    ensures ReleaseFrame(t, t', us)
  {
  }

  lemma SetListSame(t: Table, x: Id)
    requires Inv(t)
    ensures var us := if x in t.x2u then t.x2u[x] else []; t.(x2u := SetList(t.x2u, x, us)) == t && NoDup(us)
  {
    var us := if x in t.x2u then t.x2u[x] else [];
    assert SetList(t.x2u, x, us) == t.x2u;
  }

  lemma RemovedAcyclic(r: Table, t': Table)
    requires t' == r.(x2u := t'.x2u)
    ensures Acyclic(r) ==> Acyclic(t')
  {
    if Acyclic(r) {
      AcyclicIgnoresHoldings(r, t');
    }
  }

  /** An xid that did not wait does not wait after its release. */
  lemma ForgetsNothing(t: Table, r: Table, x: Id, us: seq<Id>)
    requires ReleaseFrame(t, r, us) && x !in t.xwaitu && Queued(r) && r.x2u == t.x2u
    ensures Forget(r, x) == r.(x2u := t.x2u - {x})
  {
    assert x !in r.xwaitu && x !in r.waitCh;
    assert r.xwaitu - {x} == r.xwaitu && r.waitCh - {x} == r.waitCh;
  }

  predicate Owns(t: Table, x: Id, u: Id) {
    u in t.u2x && t.u2x[u] == x
  }

  /** Who gets what a removal releases: the first in its queue, who then waits no longer, or nobody. */
  ghost predicate Handed(t: Table, t': Table, us: seq<Id>) {
    forall u :: u in us ==>
      if u in t.wait && t.wait[u] != [] then Owns(t', t.wait[u][0], u) && t.wait[u][0] !in t'.xwaitu
      else u !in t'.u2x
  }

  lemma SelectNewHands(t: Table, u: Id)
    requires Inv(t)
    ensures Handed(t, SelectNew(t, u), [u])
    ensures forall v :: v != u ==> (v in SelectNew(t, u).wait <==> v in t.wait)
    ensures forall v :: v != u && v in t.wait ==> SelectNew(t, u).wait[v] == t.wait[v]
  {
    SelectNewShape(t, u);
  }

  /** As `SelectNewHands`, for a table that differs from an orderly one in the holdings only. */
  lemma HandsFirst(t: Table, s: Table, u: Id)
    requires Inv(s) && s == t.(x2u := s.x2u)
    ensures Handed(t, SelectNew(t, u), [u])
    ensures forall v :: v != u ==> (v in SelectNew(t, u).wait <==> v in t.wait)
    ensures forall v :: v != u && v in t.wait ==> SelectNew(t, u).wait[v] == t.wait[v]
  {
    SelectNewCommutes(t, u, s.x2u);
    SelectNewHands(s, u);
  }

  lemma {:induction false} ReleaseAllHands(t: Table, x: Id, us: seq<Id>)
    requires Inv(t.(x2u := SetList(t.x2u, x, us))) && NoDup(us)
    ensures Handed(t, ReleaseAll(t, us), us)
    decreases |us|
  {
    if us != [] {
      var t1 := SelectNew(t, us[0]);
      ReleaseOne(t, x, us, t1);
      HandsFirst(t, t.(x2u := SetList(t.x2u, x, us)), us[0]);
      ReleaseAllHands(t1, x, us[1..]);
      ReleaseAllKeeps(t1, x, us[1..]);
      TailDistinct(us);
      HandsRest(t, t1, ReleaseAll(t1, us[1..]), us);
    }
  }

  lemma HandsRest(t: Table, t1: Table, t2: Table, us: seq<Id>)
    requires us != [] && us[0] !in us[1..] && (forall v :: v in us <==> v == us[0] || v in us[1..])
    requires Handed(t, t1, [us[0]]) && Handed(t1, t2, us[1..]) && ReleaseFrame(t1, t2, us[1..])
    requires forall v :: v != us[0] ==> (v in t1.wait <==> v in t.wait)
    requires forall v :: v != us[0] && v in t.wait ==> t1.wait[v] == t.wait[v]
    ensures Handed(t, t2, us)
  {
    assert us[0] in [us[0]];
  }

  /** A removal frees every uid its xid holds directly: each goes to the head of its queue, or to nobody. */
  lemma RemoveHands(t: Table, x: Id)
    requires Inv(t) && x !in t.xwaitu
    ensures forall u :: HoldsDirectly(t, x, u) ==>
      if u in t.wait then Owns(Remove(t, x), t.wait[u][0], u) && t.wait[u][0] !in Remove(t, x).xwaitu && t.wait[u][0] != x
      else u !in Remove(t, x).u2x
  {
    RemoveHanded(t, x);
    QueuedAreOthers(t, x);
  }

  lemma RemoveHanded(t: Table, x: Id)
    requires Inv(t) && x !in t.xwaitu
    ensures Handed(t, Remove(t, x), if x in t.x2u then t.x2u[x] else [])
  {
    var us := if x in t.x2u then t.x2u[x] else [];
    SetListSame(t, x);
    ReleaseAllHands(t, x, us);
    Released(t, x, us);
  }

  /** Queues are not empty, and an xid that does not wait is in none of them. */
  lemma QueuedAreOthers(t: Table, x: Id)
    requires Queued(t) && x !in t.xwaitu
    ensures forall u :: u in t.wait ==> t.wait[u] != [] && t.wait[u][0] != x
  {
    forall u | u in t.wait ensures t.wait[u] != [] && t.wait[u][0] != x {
      assert t.wait[u][0] in t.wait[u];
    }
  }

  /** At its own removal an owner loses a uid if and only if it holds it directly, not by hand-over. */
  lemma RemovedOwnerLosesIff(t: Table, x: Id, u: Id)
    requires Inv(t) && x !in t.xwaitu && Owns(t, x, u)
    ensures !Owns(Remove(t, x), x, u) <==> HoldsDirectly(t, x, u)
  {
    RemoveHands(t, x);
    RemoveKeeps(t, x);
  }

  /* ----- runs ----- */

  datatype Op = DoAdd(x: Id, u: Id) | DoRemove(x: Id)

  /** The table, the xids already removed, and whether a call is stuck inside the mutex. */
  datatype State = State(t: Table, gone: set<Id>, stuck: bool)

  const START := State(EMPTY, {}, false)

  /** A waiting xid makes no calls, a removed one never returns, and nothing runs behind a stuck call. */
  predicate Enabled(s: State, op: Op) {
    !s.stuck && op.x !in s.t.xwaitu && op.x !in s.gone
  }

  ghost function Step(s: State, op: Op): State {
    match op
    case DoAdd(x, u) =>
      var (t', r) := Add(s.t, x, u);
      State(t', s.gone, r == Stuck)
    case DoRemove(x) => State(Remove(s.t, x), s.gone + {x}, false)
  }

  ghost function Run(ops: seq<Op>): State
    decreases |ops|
  {
    if ops == [] then START else Step(Run(ops[..|ops| - 1]), ops[|ops| - 1])
  }

  ghost predicate Legal(ops: seq<Op>) {
    forall i :: 0 <= i < |ops| ==> Enabled(Run(ops[..i]), ops[i])
  }

  lemma LegalPrefix(ops: seq<Op>, i: nat)
    requires Legal(ops) && i <= |ops|
    ensures Legal(ops[..i])
  {
    forall j | 0 <= j < i
      ensures Enabled(Run(ops[..i][..j]), ops[..i][j])
    {
      assert ops[..i][..j] == ops[..j];
    }
  }

  /** The lock-table invariant holds at the end of every legal run that is not stuck. */
  lemma {:induction false} InvariantOverRuns(ops: seq<Op>)
    requires Legal(ops)
    ensures !Run(ops).stuck ==> Inv(Run(ops).t)
    decreases |ops|
  {
    if ops != [] {
      var n := |ops| - 1;
      LegalPrefix(ops, n);
      InvariantOverRuns(ops[..n]);
      var s := Run(ops[..n]);
      assert Enabled(s, ops[n]);
      match ops[n] {
        case DoAdd(x, u) => AddKeeps(s.t, x, u);
        case DoRemove(x) => RemoveKeeps(s.t, x);
      }
    }
  }

  /** A uid changes hands only when its owner is removed while holding it directly. */
  lemma OwnerStep(s: State, op: Op, u: Id, x: Id)
    requires Inv(s.t) && Enabled(s, op) && u in s.t.u2x && s.t.u2x[u] == x
    ensures var t' := Step(s, op).t;
      (u in t'.u2x && t'.u2x[u] == x) || (op == DoRemove(x) && HoldsDirectly(s.t, x, u))
    ensures !HoldsDirectly(s.t, x, u) ==> !HoldsDirectly(Step(s, op).t, x, u)
  {
    match op {
      case DoAdd(y, v) => AddFrame(s.t, y, v);
      case DoRemove(y) => RemoveKeeps(s.t, y);
    }
  }

  /** Mutual exclusion: between two owners of a uid lies the removal of the first. */
  lemma GrantedOnlyAfterRemoval(ops: seq<Op>, i: nat, u: Id, x: Id)
    requires Legal(ops) && i <= |ops| && !Run(ops).stuck
    requires Owns(Run(ops[..i]).t, x, u) && !Owns(Run(ops).t, x, u)
    ensures exists k :: i <= k < |ops| && ops[k] == DoRemove(x)
  {
    if forall k :: i <= k < |ops| ==> ops[k] != DoRemove(x) {
      OwnerStays(ops, i, u, x);
    }
  }

  /** An owner that is not removed keeps its lock. */
  lemma {:induction false} OwnerStays(ops: seq<Op>, i: nat, u: Id, x: Id)
    requires Legal(ops) && i <= |ops| && !Run(ops).stuck
    requires Owns(Run(ops[..i]).t, x, u) && forall k :: i <= k < |ops| ==> ops[k] != DoRemove(x)
    ensures Owns(Run(ops).t, x, u)
    decreases |ops|
  {
    if i == |ops| {
      assert ops[..i] == ops;
    } else {
      var prev := ops[..|ops| - 1];
      LastStep(ops);
      assert prev[..i] == ops[..i];
      OwnerStays(prev, i, u, x);
      OwnerKept(Run(prev), ops[|ops| - 1], u, x);
    }
  }

  lemma OwnerKept(s: State, op: Op, u: Id, x: Id)
    requires Inv(s.t) && Enabled(s, op) && Owns(s.t, x, u) && op != DoRemove(x)
    ensures Owns(Step(s, op).t, x, u)
  {
    OwnerStep(s, op, u, x);
  }

  lemma LastStep(ops: seq<Op>)
    requires Legal(ops) && ops != [] && !Run(ops).stuck
    ensures var prev := ops[..|ops| - 1];
      && Legal(prev) && !Run(prev).stuck && Inv(Run(prev).t)
      && Enabled(Run(prev), ops[|ops| - 1])
      && Run(ops) == Step(Run(prev), ops[|ops| - 1])
  {
    LegalPrefix(ops, |ops| - 1);
    InvariantOverRuns(ops[..|ops| - 1]);
  }

  /** `x` got `u` by a hand-over: `selectNewXID` does not enter it in `x2u`. */
  predicate HandedOver(s: State, x: Id, u: Id) {
    u in s.t.u2x && s.t.u2x[u] == x && !HoldsDirectly(s.t, x, u)
  }

  lemma HandedOverStep(s: State, op: Op, x: Id, u: Id)
    requires Inv(s.t) && Enabled(s, op) && HandedOver(s, x, u)
    ensures HandedOver(Step(s, op), x, u)
  {
    OwnerStep(s, op, u, x);
  }

  /** A handed-over lock is never released, not even by the removal of its owner. */
  lemma {:induction false} HandedOverLockIsKept(ops: seq<Op>, i: nat, x: Id, u: Id)
    requires Legal(ops) && i <= |ops| && !Run(ops).stuck
    requires HandedOver(Run(ops[..i]), x, u)
    ensures HandedOver(Run(ops), x, u)
    decreases |ops|
  {
    if i == |ops| {
      assert ops[..i] == ops;
    } else {
      var prev := ops[..|ops| - 1];
      LastStep(ops);
      assert prev[..i] == ops[..i];
      HandedOverLockIsKept(prev, i, x, u);
      HandedOverStep(Run(prev), ops[|ops| - 1], x, u);
    }
  }

  /* ----- deadlock detection ----- */

  /** Every xid that comes to wait has acquired some uid directly before. */
  ghost predicate WaitersHold(ops: seq<Op>) {
    forall i :: 0 <= i < |ops| && ops[i].DoAdd? && Add(Run(ops[..i]).t, ops[i].x, ops[i].u).1 == Waits ==>
      ops[i].x in Run(ops[..i]).t.x2u
  }

  ghost predicate WaitersAreKeys(t: Table) {
    forall x :: x in t.xwaitu ==> x in t.x2u
  }

  lemma AddKeepsAcyclic(t: Table, x: Id, u: Id)
    requires Inv(t) && x !in t.xwaitu && Acyclic(t) && WaitersAreKeys(t)
    requires Add(t, x, u).1 == Waits ==> x in t.x2u
    ensures var t' := Add(t, x, u).0;
      Add(t, x, u).1 != Stuck ==> Acyclic(t') && WaitersAreKeys(t')
  {
    var (t', r) := Add(t, x, u);
    if r == Granted {
      forall y
        ensures Next(t', y) == Next(t, y)
      {
      }
      NoNewCycle(t, t');
    } else if r == Refused {
      RefusedRestores(t, x, u);
    } else if r == Waits {
      var w := WithEdge(t, x, u);
      forall y
        ensures !Revisits(w, y)
      {
        if y in w.xwaitu {
          assert y in w.x2u;
        } else {
          SinkHasNoRevisit(w, y);
        }
      }
      assert forall y :: Next(t', y) == Next(w, y);
      NoNewCycle(w, t');
    }
  }

  /** The wait-for graph stays acyclic in every run where whoever waits owns something directly. */
  lemma {:induction false} AcyclicOverRuns(ops: seq<Op>)
    requires Legal(ops) && WaitersHold(ops)
    ensures StaysAcyclic(ops)
    decreases |ops|
  {
    if ops == [] {
      EmptyAcyclic();
    } else {
      var prev := Before(ops);
      AcyclicOverRuns(prev);
      AcyclicStep(ops, prev);
    }
  }

  /** A run without its last operation. */
  lemma Before(ops: seq<Op>) returns (prev: seq<Op>)
    requires Legal(ops) && WaitersHold(ops) && ops != []
    ensures |prev| < |ops| && prev == ops[..|ops| - 1] && Legal(prev) && WaitersHold(prev)
  {
    prev := ops[..|ops| - 1];
    assert Legal(prev) by {
      LegalPrefix(ops, |ops| - 1);
    }
    assert WaitersHold(prev) by {
      WaitersHeld(ops);
    }
  }

  /** The claim of `AcyclicOverRuns` for one run. */
  ghost predicate StaysAcyclic(ops: seq<Op>) {
    !Run(ops).stuck ==> Acyclic(Run(ops).t) && WaitersAreKeys(Run(ops).t)
  }

  lemma EmptyAcyclic()
    ensures Acyclic(EMPTY) && WaitersAreKeys(EMPTY)
  {
    forall y
      ensures !Revisits(EMPTY, y)
    {
      SinkHasNoRevisit(EMPTY, y);
    }
  }

  lemma WaitersHeld(ops: seq<Op>)
    requires ops != [] && WaitersHold(ops)
    ensures WaitersHold(ops[..|ops| - 1])
  {
    var prev := ops[..|ops| - 1];
    forall i | 0 <= i < |prev| && prev[i].DoAdd? && Add(Run(prev[..i]).t, prev[i].x, prev[i].u).1 == Waits
      ensures prev[i].x in Run(prev[..i]).t.x2u
    {
      assert prev[..i] == ops[..i];
    }
  }

  lemma AcyclicStep(ops: seq<Op>, prev: seq<Op>)
    requires Legal(ops) && WaitersHold(ops) && ops != [] && prev == ops[..|ops| - 1] && Legal(prev) && StaysAcyclic(prev)
    ensures StaysAcyclic(ops)
  {
    var n, s := |ops| - 1, Run(prev);
    InvariantOverRuns(prev);
    assert Enabled(s, ops[n]);
    match ops[n] {
      case DoAdd(x, u) => AddKeepsAcyclic(s.t, x, u);
      case DoRemove(x) => RemoveKeeps(s.t, x);
    }
  }

  /** `y` waits, over any number of wait-for edges, for `x`. */
  ghost predicate LeadsTo(t: Table, y: Id, x: Id) {
    exists n: nat :: Follow(t, y, n) == Some(x)
  }

  /** Some xid with directly owned uids leads to `x`. */
  ghost predicate HolderLeadsTo(t: Table, x: Id) {
    exists k :: k in t.x2u && LeadsTo(t, k, x)
  }

  /**
   Exactness of the admission test: on an acyclic graph a request for an owned uid is turned down if
   and only if it closes a cycle, the owner of the uid being blocked by the caller, and the caller is
   reachable from an xid that owns something directly.
   */
  lemma ClosingWaitIsSeenIff(t: Table, x: Id, u: Id)
    requires Inv(t) && Acyclic(t) && x !in t.xwaitu && u in t.u2x && !HoldsDirectly(t, x, u)
    ensures Add(t, x, u).1 == Waits <==> !(LeadsTo(t, t.u2x[u], x) && HolderLeadsTo(t, x))
  {
    var w := WithEdge(t, x, u);
    SeenIff(t, x, u);
    ClosesIff(t, x, u);
    forall k ensures LeadsTo(w, k, x) <==> LeadsTo(t, k, x) {
      LeadsAlike(t, w, x, k);
    }
  }

  lemma SeenIff(t: Table, x: Id, u: Id)
    requires Acyclic(t) && x !in t.xwaitu && u in t.u2x
    ensures var w := WithEdge(t, x, u); DeadLock(w) <==> Revisits(w, x) && HolderLeadsTo(w, x)
  {
    var w := WithEdge(t, x, u);
    if DeadLock(w) {
      var k :| k in w.x2u && Revisits(w, k);
      var y, n, m := RevisitHasCycle(w, k);
      // a cycle of the new graph passes through x, the only xid with a new edge
      var d := CyclePassesNewEdge(t, w, x, y, n);
      FollowAdd(w, k, m, d);
      assert Follow(w, k, m + d) == Some(x);
      RevisitsAlong(w, k, m + d);
      assert LeadsTo(w, k, x);
    }
    if Revisits(w, x) && HolderLeadsTo(w, x) {
      var k :| k in w.x2u && LeadsTo(w, k, x);
      var n: nat :| Follow(w, k, n) == Some(x);
      RevisitsAlong(w, k, n);
    }
  }

  /** The new edge lies on a cycle exactly if the owner already leads to the caller. */
  lemma ClosesIff(t: Table, x: Id, u: Id)
    requires Acyclic(t) && x !in t.xwaitu && u in t.u2x
    ensures Revisits(WithEdge(t, x, u), x) <==> LeadsTo(t, t.u2x[u], x)
  {
    var w, o := WithEdge(t, x, u), t.u2x[u];
    assert Next(w, x) == Some(o);
    LeadsAlike(t, w, x, o);
    if Revisits(w, x) {
      var y, n, m := RevisitHasCycle(w, x);
      var d := CyclePassesNewEdge(t, w, x, y, n);
      FollowAdd(w, x, m, n);
      FollowAdd(w, x, m + n, d);
      assert Follow(w, o, m + n + d - 1) == Some(x);
    }
    if LeadsTo(w, o, x) {
      var n: nat :| Follow(w, o, n) == Some(x);
      CycleRevisits(w, x, n + 1);
    }
  }

  /** On the way to `x` its own edge plays no part. */
  lemma LeadsAlike(t: Table, w: Table, x: Id, k: Id)
    requires x !in t.xwaitu && forall z :: z != x ==> Next(w, z) == Next(t, z)
    ensures LeadsTo(w, k, x) <==> LeadsTo(t, k, x)
  {
    if n: nat :| Follow(w, k, n) == Some(x) {
      FollowsOld(t, w, x, k, n);
    }
    if n: nat :| Follow(t, k, n) == Some(x) {
      FollowsNew(t, w, x, k, n);
    }
  }

  lemma {:induction false} FollowsOld(t: Table, w: Table, x: Id, k: Id, n: nat)
    requires (forall z :: z != x ==> Next(w, z) == Next(t, z)) && Follow(w, k, n) == Some(x)
    ensures LeadsTo(t, k, x)
    decreases n
  {
    if k == x {
      assert Follow(t, k, 0) == Some(x);
    } else {
      var y := Next(w, k).value;
      FollowsOld(t, w, x, y, n - 1);
      var m: nat :| Follow(t, y, m) == Some(x);
      assert Follow(t, k, m + 1) == Some(x);
    }
  }

  lemma {:induction false} FollowsNew(t: Table, w: Table, x: Id, k: Id, n: nat)
    requires x !in t.xwaitu && (forall z :: z != x ==> Next(w, z) == Next(t, z)) && Follow(t, k, n) == Some(x)
    ensures Follow(w, k, n) == Some(x)
    decreases n
  {
    if n > 0 {
      FollowsNew(t, w, x, Next(t, k).value, n - 1);
    }
  }

  lemma CyclePassesNewEdge(t: Table, w: Table, x: Id, y: Id, n: nat) returns (d: nat)
    requires Acyclic(t) && n > 0 && Follow(w, y, n) == Some(y)
    requires forall z :: z != x ==> Next(w, z) == Next(t, z)
    ensures Follow(w, y, d) == Some(x)
  {
    if forall d: nat :: d < n ==> Follow(w, y, d) != Some(x) {
      OldCycle(t, w, x, y, n, n);
      CycleRevisits(t, y, n);
      assert false;
    }
    d :| d < n && Follow(w, y, d) == Some(x);
  }

  lemma {:induction false} OldCycle(t: Table, w: Table, x: Id, y: Id, n: nat, m: nat)
    requires m <= n && Follow(w, y, n).Some?
    requires forall z :: z != x ==> Next(w, z) == Next(t, z)
    requires forall d: nat :: d < n ==> Follow(w, y, d) != Some(x)
    ensures Follow(w, y, m).Some? && Follow(t, y, m) == Follow(w, y, m)
    decreases m
  {
    if m > 0 {
      OldCycle(t, w, x, y, n, m - 1);
      PassedHasNext(w, y, n, m - 1);
      var z := Follow(w, y, m - 1).value;
      assert z != x;
      FollowAdd(w, y, m - 1, 1);
      FollowAdd(t, y, m - 1, 1);
      var z' := Next(w, z).value;
      assert Follow(w, z, 1) == Follow(w, z', 0) == Some(z');
      assert Follow(t, z, 1) == Follow(t, z', 0);
    }
  }

  lemma NoKeyWaits(t: Table)
    requires forall k :: k in t.x2u ==> k !in t.xwaitu
    ensures !DeadLock(t)
  {
    forall k | k in t.x2u
      ensures !Revisits(t, k)
    {
      SinkHasNoRevisit(t, k);
    }
  }

  /** Two xids that got their locks by hand-over block each other without being noticed. */
  lemma UnseenDeadlock() returns (ops: seq<Op>)
    ensures Legal(ops) && !Run(ops).stuck && Revisits(Run(ops).t, 3)
  {
    ops := HandedOverOwners();
    var t' := QueueUp(HANDED, 3, 12);
    ops := Extend(ops, DoAdd(3, 12));
    t' := QueueUp(t', 4, 11);
    ops := Extend(ops, DoAdd(4, 11));
    assert Next(t', 3) == Some(4) && Next(t', 4) == Some(3);
    assert Follow(t', 3, 0) == Some(3) && Follow(t', 4, 1) == Follow(t', 3, 0);
    assert Follow(t', 3, 2) == Some(3);
    CycleRevisits(t', 3, 2);
  }

  const QUEUED := Table(map[1 := [11], 2 := [12]], map[11 := 1, 12 := 2],
                        map[11 := [3], 12 := [4]], {3, 4}, map[3 := 11, 4 := 12])
  const HALFWAY := Table(map[2 := [12]], map[11 := 3, 12 := 2], map[12 := [4]], {4}, map[4 := 12])
  const HANDED := Table(map[], map[11 := 3, 12 := 4], map[], {}, map[])

  /** A run that never comes back: transaction 2 closes a cycle over a uid that 3 is queued for. */
  lemma StuckRun() returns (ops: seq<Op>)
    ensures Legal(ops) && Run(ops).stuck
  {
    var t := TakeFree(EMPTY, 1, 11);
    ops := Extend([], DoAdd(1, 11));
    t := TakeFree(t, 2, 12);
    ops := Extend(ops, DoAdd(2, 12));
    t := QueueUp(t, 3, 11);
    ops := Extend(ops, DoAdd(3, 11));
    var t' := t.(xwaitu := t.xwaitu[1 := 12], wait := t.wait[12 := [1]], waitCh := t.waitCh + {1});
    OwnerWaits(t);
    ops := Extend(ops, DoAdd(1, 12));
    CycleCloses(t');
    InvariantOverRuns(ops);
    AddStuckIff(t', 2, 11);
    ops := Extend(ops, DoAdd(2, 11));
  }

  predicate TwoOwners(t: Table) {
    && t.x2u == map[1 := [11], 2 := [12]] && t.u2x == map[11 := 1, 12 := 2]
    && t.wait == map[11 := [3]] && t.waitCh == {3} && t.xwaitu == map[3 := 11]
  }

  /** Transaction 1 may wait for 12: its owner waits for nothing. */
  lemma OwnerWaits(t: Table)
    requires TwoOwners(t)
    ensures Add(t, 1, 12) == (t.(xwaitu := t.xwaitu[1 := 12], wait := t.wait[12 := [1]], waitCh := t.waitCh + {1}), Waits)
  {
    var w := WithEdge(t, 1, 12);
    assert [] + [1] == [1];
    SinkHasNoRevisit(w, 2);
    RevisitsStep(w, 1);
  }

  lemma CycleCloses(t': Table)
    requires t'.x2u.Keys == {1, 2} && t'.u2x == map[11 := 1, 12 := 2] && t'.xwaitu == map[3 := 11, 1 := 12]
    ensures DeadLock(WithEdge(t', 2, 11))
  {
    var w := WithEdge(t', 2, 11);
    assert Next(w, 2) == Some(1) && Next(w, 1) == Some(2);
    assert Follow(w, 2, 0) == Some(2) && Follow(w, 1, 1) == Follow(w, 2, 0);
    assert Follow(w, 2, 2) == Some(2);
    CycleRevisits(w, 2, 2);
  }

  lemma DropOne<B>(k: Id, v: B)
    ensures map[k := v] - {k} == map[]
  {
  }

  lemma DropFirst<B>(k: Id, v: B, k1: Id, v1: B)
    requires k != k1
    ensures map[k := v, k1 := v1] - {k} == map[k1 := v1]
  {
  }

  lemma Rebind<B>(k: Id, v: B, k1: Id, v1: B, w: B)
    requires k != k1
    ensures map[k := v, k1 := v1][k := w] == map[k := w, k1 := v1]
    ensures map[k1 := v1, k := v][k := w] == map[k1 := v1, k := w]
  {
  }

  lemma Absent<B>(k: Id, v: B, j: Id)
    requires j != k
    ensures map[k := v] - {j} == map[k := v]
  {
  }

  /** A run after which xids 3 and 4 own uids 11 and 12, and nobody owns anything directly. */
  lemma HandedOverOwners() returns (ops: seq<Op>)
    ensures Legal(ops) && Run(ops) == State(HANDED, {1, 2}, false)
  {
    ops := FirstHandOver();
    ops := HandOver(ops, State(HALFWAY, {1}, false), 2, 12, 4);
    WholeWay();
    assert {1} + {2} == {1, 2};
  }

  lemma FirstHandOver() returns (ops: seq<Op>)
    ensures Legal(ops) && Run(ops) == State(HALFWAY, {1}, false)
  {
    ops := TwoQueues();
    ops := HandOver(ops, State(QUEUED, {}, false), 1, 11, 3);
    Halfway();
  }

  lemma Halfway()
    ensures Forget(Grant(QUEUED, 11, 3).(wait := QUEUED.wait - {11}), 1) == HALFWAY
  {
    DropFirst(1, [11], 2, [12]);
    DropFirst(11, [3], 12, [4]);
    DropFirst(3, 11, 4, 12);
    Absent(4, 12, 1);
    Rebind(11, 1, 12, 2, 3);
    assert {3, 4} - {3} - {1} == {4};
  }

  lemma WholeWay()
    ensures Forget(Grant(HALFWAY, 12, 4).(wait := HALFWAY.wait - {12}), 2) == HANDED
  {
    DropOne(2, [12]);
    DropOne(12, [4]);
    DropOne(4, 12);
    Rebind(12, 2, 11, 3, 4);
    assert {4} - {4} - {2} == {};
    var none: map<Id, Id> := map[];
    assert none - {2} == none;
  }

  lemma TwoQueues() returns (ops: seq<Op>)
    ensures Legal(ops) && Run(ops) == State(QUEUED, {}, false)
  {
    var t := TakeFree(EMPTY, 1, 11);
    ops := Extend([], DoAdd(1, 11));
    t := TakeFree(t, 2, 12);
    ops := Extend(ops, DoAdd(2, 12));
    t := QueueUp(t, 3, 11);
    ops := Extend(ops, DoAdd(3, 11));
    t := QueueUp(t, 4, 12);
    ops := Extend(ops, DoAdd(4, 12));
  }

  lemma Extend(ops: seq<Op>, op: Op) returns (ops': seq<Op>)
    requires Legal(ops) && Enabled(Run(ops), op)
    ensures Legal(ops') && Run(ops') == Step(Run(ops), op)
  {
    ops' := ops + [op];
    assert ops'[..|ops|] == ops;
    forall i | 0 <= i < |ops'|
      ensures Enabled(Run(ops'[..i]), ops'[i])
    {
      assert i < |ops| ==> ops'[..i] == ops[..i];
    }
  }

  lemma TakeFree(t: Table, x: Id, u: Id) returns (t': Table)
    requires x !in t.x2u && u !in t.u2x
    ensures t' == t.(u2x := t.u2x[u := x], x2u := t.x2u[x := [u]])
    ensures Add(t, x, u) == (t', Granted)
  {
    t' := t.(u2x := t.u2x[u := x], x2u := t.x2u[x := [u]]);
    assert [] + [u] == [u];
  }

  lemma QueueUp(t: Table, x: Id, u: Id) returns (t': Table)
    requires x !in t.x2u && u in t.u2x && u !in t.wait
    requires forall k :: k in t.x2u ==> k !in t.xwaitu
    ensures t' == t.(xwaitu := t.xwaitu[x := u], wait := t.wait[u := [x]], waitCh := t.waitCh + {x})
    ensures Add(t, x, u) == (t', Waits)
  {
    t' := t.(xwaitu := t.xwaitu[x := u], wait := t.wait[u := [x]], waitCh := t.waitCh + {x});
    assert [] + [x] == [x];
    NoKeyWaits(WithEdge(t, x, u));
  }

  lemma HandOver(ops: seq<Op>, s: State, x: Id, u: Id, w: Id) returns (ops': seq<Op>)
    requires Legal(ops) && Run(ops) == s && Enabled(s, DoRemove(x))
    requires x in s.t.x2u && s.t.x2u[x] == [u] && u in s.t.wait && s.t.wait[u] == [w] && w in s.t.waitCh
    ensures Legal(ops')
    ensures Run(ops') == State(Forget(Grant(s.t, u, w).(wait := s.t.wait - {u}), x), s.gone + {x}, false)
  {
    PassOn(s.t, x, u, w);
    ops' := Extend(ops, DoRemove(x));
  }

  lemma PassOn(t: Table, x: Id, u: Id, w: Id)
    requires x in t.x2u && t.x2u[x] == [u] && u in t.wait && t.wait[u] == [w] && w in t.waitCh
    ensures Remove(t, x) == Forget(Grant(t, u, w).(wait := t.wait - {u}), x)
  {
    assert [w][1..] == [];
    assert PopWaiter([w], t.waitCh) == (Some(w), []);
    assert (t.u2x - {u})[u := w] == t.u2x[u := w];
    assert [u][1..] == [];
    assert ReleaseAll(SelectNew(t, u), []) == SelectNew(t, u);
  }
}

/** The lock table object: its methods are the sections that run under the table's mutex. */
module LockTable {
  import opened Types
  import opened LockGraph
  import opened LockRuns

  class Locks {
    var x2u: map<Id, seq<Id>>
    var u2x: map<Id, Id>
    var wait: map<Id, seq<Id>>
    var waitCh: set<Id>
    var xwaitu: map<Id, Id>

    ghost function View(): Table
      reads this
    {
      Table(x2u, u2x, wait, waitCh, xwaitu)
    }

    constructor ()
      ensures View() == EMPTY
    {
      x2u, u2x, wait, waitCh, xwaitu := map[], map[], map[], {}, map[];
    }

    /** Appends the wait edge, searches for a deadlock, and takes the edge out again if there is one. */
    method Request(x: Id, u: Id) returns (r: AddResult)
      requires Inv(View()) && x !in xwaitu
      modifies this
      ensures (View(), r) == Add(old(View()), x, u)
    {
      if x in x2u && u in x2u[x] {
        return Granted;
      }
      if u !in u2x {
        u2x := u2x[u := x];
        x2u := PutInList(x2u, x, u);
        return Granted;
      }
      xwaitu := xwaitu[x := u];
      wait := PutInList(wait, u, x);
      var dead := HasDeadLock();
      if dead {
        xwaitu := xwaitu - {x};
        match TakeFromList(wait, u, x) {
          case None => return Stuck;
          case Some(m) => wait := m;
        }
        return Refused;
      }
      waitCh := waitCh + {x};
      return Waits;
    }

    /** Depth-first search with stamps: the marks of this search carry `stamp`, finished ones a smaller number. */
    method Dfs(x: Id, stamps: map<Id, nat>, stamp: nat, ghost path: seq<Id>)
      returns (found: bool, marked: map<Id, nat>)
      requires forall y :: y in xwaitu ==> xwaitu[y] in u2x
      requires forall y :: y in stamps ==> stamps[y] <= stamp
      requires forall y :: y in stamps && stamps[y] < stamp ==> !Revisits(View(), y)
      requires forall y :: y in stamps && stamps[y] == stamp ==> y in path
      requires forall i :: 0 <= i < |path| ==> Next(View(), path[i]) == Some((path + [x])[i + 1])
      ensures found <==> Revisits(View(), x)
      ensures x in marked && forall y :: y in stamps ==> y in marked && marked[y] == stamps[y]
      ensures forall y :: y in marked ==> marked[y] <= stamp
      ensures !found ==> forall y :: y in marked && y !in stamps ==> !Revisits(View(), y)
      decreases xwaitu.Keys - stamps.Keys, x !in stamps
    {
      if x in stamps && stamps[x] == stamp {
        ghost var i :| 0 <= i < |path| && path[i] == x;
        PathFollow(View(), path, x, i);
        CycleRevisits(View(), x, |path| - i);
        return true, stamps;
      }
      if x in stamps && stamps[x] < stamp {
        return false, stamps;
      }
      marked := stamps[x := stamp];
      if x !in xwaitu {
        SinkHasNoRevisit(View(), x);
        return false, marked;
      }
      assert xwaitu[x] in u2x;
      RevisitsStep(View(), x);
      var y := u2x[xwaitu[x]];
      assert x in xwaitu.Keys - stamps.Keys && x !in xwaitu.Keys - marked.Keys;
      found, marked := Dfs(y, marked, stamp, path + [x]);
    }

    /** Starts one search from every directly owning xid, in any order. */
    method HasDeadLock() returns (dead: bool)
      requires forall y :: y in xwaitu ==> xwaitu[y] in u2x
      ensures dead <==> DeadLock(View())
    {
      var stamps: map<Id, nat> := map[];
      var stamp := 1;
      var keys := x2u.Keys;
      while keys != {}
        invariant keys <= x2u.Keys
        invariant forall y :: y in stamps ==> stamps[y] <= stamp && !Revisits(View(), y)
        invariant forall k :: k in x2u && k !in keys ==> !Revisits(View(), k)
        decreases keys
      {
        var k :| k in keys;
        keys := keys - {k};
        if k in stamps && stamps[k] > 0 {
          continue;
        }
        stamp := stamp + 1;
        dead, stamps := Dfs(k, stamps, stamp, []);
        if dead {
          return;
        }
      }
      dead := false;
    }

    /** Releases `u` and wakes the first queued xid that still has a channel. */
    method SelectNewXid(u: Id)
      requires Queued(View())
      modifies this
      ensures View() == SelectNew(old(View()), u)
    {
      u2x := u2x - {u};
      if u !in wait {
        return;
      }
      var l := wait[u];
      assert |l| > 0;
      ghost var q := l;
      while |l| > 0
        invariant PopWaiter(q, waitCh) == PopWaiter(l, waitCh)
        invariant View() == old(View()).(u2x := old(u2x) - {u})
      {
        var x := l[0];
        l := l[1..];
        if x !in waitCh {
          continue;
        }
        u2x := u2x[u := x];
        waitCh := waitCh - {x};
        xwaitu := xwaitu - {x};
        break;
      }
      wait := if l == [] then wait - {u} else wait[u := l];
    }

    /** Releases everything `x` holds directly, front to back, and forgets `x`. */
    method Drop(x: Id)
      requires Inv(View()) && x !in xwaitu
      modifies this
      ensures View() == Remove(old(View()), x)
    {
      if x in x2u {
        var l := x2u[x];
        ghost var t := View();
        assert SetList(t.x2u, x, l) == t.x2u;
        while |l| > 0
          invariant Releasing(t, View(), x, l)
        {
          var u := l[0];
          ReleaseTurn(t, View(), x, l);
          l := l[1..];
          SelectNewXid(u);
        }
      }
      xwaitu := xwaitu - {x};
      x2u := x2u - {x};
      waitCh := waitCh - {x};
    }
  }

  /** Between two turns of the release loop of `Drop`: `l` is what `x` has yet to give back. */
  ghost predicate Releasing(t: Table, now: Table, x: Id, l: seq<Id>) {
    && x in t.x2u && now.x2u == t.x2u
    && Inv(now.(x2u := SetList(t.x2u, x, l)))
    && ReleaseAll(t, t.x2u[x]) == ReleaseAll(now, l)
  }

  lemma ReleaseTurn(t: Table, now: Table, x: Id, l: seq<Id>)
    requires Releasing(t, now, x, l) && |l| > 0
    ensures Queued(now) && Releasing(t, SelectNew(now, l[0]), x, l[1..])
  {
    var was := now.(x2u := SetList(t.x2u, x, l));
    assert Queued(was);
    assert was.x2u[x] == [l[0]] + l[1..];
    SelectNewKeeps(was, x, l[0], l[1..]);
    SelectNewCommutes(now, l[0], was.x2u);
    assert SetList(was.x2u, x, l[1..]) == SetList(t.x2u, x, l[1..]);
  }

  lemma {:induction false} PathFollow(t: Table, path: seq<Id>, x: Id, i: nat)
    requires i <= |path|
    requires forall j :: 0 <= j < |path| ==> Next(t, path[j]) == Some((path + [x])[j + 1])
    ensures Follow(t, (path + [x])[i], |path| - i) == Some(x)
    decreases |path| - i
  {
    if i < |path| {
      PathFollow(t, path, x, i + 1);
    }
  }
}
