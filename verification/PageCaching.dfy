/**
 * The reference-counted cache in front of the database file, as a state machine over its critical
 * sections: loads happen outside the lock, between a reservation and its publication.
 */
module PageCaching {
  import opened Types

  datatype Page<D> = Page(handle: nat, data: D, dirty: bool)

  /** What a reserved load has read from the file so far. */
  datatype Loading<D> = Unread | Missing | Found(data: D)

  datatype State<D> = State(
    max: nat,
    cache: map<nat, Page<D>>,
    refs: map<nat, nat>,
    getting: map<nat, Loading<D>>,
    count: nat,
    disk: map<nat, D>,
    noPages: nat,
    handles: nat
  )

  /** What a client or the file sees of a step. */
  datatype Event = Got(uid: nat, handle: nat) | Put(uid: nat) | Freed(uid: nat, handle: nat)

  datatype Op<D> =
    | Get(uid: nat)
    | ReadDisk(uid: nat)
    | Publish(uid: nat)
    | FailLoad(uid: nat)
    | Release(uid: nat)
    | Store(uid: nat, data: D)
    | NewPage(data: D)

  /* ----- the critical sections ----- */

  datatype Answer = Hit(handle: nat) | Waits | Full | Loads

  function GetAnswer<D>(s: State<D>, uid: nat): Answer {
    if uid in s.getting then Waits
    else if uid in s.cache then Hit(s.cache[uid].handle)
    else if s.max > 0 && s.count == s.max then Full
    else Loads
  }

  function GetStep<D>(s: State<D>, uid: nat): State<D> {
    match GetAnswer(s, uid)
    case Hit(_) => s.(refs := s.refs[uid := (if uid in s.refs then s.refs[uid] else 0) + 1])
    case Loads => s.(getting := s.getting[uid := Unread], count := s.count + 1)
    case _ => s
  }

  function ReadStep<D>(s: State<D>, uid: nat): State<D> {
    s.(getting := s.getting[uid := if uid in s.disk then Found(s.disk[uid]) else Missing])
  }

  function PublishStep<D>(s: State<D>, uid: nat): State<D>
    requires uid in s.getting && s.getting[uid].Found?
  {
    s.(getting := s.getting - {uid},
       cache := s.cache[uid := Page(s.handles, s.getting[uid].data, false)],
       refs := s.refs[uid := 1],
       handles := s.handles + 1)
  }

  function FailStep<D>(s: State<D>, uid: nat): State<D>
    requires s.count > 0
  {
    s.(getting := s.getting - {uid}, count := s.count - 1)
  }

  /** The last release writes a dirty page back before the entry goes. */
  function ReleaseStep<D>(s: State<D>, uid: nat): State<D>
    requires uid in s.refs && uid in s.cache && s.refs[uid] > 0 && s.count > 0
  {
    if s.refs[uid] > 1 then s.(refs := s.refs[uid := s.refs[uid] - 1])
    else
      s.(disk := if s.cache[uid].dirty then s.disk[uid := s.cache[uid].data] else s.disk,
         refs := s.refs - {uid}, cache := s.cache - {uid}, count := s.count - 1)
  }

  /** A holder marks the page dirty and changes its contents. */
  function StoreStep<D>(s: State<D>, uid: nat, data: D): State<D>
    requires uid in s.cache
  {
    s.(cache := s.cache[uid := Page(s.cache[uid].handle, data, true)])
  }

  function NewPageStep<D>(s: State<D>, data: D): State<D> {
    s.(noPages := s.noPages + 1, disk := s.disk[s.noPages + 1 := data])
  }

  /* ----- runs ----- */

  /** Gets that returned minus releases. */
  function Outstanding(es: seq<Event>, uid: nat): int
    decreases |es|
  {
    if es == [] then 0
    else
      var e := es[|es| - 1];
      Outstanding(es[..|es| - 1], uid) +
      (match e case Got(u, _) => (if u == uid then 1 else 0) case Put(u) => (if u == uid then -1 else 0) case _ => 0)
  }

  datatype Machine<D> = Machine(s: State<D>, es: seq<Event>)

  /** Clients release and change only what they hold; loads read, then publish or fail. */
  ghost predicate Legal<D>(m: Machine<D>, op: Op<D>) {
    match op
    case Get(_) => true
    case ReadDisk(u) => u in m.s.getting && m.s.getting[u].Unread?
    case Publish(u) => u in m.s.getting && m.s.getting[u].Found?
    case FailLoad(u) => u in m.s.getting
    case Release(u) => Outstanding(m.es, u) > 0
    case Store(u, _) => Outstanding(m.es, u) > 0
    case NewPage(_) => true
  }

  ghost function Step<D>(m: Machine<D>, op: Op<D>): Machine<D>
    requires Inv(m) && Legal(m, op)
  {
    var s := m.s;
    match op
    case Get(u) =>
      var a := GetAnswer(s, u);
      Machine(GetStep(s, u), if a.Hit? then m.es + [Got(u, a.handle)] else m.es)
    case ReadDisk(u) => Machine(ReadStep(s, u), m.es)
    case Publish(u) => Machine(PublishStep(s, u), m.es + [Got(u, s.handles)])
    case FailLoad(u) => CountPositive(s, u); Machine(FailStep(s, u), m.es)
    case Release(u) =>
      CountPositive(s, u);
      Machine(ReleaseStep(s, u), m.es + [Put(u)] + if s.refs[u] == 1 then [Freed(u, s.cache[u].handle)] else [])
    case Store(u, d) => Machine(StoreStep(s, u, d), m.es)
    case NewPage(d) => Machine(NewPageStep(s, d), m.es)
  }

  ghost predicate Counted<D>(s: State<D>) {
    && s.count == |s.cache.Keys| + |s.getting.Keys|
    && (s.max > 0 ==> s.count <= s.max)
  }

  lemma CountPositive<D>(s: State<D>, u: nat)
    requires Counted(s) && (u in s.cache || u in s.getting)
    ensures s.count > 0
  {
  }

  ghost predicate Referenced<D>(s: State<D>, es: seq<Event>) {
    && s.cache.Keys !! s.getting.Keys
    && s.refs.Keys == s.cache.Keys
    && (forall u :: u in s.cache ==> s.refs[u] > 0 && s.refs[u] == Outstanding(es, u))
    && (forall u :: u !in s.cache ==> Outstanding(es, u) == 0)
  }

  /** The logical contents of the database file. */
  function View<D>(s: State<D>, uid: nat): Option<D> {
    if uid in s.cache then Some(s.cache[uid].data)
    else if uid in s.disk then Some(s.disk[uid])
    else None
  }

  ghost predicate Coherent<D>(s: State<D>) {
    && (forall u :: u in s.disk ==> u <= s.noPages)
    && (forall u :: u in s.cache ==> u in s.disk && (!s.cache[u].dirty ==> s.cache[u].data == s.disk[u]))
    && (forall u :: u in s.getting && s.getting[u].Found? ==> u in s.disk && s.disk[u] == s.getting[u].data)
  }

  /** `h` was freed by event `j`. */
  predicate FreedAt(es: seq<Event>, j: int, h: nat) {
    0 <= j < |es| && es[j].Freed? && es[j].handle == h
  }

  predicate GotAt(es: seq<Event>, i: int, u: nat, h: nat) {
    0 <= i < |es| && es[i] == Got(u, h)
  }

  /** Handles are handed out by one load each, and a handle that was not freed is the cached one. */
  ghost predicate Handled<D>(s: State<D>, es: seq<Event>) {
    && (forall u :: u in s.cache ==> s.cache[u].handle < s.handles)
    && (forall u, v :: u in s.cache && v in s.cache && s.cache[u].handle == s.cache[v].handle ==> u == v)
    && (forall i :: 0 <= i < |es| && !es[i].Put? ==> es[i].handle < s.handles)
    && (forall i, u :: u in s.cache && 0 <= i < |es| && es[i].Freed? ==> es[i].handle != s.cache[u].handle)
    && (forall i, j :: 0 <= i < j < |es| && es[i].Freed? && es[j].Freed? ==> es[i].handle != es[j].handle)
    && (forall i, u, h :: GotAt(es, i, u, h) ==>
          (u in s.cache && s.cache[u].handle == h) || exists j :: i < j && FreedAt(es, j, h))
  }

  /** A freed handle was unheld. */
  ghost predicate FreedUnheld(es: seq<Event>) {
    forall j :: 0 <= j < |es| && es[j].Freed? ==> Outstanding(es[..j], es[j].uid) == 0
  }

  ghost predicate Inv<D>(m: Machine<D>) {
    Counted(m.s) && Referenced(m.s, m.es) && Coherent(m.s) && Handled(m.s, m.es) && FreedUnheld(m.es)
  }

  /** A cache over a file of `n` pages. */
  function Initial<D>(max: nat, disk: map<nat, D>, n: nat): Machine<D> {
    Machine(State(max, map[], map[], map[], 0, disk, n, 0), [])
  }

  /* ----- events ----- */

  lemma OutGot(es: seq<Event>, u: nat, h: nat)
    ensures forall v :: Outstanding(es + [Got(u, h)], v) == Outstanding(es, v) + if v == u then 1 else 0
  {
    assert (es + [Got(u, h)])[..|es|] == es;
  }

  lemma OutPut(es: seq<Event>, u: nat)
    ensures forall v :: Outstanding(es + [Put(u)], v) == Outstanding(es, v) - if v == u then 1 else 0
  {
    assert (es + [Put(u)])[..|es|] == es;
  }

  lemma OutFreed(es: seq<Event>, u: nat, h: nat)
    ensures forall v :: Outstanding(es + [Freed(u, h)], v) == Outstanding(es, v)
  {
    assert (es + [Freed(u, h)])[..|es|] == es;
  }

  lemma FreedSnoc(es: seq<Event>, e: Event)
    requires FreedUnheld(es) && (e.Freed? ==> Outstanding(es, e.uid) == 0)
    ensures FreedUnheld(es + [e])
  {
    forall j | 0 <= j < |es + [e]| && (es + [e])[j].Freed?
      ensures Outstanding((es + [e])[..j], (es + [e])[j].uid) == 0
    {
      assert (es + [e])[..j] == es[..j];
      assert es[..|es|] == es;
    }
  }

  /* ----- handles ----- */

  /** Nothing about handles changes when no event is added and the cached handles stay. */
  lemma HandledSame<D>(s: State<D>, t: State<D>, es: seq<Event>)
    requires Handled(s, es) && t.handles == s.handles && t.cache.Keys == s.cache.Keys
    requires forall u :: u in s.cache ==> t.cache[u].handle == s.cache[u].handle
    ensures Handled(t, es)
  {
  }

  lemma GotExplained<D>(s: State<D>, es: seq<Event>, i: int, u: nat, h: nat)
    requires Handled(s, es) && GotAt(es, i, u, h)
    ensures (u in s.cache && s.cache[u].handle == h) || exists j :: i < j && FreedAt(es, j, h)
  {
  }

  lemma HandledHit<D>(s: State<D>, es: seq<Event>, u: nat)
    requires Handled(s, es) && u in s.cache
    ensures Handled(s, es + [Got(u, s.cache[u].handle)])
  {
    var es1 := es + [Got(u, s.cache[u].handle)];
    forall i, v, h | GotAt(es1, i, v, h)
      ensures (v in s.cache && s.cache[v].handle == h) || exists j :: i < j && FreedAt(es1, j, h)
    {
      if i < |es| && !(v in s.cache && s.cache[v].handle == h) {
        assert GotAt(es, i, v, h);
        var j :| i < j && FreedAt(es, j, h);
        assert FreedAt(es1, j, h);
      }
    }
  }

  lemma HandledPut<D>(s: State<D>, es: seq<Event>, u: nat)
    requires Handled(s, es)
    ensures Handled(s, es + [Put(u)])
  {
    var es1 := es + [Put(u)];
    forall i, v, h | GotAt(es1, i, v, h)
      ensures (v in s.cache && s.cache[v].handle == h) || exists j :: i < j && FreedAt(es1, j, h)
    {
      if !(v in s.cache && s.cache[v].handle == h) {
        assert GotAt(es, i, v, h);
        var j :| i < j && FreedAt(es, j, h);
        assert FreedAt(es1, j, h);
      }
    }
  }

  lemma HandledPublish<D>(s: State<D>, es: seq<Event>, u: nat)
    requires Handled(s, es) && u !in s.cache && u in s.getting && s.getting[u].Found?
    ensures Handled(PublishStep(s, u), es + [Got(u, s.handles)])
  {
    var t, es1 := PublishStep(s, u), es + [Got(u, s.handles)];
    forall i, v, h | GotAt(es1, i, v, h)
      ensures (v in t.cache && t.cache[v].handle == h) || exists j :: i < j && FreedAt(es1, j, h)
    {
      if i < |es| {
        GotExplained(s, es, i, v, h);
        if !(v in s.cache && s.cache[v].handle == h) {
          var j :| i < j && FreedAt(es, j, h);
          assert FreedAt(es1, j, h);
        }
      }
    }
  }

  lemma HandledFreed<D>(s: State<D>, t: State<D>, es: seq<Event>, u: nat)
    requires Handled(s, es) && u in s.cache && t.cache == s.cache - {u} && t.handles == s.handles
    ensures Handled(t, es + [Freed(u, s.cache[u].handle)])
  {
    var es1 := es + [Freed(u, s.cache[u].handle)];
    assert FreedAt(es1, |es|, s.cache[u].handle);
    forall i, v, h | GotAt(es1, i, v, h)
      ensures (v in t.cache && t.cache[v].handle == h) || exists j :: i < j && FreedAt(es1, j, h)
    {
      assert GotAt(es, i, v, h);
      if !(v in s.cache && s.cache[v].handle == h) {
        var j :| i < j && FreedAt(es, j, h);
        assert FreedAt(es1, j, h);
      }
    }
  }

  /* ----- every step keeps the invariant ----- */

  lemma HitBasics<D>(s: State<D>, es: seq<Event>, u: nat)
    requires Counted(s) && Referenced(s, es) && Coherent(s) && GetAnswer(s, u).Hit?
    ensures var t, es1 := GetStep(s, u), es + [Got(u, s.cache[u].handle)];
            Counted(t) && Referenced(t, es1) && Coherent(t)
  {
    OutGot(es, u, s.cache[u].handle);
  }

  lemma LoadCounted<D>(s: State<D>, u: nat)
    requires Counted(s) && GetAnswer(s, u).Loads?
    ensures Counted(GetStep(s, u))
  {
    assert GetStep(s, u).getting.Keys == s.getting.Keys + {u};
  }

  lemma LoadBasics<D>(s: State<D>, es: seq<Event>, u: nat)
    requires Referenced(s, es) && Coherent(s) && GetAnswer(s, u).Loads?
    ensures Referenced(GetStep(s, u), es) && Coherent(GetStep(s, u))
  {
    var t := GetStep(s, u);
    assert t.cache == s.cache && t.refs == s.refs && t.disk == s.disk && t.noPages == s.noPages;
    assert t.getting.Keys == s.getting.Keys + {u};
  }

  lemma HitKeeps<D>(m: Machine<D>, u: nat)
    requires Inv(m) && GetAnswer(m.s, u).Hit?
    ensures Inv(Machine(GetStep(m.s, u), m.es + [Got(u, m.s.cache[u].handle)]))
  {
    var h := m.s.cache[u].handle;
    HitBasics(m.s, m.es, u);
    FreedSnoc(m.es, Got(u, h));
    HandledHit(m.s, m.es, u);
    HandledSame(m.s, GetStep(m.s, u), m.es + [Got(u, h)]);
  }

  lemma ReserveKeeps<D>(m: Machine<D>, u: nat)
    requires Inv(m) && GetAnswer(m.s, u).Loads?
    ensures Inv(Machine(GetStep(m.s, u), m.es))
  {
    LoadCounted(m.s, u);
    LoadBasics(m.s, m.es, u);
    LoadHandled(m.s, m.es, u);
  }

  lemma LoadHandled<D>(s: State<D>, es: seq<Event>, u: nat)
    requires Handled(s, es) && GetAnswer(s, u).Loads?
    ensures Handled(GetStep(s, u), es)
  {
    var t := GetStep(s, u);
    assert t.cache == s.cache && t.handles == s.handles;
    HandledSame(s, t, es);
  }

  lemma GetKeeps<D>(m: Machine<D>, u: nat)
    requires Inv(m)
    ensures Inv(Step(m, Get(u)))
  {
    match GetAnswer(m.s, u) {
      case Hit(_) => HitKeeps(m, u);
      case Loads => ReserveKeeps(m, u);
      case _ =>
    }
  }

  lemma ReadKeeps<D>(m: Machine<D>, u: nat)
    requires Inv(m) && u in m.s.getting
    ensures Inv(Machine(ReadStep(m.s, u), m.es))
  {
    var t := ReadStep(m.s, u);
    assert t.getting.Keys == m.s.getting.Keys;
    HandledSame(m.s, t, m.es);
  }

  lemma PublishCounted<D>(s: State<D>, u: nat)
    requires Counted(s) && u in s.getting && s.getting[u].Found? && u !in s.cache
    ensures Counted(PublishStep(s, u))
  {
    var t := PublishStep(s, u);
    assert t.getting.Keys == s.getting.Keys - {u};
    assert t.cache.Keys == s.cache.Keys + {u};
  }

  lemma PublishBasics<D>(s: State<D>, es: seq<Event>, u: nat)
    requires Referenced(s, es) && Coherent(s) && u in s.getting && s.getting[u].Found?
    ensures Referenced(PublishStep(s, u), es + [Got(u, s.handles)]) && Coherent(PublishStep(s, u))
  {
    var t := PublishStep(s, u);
    assert t.getting.Keys == s.getting.Keys - {u};
    assert t.cache.Keys == s.cache.Keys + {u};
    OutGot(es, u, s.handles);
  }

  lemma PublishKeeps<D>(m: Machine<D>, u: nat)
    requires Inv(m) && u in m.s.getting && m.s.getting[u].Found?
    ensures Inv(Machine(PublishStep(m.s, u), m.es + [Got(u, m.s.handles)]))
  {
    PublishCounted(m.s, u);
    PublishBasics(m.s, m.es, u);
    FreedSnoc(m.es, Got(u, m.s.handles));
    HandledPublish(m.s, m.es, u);
  }

  lemma FailKeeps<D>(m: Machine<D>, u: nat)
    requires Inv(m) && u in m.s.getting && m.s.count > 0
    ensures Inv(Machine(FailStep(m.s, u), m.es))
  {
    var t := FailStep(m.s, u);
    assert t.getting.Keys == m.s.getting.Keys - {u};
    HandledSame(m.s, t, m.es);
  }

  lemma ReleaseCounted<D>(s: State<D>, u: nat)
    requires Counted(s) && s.refs.Keys == s.cache.Keys && u in s.cache && s.refs[u] > 0 && s.count > 0
    ensures Counted(ReleaseStep(s, u))
  {
    if s.refs[u] == 1 {
      assert ReleaseStep(s, u).cache.Keys == s.cache.Keys - {u};
    }
  }

  lemma ReleaseReferenced<D>(s: State<D>, es: seq<Event>, u: nat)
    requires Referenced(s, es) && u in s.cache && s.count > 0
    ensures Referenced(ReleaseStep(s, u), es + [Put(u)])
  {
    OutPut(es, u);
    var t := ReleaseStep(s, u);
    if s.refs[u] == 1 {
      assert t.cache.Keys == s.cache.Keys - {u};
      assert t.refs.Keys == s.refs.Keys - {u};
    }
  }

  lemma ReleaseCoherent<D>(s: State<D>, u: nat)
    requires Coherent(s) && s.cache.Keys !! s.getting.Keys && s.refs.Keys == s.cache.Keys
    requires u in s.cache && s.refs[u] > 0 && s.count > 0
    ensures Coherent(ReleaseStep(s, u))
  {
  }

  lemma ReferencedFreed<D>(t: State<D>, es: seq<Event>, u: nat, h: nat)
    requires Referenced(t, es)
    ensures Referenced(t, es + [Freed(u, h)])
  {
    OutFreed(es, u, h);
  }

  lemma ReleaseKeeps<D>(m: Machine<D>, u: nat)
    requires Inv(m) && Legal(m, Release(u))
    ensures Inv(Step(m, Release(u)))
  {
    var s := m.s;
    CountPositive(s, u);
    ReleaseCounted(s, u);
    ReleaseReferenced(s, m.es, u);
    ReleaseCoherent(s, u);
    FreedSnoc(m.es, Put(u));
    HandledPut(s, m.es, u);
    DropKeeps(s, ReleaseStep(s, u), m.es + [Put(u)], u);
  }

  lemma DropKeeps<D>(s: State<D>, t: State<D>, es1: seq<Event>, u: nat)
    requires u in s.refs && u in s.cache && s.refs[u] > 0 && s.count > 0 && t == ReleaseStep(s, u)
    requires Counted(t) && Referenced(t, es1) && Coherent(t) && Handled(s, es1) && FreedUnheld(es1)
    ensures Inv(Machine(t, es1 + if s.refs[u] == 1 then [Freed(u, s.cache[u].handle)] else []))
  {
    if s.refs[u] > 1 {
      HandledSame(s, t, es1);
      assert es1 + [] == es1;
    } else {
      FreedKeeps(s, t, es1, u);
    }
  }

  lemma FreedKeeps<D>(s: State<D>, t: State<D>, es1: seq<Event>, u: nat)
    requires u in s.cache && t.cache == s.cache - {u} && t.handles == s.handles
    requires Counted(t) && Referenced(t, es1) && Coherent(t) && Handled(s, es1) && FreedUnheld(es1)
    ensures Inv(Machine(t, es1 + [Freed(u, s.cache[u].handle)]))
  {
    var h := s.cache[u].handle;
    ReferencedFreed(t, es1, u, h);
    FreedSnoc(es1, Freed(u, h));
    HandledFreed(s, t, es1, u);
  }

  lemma StoreBasics<D>(s: State<D>, es: seq<Event>, u: nat, d: D)
    requires Counted(s) && Referenced(s, es) && Coherent(s) && u in s.cache
    ensures var t := StoreStep(s, u, d); Counted(t) && Referenced(t, es) && Coherent(t)
  {
    assert StoreStep(s, u, d).cache.Keys == s.cache.Keys;
  }

  lemma StoreKeeps<D>(m: Machine<D>, u: nat, d: D)
    requires Inv(m) && u in m.s.cache
    ensures Inv(Machine(StoreStep(m.s, u, d), m.es))
  {
    StoreBasics(m.s, m.es, u, d);
    HandledSame(m.s, StoreStep(m.s, u, d), m.es);
  }

  lemma NewPageKeeps<D>(m: Machine<D>, d: D)
    requires Inv(m)
    ensures Inv(Machine(NewPageStep(m.s, d), m.es))
  {
    HandledSame(m.s, NewPageStep(m.s, d), m.es);
  }

  lemma StepKeeps<D>(m: Machine<D>, op: Op<D>)
    requires Inv(m) && Legal(m, op)
    ensures Inv(Step(m, op))
  {
    match op {
      case Get(u) => GetKeeps(m, u);
      case ReadDisk(u) => ReadKeeps(m, u);
      case Publish(u) => PublishKeeps(m, u);
      case FailLoad(u) =>
        CountPositive(m.s, u);
        FailKeeps(m, u);
      case Release(u) => ReleaseKeeps(m, u);
      case Store(u, d) => StoreKeeps(m, u, d);
      case NewPage(d) => NewPageKeeps(m, d);
    }
  }

  /* ----- whole runs ----- */

  /** The machine after the operations, if each of them is legal. */
  ghost function After<D>(m: Machine<D>, ops: seq<Op<D>>): Option<Machine<D>>
    decreases |ops|
  {
    if ops == [] then Some(m)
    else
      var k := After(m, ops[..|ops| - 1]);
      if k.Some? && Inv(k.value) && Legal(k.value, ops[|ops| - 1]) then Some(Step(k.value, ops[|ops| - 1])) else None
  }

  ghost predicate Reaches<D>(m: Machine<D>, ops: seq<Op<D>>, n: Machine<D>) {
    After(m, ops) == Some(n)
  }

  ghost predicate Moves<D>(m: Machine<D>, op: Op<D>, n: Machine<D>) {
    Inv(m) && Legal(m, op) && n == Step(m, op)
  }

  /** The same operation on a plain page store: only stores and new pages do anything. */
  function PlainStep<D>(store: map<nat, D>, pages: nat, op: Op<D>): (map<nat, D>, nat) {
    match op
    case Store(u, d) => (store[u := d], pages)
    case NewPage(d) => (store[pages + 1 := d], pages + 1)
    case _ => (store, pages)
  }

  /** The plain page store and its number of pages after the operations. */
  function PlainRun<D>(store: map<nat, D>, pages: nat, ops: seq<Op<D>>): (map<nat, D>, nat)
    decreases |ops|
  {
    if ops == [] then (store, pages)
    else
      var (store1, pages1) := PlainRun(store, pages, ops[..|ops| - 1]);
      PlainStep(store1, pages1, ops[|ops| - 1])
  }

  function Plain<D>(store: map<nat, D>, pages: nat, ops: seq<Op<D>>): map<nat, D> {
    PlainRun(store, pages, ops).0
  }

  /** The file as clients see it through the cache. */
  ghost predicate Shows<D>(s: State<D>, store: map<nat, D>) {
    forall u :: View(s, u) == if u in store then Some(store[u]) else None
  }

  lemma ShowsSame<D>(s: State<D>, t: State<D>, store: map<nat, D>)
    requires Shows(s, store) && t.cache == s.cache && t.disk == s.disk
    ensures Shows(t, store)
  {
    assert forall u :: View(t, u) == View(s, u);
  }

  lemma ShowsPublish<D>(s: State<D>, u: nat, store: map<nat, D>)
    requires Shows(s, store) && Coherent(s) && u in s.getting && s.getting[u].Found? && u !in s.cache
    ensures Shows(PublishStep(s, u), store)
  {
    assert forall v :: View(PublishStep(s, u), v) == View(s, v);
  }

  lemma ShowsRelease<D>(s: State<D>, u: nat, store: map<nat, D>)
    requires Shows(s, store) && Coherent(s) && u in s.cache && u in s.refs && s.refs[u] > 0 && s.count > 0
    ensures Shows(ReleaseStep(s, u), store)
  {
    assert forall v :: View(ReleaseStep(s, u), v) == View(s, v);
  }

  lemma ShowsStore<D>(s: State<D>, u: nat, d: D, store: map<nat, D>)
    requires Shows(s, store) && u in s.cache
    ensures Shows(StoreStep(s, u, d), store[u := d])
  {
    assert forall v :: View(StoreStep(s, u, d), v) == if v == u then Some(d) else View(s, v);
  }

  lemma ShowsNew<D>(s: State<D>, d: D, store: map<nat, D>)
    requires Shows(s, store) && Coherent(s)
    ensures Shows(NewPageStep(s, d), store[s.noPages + 1 := d])
  {
    assert forall v :: View(NewPageStep(s, d), v) == if v == s.noPages + 1 then Some(d) else View(s, v);
  }

  lemma ShowsStep<D>(m: Machine<D>, op: Op<D>, store: map<nat, D>)
    requires Inv(m) && Legal(m, op) && Shows(m.s, store)
    ensures var (store1, pages1) := PlainStep(store, m.s.noPages, op);
            Shows(Step(m, op).s, store1) && Step(m, op).s.noPages == pages1
  {
    if op.Publish? || op.Release? || op.Store? || op.NewPage? {
      ShowsChange(m, op, store);
    } else {
      ShowsQuiet(m, op, store);
    }
  }

  lemma ShowsChange<D>(m: Machine<D>, op: Op<D>, store: map<nat, D>)
    requires Inv(m) && Legal(m, op) && Shows(m.s, store) && (op.Publish? || op.Release? || op.Store? || op.NewPage?)
    ensures var (store1, pages1) := PlainStep(store, m.s.noPages, op);
            Shows(Step(m, op).s, store1) && Step(m, op).s.noPages == pages1
  {
    match op {
      case Publish(u) => ShowsPublish(m.s, u, store);
      case Release(u) =>
        CountPositive(m.s, u);
        ShowsRelease(m.s, u, store);
      case Store(u, d) => ShowsStore(m.s, u, d, store);
      case NewPage(d) => ShowsNew(m.s, d, store);
    }
  }

  lemma ShowsQuiet<D>(m: Machine<D>, op: Op<D>, store: map<nat, D>)
    requires Inv(m) && Legal(m, op) && Shows(m.s, store) && (op.Get? || op.ReadDisk? || op.FailLoad?)
    ensures Shows(Step(m, op).s, store) && Step(m, op).s.noPages == m.s.noPages
  {
    match op {
      case Get(u) => ShowsSame(m.s, GetStep(m.s, u), store);
      case ReadDisk(u) => ShowsSame(m.s, ReadStep(m.s, u), store);
      case FailLoad(u) =>
        CountPositive(m.s, u);
        ShowsSame(m.s, FailStep(m.s, u), store);
    }
  }

  /** Through the cache, the file behaves as a plain page store, in every run. */
  lemma {:induction false} CacheIsTransparent<D>(m: Machine<D>, ops: seq<Op<D>>, n: Machine<D>, store: map<nat, D>)
    requires Inv(m) && Shows(m.s, store) && Reaches(m, ops, n)
    ensures Inv(n) && Shows(n.s, Plain(store, m.s.noPages, ops))
    ensures n.s.max == m.s.max && n.s.noPages == PlainRun(store, m.s.noPages, ops).1
    decreases |ops|
  {
    if ops != [] {
      var last := |ops| - 1;
      var k := After(m, ops[..last]).value;
      CacheIsTransparent(m, ops[..last], k, store);
      MoveShows(k, ops[last], n, Plain(store, m.s.noPages, ops[..last]));
    }
  }

  lemma MoveShows<D>(m: Machine<D>, op: Op<D>, n: Machine<D>, store: map<nat, D>)
    requires Moves(m, op, n) && Shows(m.s, store)
    ensures Inv(n) && n.s.max == m.s.max
    ensures var (store1, pages1) := PlainStep(store, m.s.noPages, op); Shows(n.s, store1) && n.s.noPages == pages1
  {
    StepKeeps(m, op);
    ShowsStep(m, op, store);
    BoundSame(m, op);
  }

  /** A machine with nothing cached, over a file whose pages are numbered up to `n`, is in order. */
  lemma StartsInOrder<D>(max: nat, disk: map<nat, D>, n: nat)
    requires forall u :: u in disk ==> u <= n
    ensures Inv(Initial(max, disk, n))
  {
  }

  /** A run that starts with nothing cached. */
  ghost predicate RunFromStart<D>(max: nat, disk: map<nat, D>, n: nat, ops: seq<Op<D>>, m: Machine<D>) {
    (forall u :: u in disk ==> u <= n) && Reaches(Initial(max, disk, n), ops, m)
  }

  /** Whoever holds a page sees the contents a plain page store would have. */
  lemma HoldersSeeThePlainStore<D>(max: nat, disk: map<nat, D>, n: nat, ops: seq<Op<D>>, m: Machine<D>, u: nat)
    requires RunFromStart(max, disk, n, ops, m) && Outstanding(m.es, u) > 0
    ensures u in m.s.cache && u in Plain(disk, n, ops) && m.s.cache[u].data == Plain(disk, n, ops)[u]
  {
    StartsInOrder(max, disk, n);
    CacheIsTransparent(Initial(max, disk, n), ops, m, disk);
    assert View(m.s, u) == Some(m.s.cache[u].data);
  }

  /** A file of `n` pages and what has been done to it through a cache of `max` pages. */
  datatype Trace<D> = Trace(max: nat, file: map<nat, D>, n: nat, ops: seq<Op<D>>)

  /** `m` is the machine after the trace, and `plain` what a plain page store would hold. */
  ghost predicate Traced<D>(t: Trace<D>, m: Machine<D>, plain: map<nat, D>) {
    RunFromStart(t.max, t.file, t.n, t.ops, m) && plain == Plain(t.file, t.n, t.ops)
  }

  lemma TracedInv<D>(t: Trace<D>, m: Machine<D>, plain: map<nat, D>)
    requires Traced(t, m, plain)
    ensures Inv(m) && Shows(m.s, plain)
  {
    StartsInOrder(t.max, t.file, t.n);
    CacheIsTransparent(Initial(t.max, t.file, t.n), t.ops, m, t.file);
  }

  function Then<D>(t: Trace<D>, op: Op<D>): Trace<D> {
    t.(ops := t.ops + [op])
  }

  lemma TracedStep<D>(t: Trace<D>, m: Machine<D>, plain: map<nat, D>, op: Op<D>)
    requires Traced(t, m, plain) && Legal(m, op)
    ensures Inv(m) && Traced(Then(t, op), Step(m, op), PlainStep(plain, m.s.noPages, op).0)
  {
    TracedInv(t, m, plain);
    StartsInOrder(t.max, t.file, t.n);
    CacheIsTransparent(Initial(t.max, t.file, t.n), t.ops, m, t.file);
    RunsOn(t, m, Step(m, op), op);
  }

  lemma RunsOn<D>(t: Trace<D>, m: Machine<D>, n: Machine<D>, op: Op<D>)
    requires RunFromStart(t.max, t.file, t.n, t.ops, m) && Moves(m, op, n)
    ensures RunFromStart(t.max, t.file, t.n, t.ops + [op], n)
    ensures var (store, pages) := PlainRun(t.file, t.n, t.ops);
      PlainRun(t.file, t.n, t.ops + [op]) == PlainStep(store, pages, op)
  {
    assert (t.ops + [op])[..|t.ops|] == t.ops;
  }

  /** In every run the cache stays within its bound, and the counters are what they count. */
  lemma CountersCount<D>(max: nat, disk: map<nat, D>, n: nat, ops: seq<Op<D>>, m: Machine<D>)
    requires RunFromStart(max, disk, n, ops, m)
    ensures m.s.max == max && m.s.count == |m.s.cache.Keys| + |m.s.getting.Keys|
    ensures max > 0 ==> m.s.count <= max
    ensures forall u :: Outstanding(m.es, u) == if u in m.s.refs then m.s.refs[u] else 0
  {
    StartsInOrder(max, disk, n);
    CacheIsTransparent(Initial(max, disk, n), ops, m, disk);
  }

  lemma BoundSame<D>(m: Machine<D>, op: Op<D>)
    requires Inv(m) && Legal(m, op)
    ensures Step(m, op).s.max == m.s.max
  {
  }

  /** All holders of a page share one handle, and a handle is freed once, when nobody holds the page. */
  lemma HandlesAreShared<D>(max: nat, disk: map<nat, D>, n: nat, ops: seq<Op<D>>, m: Machine<D>)
    requires RunFromStart(max, disk, n, ops, m)
    ensures forall i, j, u, h, k :: GotAt(m.es, i, u, h) && GotAt(m.es, j, u, k) && h != k ==>
              exists e :: FreedAt(m.es, e, h) || FreedAt(m.es, e, k)
    ensures forall e, f, h :: FreedAt(m.es, e, h) && FreedAt(m.es, f, h) ==> e == f
    ensures forall e, h :: FreedAt(m.es, e, h) ==> Outstanding(m.es[..e], m.es[e].uid) == 0
  {
    StartsInOrder(max, disk, n);
    CacheIsTransparent(Initial(max, disk, n), ops, m, disk);
    forall i, j, u, h, k | GotAt(m.es, i, u, h) && GotAt(m.es, j, u, k) && h != k
      ensures exists e :: FreedAt(m.es, e, h) || FreedAt(m.es, e, k)
    {
      GotExplained(m.s, m.es, i, u, h);
      GotExplained(m.s, m.es, j, u, k);
    }
    forall e, f, h | FreedAt(m.es, e, h) && FreedAt(m.es, f, h) ensures e == f {
      assert e < f || f < e || e == f;
    }
  }

  /** A page that exists is written back only by the release that leaves it unheld. */
  lemma WrittenBackUnheld<D>(m: Machine<D>, op: Op<D>, u: nat)
    requires Inv(m) && Legal(m, op) && u in m.s.disk
    ensures u in Step(m, op).s.disk
    ensures Step(m, op).s.disk[u] != m.s.disk[u] ==>
              op == Release(u) && Outstanding(m.es, u) == 1 && Some(Step(m, op).s.disk[u]) == View(m.s, u)
  {
    var s := m.s;
    assert u != s.noPages + 1;
    match op {
      case Release(v) => assert s.refs[v] == Outstanding(m.es, v);
      case _ =>
    }
  }
}

/** `Get` as one call, when nobody else is loading the page. */
module PageFetching {
  import opened Types
  import opened PageCaching

  datatype Fetched = Handle(handle: nat) | CacheFull | NoSuchPage

  function Fetch<D>(s: State<D>, uid: nat): (State<D>, Fetched)
    requires uid !in s.getting
  {
    match GetAnswer(s, uid)
    case Hit(h) => (GetStep(s, uid), Handle(h))
    case Full => (s, CacheFull)
    case Loads =>
      var t := ReadStep(GetStep(s, uid), uid);
      if t.getting[uid].Found? then (PublishStep(t, uid), Handle(t.handles))
      else (FailStep(t, uid), NoSuchPage)
    case Waits => (s, CacheFull)
  }

  ghost function FetchEvents(es: seq<Event>, uid: nat, r: Fetched): seq<Event> {
    if r.Handle? then es + [Got(uid, r.handle)] else es
  }

  lemma FetchKeeps<D>(s: State<D>, es: seq<Event>, uid: nat)
    requires Inv(Machine(s, es)) && uid !in s.getting
    ensures var (t, r) := Fetch(s, uid); Inv(Machine(t, FetchEvents(es, uid, r)))
  {
    var m := Machine(s, es);
    match GetAnswer(s, uid) {
      case Hit(_) => HitKeeps(m, uid);
      case Loads =>
        ReserveKeeps(m, uid);
        LoadKeeps(Machine(GetStep(s, uid), es), uid);
      case _ =>
    }
  }

  lemma LoadKeeps<D>(m: Machine<D>, uid: nat)
    requires Inv(m) && uid in m.s.getting
    ensures var t := ReadStep(m.s, uid);
            if uid in m.s.disk then Inv(Machine(PublishStep(t, uid), m.es + [Got(uid, t.handles)]))
            else t.count > 0 && Inv(Machine(FailStep(t, uid), m.es))
  {
    ReadKeeps(m, uid);
    var t := Machine(ReadStep(m.s, uid), m.es);
    if uid in m.s.disk {
      PublishKeeps(t, uid);
    } else {
      CountPositive(t.s, uid);
      FailKeeps(t, uid);
    }
  }

  /**
   * `Get` gives the logical contents of the page; it fails exactly for a full cache or a page that
   * is not in the file, and then leaves everything as it was.
   */
  lemma FetchMeans<D>(s: State<D>, uid: nat)
    requires Counted(s) && Coherent(s) && uid !in s.getting
    ensures var (t, r) := Fetch(s, uid);
            && t.disk == s.disk
            && (r.CacheFull? <==> uid !in s.cache && s.max > 0 && |s.cache.Keys| + |s.getting.Keys| == s.max)
            && (r.NoSuchPage? <==> View(s, uid) == None && !r.CacheFull?)
            && (r.Handle? ==> uid in t.cache && t.cache[uid].handle == r.handle && Some(t.cache[uid].data) == View(s, uid))
            && (!r.Handle? ==> t == s)
  {
    var (t, r) := Fetch(s, uid);
    if r.NoSuchPage? {
      assert t == s by {
        assert t.getting == s.getting;
      }
    }
  }
}

/** The cache object: each method body is one critical section of the original. */
module PageCacher {
  import opened Types
  import opened PageCaching
  import opened PageFetching

  /** A legal run from a cold start leads to `m`, and to `plain` on a plain page store. */
  ghost predicate Kept<D(!new)>(m: Machine<D>, plain: map<nat, D>) {
    exists t :: Traced(t, m, plain)
  }

  lemma KeptInv<D(!new)>(m: Machine<D>, plain: map<nat, D>)
    requires Kept(m, plain)
    ensures Inv(m) && Shows(m.s, plain)
  {
    var t :| Traced(t, m, plain);
    TracedInv(t, m, plain);
  }

  lemma KeptStep<D(!new)>(m: Machine<D>, plain: map<nat, D>, op: Op<D>)
    requires Kept(m, plain) && Legal(m, op)
    ensures Inv(m) && Kept(Step(m, op), PlainStep(plain, m.s.noPages, op).0)
  {
    var t :| Traced(t, m, plain);
    TracedStep(t, m, plain, op);
  }

  /* ----- every section is a step of the run behind the object ----- */

  lemma ReserveRuns<D(!new)>(s: State<D>, es: seq<Event>, plain: map<nat, D>, u: nat)
    requires Kept(Machine(s, es), plain)
    ensures u in s.cache ==> u in s.refs
    ensures var a := GetAnswer(s, u);
      Kept(Machine(GetStep(s, u), es + if a.Hit? then [Got(u, a.handle)] else []), plain)
  {
    KeptStep(Machine(s, es), plain, Op.Get(u));
    assert es + [] == es;
  }

  lemma ReadRuns<D(!new)>(s: State<D>, es: seq<Event>, plain: map<nat, D>, u: nat)
    requires Kept(Machine(s, es), plain) && u in s.getting && s.getting[u].Unread?
    ensures Kept(Machine(ReadStep(s, u), es), plain)
  {
    KeptStep(Machine(s, es), plain, ReadDisk(u));
  }

  lemma PublishRuns<D(!new)>(s: State<D>, es: seq<Event>, plain: map<nat, D>, u: nat)
    requires Kept(Machine(s, es), plain) && u in s.getting && s.getting[u].Found?
    ensures Kept(Machine(PublishStep(s, u), es + [Got(u, s.handles)]), plain)
  {
    KeptStep(Machine(s, es), plain, Op.Publish(u));
  }

  lemma FailRuns<D(!new)>(s: State<D>, es: seq<Event>, plain: map<nat, D>, u: nat)
    requires Kept(Machine(s, es), plain) && u in s.getting
    ensures s.count > 0 && Kept(Machine(FailStep(s, u), es), plain)
  {
    KeptStep(Machine(s, es), plain, FailLoad(u));
    CountPositive(s, u);
  }

  predicate Releasable<D>(s: State<D>, u: nat) {
    u in s.cache && u in s.refs && s.refs[u] > 0 && s.count > 0
  }

  function Released<D>(s: State<D>, es: seq<Event>, u: nat): seq<Event>
    requires Releasable(s, u)
  {
    es + [Put(u)] + if s.refs[u] == 1 then [Freed(u, s.cache[u].handle)] else []
  }

  lemma ReleaseRuns<D(!new)>(s: State<D>, es: seq<Event>, plain: map<nat, D>, u: nat)
    requires Kept(Machine(s, es), plain) && Outstanding(es, u) > 0
    ensures Releasable(s, u)
    ensures Kept(Machine(ReleaseStep(s, u), Released(s, es, u)), plain)
  {
    KeptStep(Machine(s, es), plain, Op.Release(u));
    CountPositive(s, u);
  }

  lemma WriteRuns<D(!new)>(s: State<D>, es: seq<Event>, plain: map<nat, D>, u: nat, d: D)
    requires Kept(Machine(s, es), plain) && Outstanding(es, u) > 0
    ensures u in s.cache && Kept(Machine(StoreStep(s, u, d), es), plain[u := d])
  {
    KeptStep(Machine(s, es), plain, Store(u, d));
  }

  lemma NewPageRuns<D(!new)>(s: State<D>, es: seq<Event>, plain: map<nat, D>, d: D)
    requires Kept(Machine(s, es), plain)
    ensures var n := s.noPages + 1;
      n !in plain && Kept(Machine(NewPageStep(s, d), es), plain[n := d])
  {
    KeptStep(Machine(s, es), plain, Op.NewPage(d));
    KeptInv(Machine(s, es), plain);
    assert View(s, s.noPages + 1) == None;
  }

  lemma LoadRuns<D(!new)>(s: State<D>, es: seq<Event>, plain: map<nat, D>, u: nat)
    requires Kept(Machine(s, es), plain) && u in s.getting && s.getting[u].Unread?
    ensures var t := ReadStep(s, u);
      if t.getting[u].Found? then Kept(Machine(PublishStep(t, u), es + [Got(u, t.handles)]), plain)
      else t.count > 0 && Kept(Machine(FailStep(t, u), es), plain)
  {
    ReadRuns(s, es, plain, u);
    if ReadStep(s, u).getting[u].Found? {
      PublishRuns(ReadStep(s, u), es, plain, u);
    } else {
      FailRuns(ReadStep(s, u), es, plain, u);
    }
  }

  /** `Get` as one call is a few steps of the run. */
  lemma FetchRuns<D(!new)>(s: State<D>, es: seq<Event>, plain: map<nat, D>, u: nat)
    requires Kept(Machine(s, es), plain) && u !in s.getting
    ensures u in s.cache ==> u in s.refs
    ensures var (s', r) := Fetch(s, u);
      && Kept(Machine(s', FetchEvents(es, u, r)), plain)
      && (r.CacheFull? <==> u !in s.cache && s.max > 0 && |s.cache.Keys| + |s.getting.Keys| == s.max)
      && (r.NoSuchPage? <==> u !in plain && !r.CacheFull?)
      && (r.Handle? ==>
            && Outstanding(FetchEvents(es, u, r), u) > 0 && u in plain
            && u in s'.cache && s'.cache[u].handle == r.handle && s'.cache[u].data == plain[u])
      && (!r.Handle? ==> s' == s)
  {
    var (s', r) := Fetch(s, u);
    ReserveRuns(s, es, plain, u);
    if GetAnswer(s, u) == Loads {
      assert es + [] == es;
      LoadRuns(GetStep(s, u), es, plain, u);
    }
    FetchReads(s, es, plain, u);
    HolderReads(s', FetchEvents(es, u, r), plain, u);
  }

  lemma FetchReads<D(!new)>(s: State<D>, es: seq<Event>, plain: map<nat, D>, u: nat)
    requires Kept(Machine(s, es), plain) && u !in s.getting
    ensures var (s', r) := Fetch(s, u);
      && (r.CacheFull? <==> u !in s.cache && s.max > 0 && |s.cache.Keys| + |s.getting.Keys| == s.max)
      && (r.NoSuchPage? <==> u !in plain && !r.CacheFull?)
      && (r.Handle? ==> u in s'.cache && s'.cache[u].handle == r.handle)
      && (!r.Handle? ==> s' == s)
  {
    KeptInv(Machine(s, es), plain);
    FetchMeans(s, u);
    assert View(s, u) == if u in plain then Some(plain[u]) else None;
  }

  /** Whoever holds a page reads what the plain page store has. */
  lemma HolderReads<D(!new)>(s: State<D>, es: seq<Event>, plain: map<nat, D>, u: nat)
    requires Kept(Machine(s, es), plain)
    ensures u in s.cache ==> Outstanding(es, u) > 0 && u in plain && s.cache[u].data == plain[u]
  {
    KeptInv(Machine(s, es), plain);
    assert View(s, u) == if u in plain then Some(plain[u]) else None;
  }

  class Cacher<D> {
    const max: nat
    var cache: map<nat, Page<D>>
    var refs: map<nat, nat>
    var getting: map<nat, Loading<D>>
    var count: nat
    var disk: map<nat, D>
    var noPages: nat
    var handles: nat

    ghost function Abs(): State<D>
      reads this
    {
      State(max, cache, refs, getting, count, disk, noPages, handles)
    }

    constructor (mem: nat, file: map<nat, D>, n: nat)
      ensures Abs() == Initial(mem, file, n).s
    {
      max, cache, refs, getting, count := mem, map[], map[], map[], 0;
      disk, noPages, handles := file, n, 0;
    }

    /** One turn of `Get`'s loop. */
    method Reserve(uid: nat) returns (a: Answer)
      requires uid in cache ==> uid in refs
      modifies this
      ensures a == GetAnswer(old(Abs()), uid) && Abs() == GetStep(old(Abs()), uid)
    {
      if uid in getting {
        a := Waits;
      } else if uid in cache {
        refs := refs[uid := refs[uid] + 1];
        a := Hit(cache[uid].handle);
      } else if max > 0 && count == max {
        a := Full;
      } else {
        getting := getting[uid := Unread];
        count := count + 1;
        a := Loads;
      }
    }

    method ReadPage(uid: nat)
      modifies this
      ensures Abs() == ReadStep(old(Abs()), uid)
    {
      getting := getting[uid := if uid in disk then Found(disk[uid]) else Missing];
    }

    method Publish(uid: nat) returns (h: nat)
      requires uid in getting && getting[uid].Found?
      modifies this
      ensures h == old(handles) && Abs() == PublishStep(old(Abs()), uid)
    {
      h := handles;
      handles := handles + 1;
      cache := cache[uid := Page(h, getting[uid].data, false)];
      getting := getting - {uid};
      refs := refs[uid := 1];
    }

    method Fail(uid: nat)
      requires count > 0
      modifies this
      ensures Abs() == FailStep(old(Abs()), uid)
    {
      getting := getting - {uid};
      count := count - 1;
    }

    method Release(uid: nat)
      requires uid in cache && uid in refs && refs[uid] > 0 && count > 0
      modifies this
      ensures Abs() == ReleaseStep(old(Abs()), uid)
    {
      refs := refs[uid := refs[uid] - 1];
      if refs[uid] == 0 {
        var pg := cache[uid];
        if pg.dirty {
          disk := disk[uid := pg.data];
        }
        refs := refs - {uid};
        cache := cache - {uid};
        count := count - 1;
      }
    }

    /** A holder marks the page dirty and writes to it. */
    method Write(uid: nat, data: D)
      requires uid in cache
      modifies this
      ensures Abs() == StoreStep(old(Abs()), uid, data)
    {
      cache := cache[uid := Page(cache[uid].handle, data, true)];
    }

    method NewPage(data: D) returns (pgno: nat)
      modifies this
      ensures pgno == old(noPages) + 1 && Abs() == NewPageStep(old(Abs()), data)
    {
      noPages := noPages + 1;
      pgno := noPages;
      disk := disk[pgno := data];
    }

    /** `Get` when nobody else is loading the page. */
    method Get(uid: nat) returns (r: Fetched)
      requires uid !in getting && (uid in cache ==> uid in refs)
      modifies this
      ensures (Abs(), r) == Fetch(old(Abs()), uid)
    {
      var a := Reserve(uid);
      match a {
        case Hit(h) =>
          r := Handle(h);
        case Full =>
          r := CacheFull;
        case Loads =>
          ReadPage(uid);
          if getting[uid].Found? {
            var h := Publish(uid);
            r := Handle(h);
          } else {
            Fail(uid);
            r := NoSuchPage;
          }
      }
    }
  }

  /**
   * The page cacher: callers get, write and put back pages.  It is valid if some legal run of the
   * state machine leads to its cache, the same operations on a plain page store leading to `plain`.
   */
  class Pcacher<D(!new)> {
    const c: Cacher<D>
    /** What callers have got and put back. */
    ghost var events: seq<Event>
    ghost var plain: map<nat, D>

    ghost predicate Valid()
      reads this, c
    {
      Kept(Machine(c.Abs(), events), plain)
    }

    /** Somebody holds the page. */
    ghost predicate Held(pgno: nat)
      reads this
    {
      Outstanding(events, pgno) > 0
    }

    constructor (mem: nat, file: map<nat, D>, n: nat)
      requires forall u :: u in file ==> u <= n
      ensures Valid() && fresh(c) && c.Abs() == Initial(mem, file, n).s && events == [] && plain == file
    {
      c := new Cacher(mem, file, n);
      events, plain := [], file;
      new;
      assert Traced(Trace(mem, file, n, []), Machine(c.Abs(), events), plain);
    }

    /**
     * When nobody else is loading the page, the caller ends up holding the contents a plain page
     * store has, and gets nothing exactly if the cache is full or the store has no such page.
     */
    method GetPage(pgno: nat) returns (r: Fetched)
      requires Valid() && pgno !in c.getting
      modifies this, c
      ensures Valid() && plain == old(plain) && events == FetchEvents(old(events), pgno, r)
      ensures r.Handle? ==>
        && Held(pgno) && pgno in plain
        && pgno in c.cache && c.cache[pgno].handle == r.handle && c.cache[pgno].data == plain[pgno]
      ensures r.CacheFull? <==> var s := old(c.Abs());
        pgno !in s.cache && s.max > 0 && |s.cache.Keys| + |s.getting.Keys| == s.max
      ensures r.NoSuchPage? <==> pgno !in plain && !r.CacheFull?
      ensures !r.Handle? ==> c.Abs() == old(c.Abs())
    {
      FetchRuns(c.Abs(), events, plain, pgno);
      r := c.Get(pgno);
      events := FetchEvents(events, pgno, r);
    }

    /** The last release writes the page back; the store behind the cache stays as it is. */
    method ReleasePage(pgno: nat)
      requires Valid() && Held(pgno)
      modifies this, c
      ensures Valid() && plain == old(plain)
      ensures Releasable(old(c.Abs()), pgno) && c.Abs() == ReleaseStep(old(c.Abs()), pgno)
      ensures events == Released(old(c.Abs()), old(events), pgno)
    {
      ReleaseRuns(c.Abs(), events, plain, pgno);
      events := Released(c.Abs(), events, pgno);
      c.Release(pgno);
    }

    method WritePage(pgno: nat, data: D)
      requires Valid() && Held(pgno)
      modifies this, c
      ensures Valid() && plain == old(plain)[pgno := data] && events == old(events)
      ensures c.disk == old(c.disk)
    {
      WriteRuns(c.Abs(), events, plain, pgno, data);
      c.Write(pgno, data);
      plain := plain[pgno := data];
    }

    /** The new page is one the store did not have. */
    method AddPage(data: D) returns (pgno: nat)
      requires Valid()
      modifies this, c
      ensures Valid() && pgno !in old(plain) && plain == old(plain)[pgno := data] && events == old(events)
    {
      NewPageRuns(c.Abs(), events, plain, data);
      pgno := c.NewPage(data);
      plain := plain[pgno := data];
    }
  }
}
