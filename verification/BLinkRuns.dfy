/**
 Concurrent use of the tree: any number of inserters and range scans, each holding one node at a
 time.  A step is what happens under the lock of one node, or under the lock of the boot item.
 */
module BLinkRuns {
  import opened Types
  import opened BLink
  import opened BLinkTree

  /**
   What a goroutine is doing: looking for the leaf of a pair, handing a separator to the inner level,
   replacing the root, looking for the first leaf of a range, reading leaves, or done.
   `begun` records the pairs in the tree when a scan started.
   */
  datatype Walker =
    | Rest
    | Inserting(k: Uuid, v: Uuid, rootSeen: Uuid, node: Uuid)
    | Linking(m: Uuid, s: Uuid, node: Uuid)
    | Rooting(rootSeen: Uuid, m: Uuid, s: Uuid)
    | Seeking(l: Uuid, r: Uuid, node: Uuid, begun: multiset<Entry>)
    | Scanning(l: Uuid, r: Uuid, node: Uuid, got: seq<Entry>, begun: multiset<Entry>)
    | Found(l: Uuid, r: Uuid, got: seq<Entry>, begun: multiset<Entry>)

  /** `added` counts the pairs whose leaf step has succeeded. */
  datatype Machine = Machine(t: Tree, sh: Shape, walkers: map<nat, Walker>, added: multiset<Entry>)

  datatype Op =
    | StartInsert(id: nat, k: Uuid, v: Uuid)
    | StartScan(id: nat, l: Uuid, r: Uuid)
    | Move(id: nat, alloc: Option<Uuid>)
    | GiveUp(id: nat)

  /** A tree with one empty leaf. */
  function Start(leaf: Uuid): Machine {
    Machine(Tree(map[leaf := Node(true, [], NIL)], leaf), Shape([leaf], []), map[], multiset{})
  }

  function IndexOf(ids: seq<Uuid>, n: Uuid): (i: nat)
    requires n in ids
    ensures i < |ids| && ids[i] == n
  {
    if ids[0] == n then 0 else 1 + IndexOf(ids[1..], n)
  }

  function At(m: Machine, id: nat): Walker {
    if id in m.walkers then m.walkers[id] else Rest
  }

  function Put(m: Machine, id: nat, w: Walker): Machine {
    m.(walkers := m.walkers[id := w])
  }

  /** The node a walker is about to lock exists, and the data manager hands out unused addresses. */
  predicate Enabled(m: Machine, op: Op) {
    match op
    case StartInsert(id, k, v) => At(m, id).Rest? && k < INF
    case StartScan(id, l, r) => (At(m, id).Rest? || At(m, id).Found?) && l < INF
    case Move(id, alloc) =>
      && (alloc.Some? ==> alloc.value != NIL && alloc.value !in m.t.nodes)
      && (match At(m, id)
          case Inserting(_, _, rootSeen, node) =>
            rootSeen in m.t.nodes && node in m.t.nodes && (m.t.nodes[node].leaf ==> node in m.sh.leaves)
          case Linking(_, s, node) =>
            && node in m.t.nodes && node in m.sh.inners
            && (Accepts(m.t.nodes[node], s) ==> Rank(m.t.nodes[node].ents, s) < |m.t.nodes[node].ents|)
          case Seeking(_, _, node, _) => node in m.t.nodes
          case Scanning(_, _, node, _, _) => node in m.t.nodes
          case _ => true)
    case GiveUp(id) => At(m, id).Linking? || At(m, id).Rooting?
  }

  /** One node-level step of an inserter. */
  function InsertStep(m: Machine, id: nat, alloc: Option<Uuid>): Machine
    requires Enabled(m, Move(id, alloc)) && At(m, id).Inserting?
  {
    var w := At(m, id);
    var n := m.t.nodes[w.node];
    if !n.leaf then
      var (next, sibling) := SearchNext(n, w.k);
      Put(m, id, Inserting(w.k, w.v, w.rootSeen, if next.Some? then next.value else sibling))
    else if !Accepts(n, w.k) then
      Put(m, id, Inserting(w.k, w.v, w.rootSeen, n.sibling))
    else
      var full := |LeafInsert(n.ents, w.k, w.v)| == 2 * BALANCE;
      if full && alloc.None? then
        Put(m, id, Rest)      // the new node could not be stored: the leaf is restored
      else
        var split := if full then alloc else None;
        var t' := LeafTree(m.t, w.node, w.k, w.v, split);
        var w' :=
          if !full then Rest
          else
            var s := t'.nodes[alloc.value].ents[0].key;
            if m.t.nodes[w.rootSeen].leaf then Rooting(w.rootSeen, alloc.value, s)
            else Linking(alloc.value, s, w.rootSeen);
        Put(m.(t := t',
               sh := LeafShape(m.sh, IndexOf(m.sh.leaves, w.node), split),
               added := m.added + multiset{Entry(w.k, w.v)}), id, w')
  }

  /** One node-level step with a separator on the inner level. */
  function LinkStep(m: Machine, id: nat, alloc: Option<Uuid>): Machine
    requires Enabled(m, Move(id, alloc)) && At(m, id).Linking?
  {
    var w := At(m, id);
    var n := m.t.nodes[w.node];
    if !Accepts(n, w.s) then
      Put(m, id, Linking(w.m, w.s, n.sibling))
    else
      var full := |InnerInsert(n.ents, w.s, w.m)| == 2 * BALANCE;
      if full && alloc.None? then Put(m, id, Rest)
      else
        var split := if full then alloc else None;
        Put(m.(t := InnerTree(m.t, w.node, w.s, w.m, split),
               sh := InnerShape(m.sh, IndexOf(m.sh.inners, w.node), split)), id, Rest)
  }

  /** Under the boot lock: the root is replaced only if it is still the one the inserter started from. */
  function RootStep(m: Machine, id: nat, alloc: Option<Uuid>): Machine
    requires At(m, id).Rooting?
  {
    var w := At(m, id);
    if m.t.root == w.rootSeen && alloc.Some? then
      Put(m.(t := RootTree(m.t, w.m, w.s, alloc.value), sh := m.sh.(inners := [alloc.value])), id, Rest)
    else Put(m, id, Rest)
  }

  function ScanStep(m: Machine, id: nat, alloc: Option<Uuid>): Machine
    requires Enabled(m, Move(id, alloc)) && (At(m, id).Seeking? || At(m, id).Scanning?)
  {
    var w := At(m, id);
    var n := m.t.nodes[w.node];
    if w.Seeking? then
      if n.leaf then Put(m, id, Scanning(w.l, w.r, w.node, [], w.begun))
      else
        var (next, sibling) := SearchNext(n, w.l);
        Put(m, id, Seeking(w.l, w.r, if next.Some? then next.value else sibling, w.begun))
    else
      var (tmp, next) := LeafRange(n, w.l, w.r);
      if next == NIL then Put(m, id, Found(w.l, w.r, w.got + tmp, w.begun))
      else Put(m, id, Scanning(w.l, w.r, next, w.got + tmp, w.begun))
  }

  ghost function Step(m: Machine, op: Op): Machine
    requires Enabled(m, op) && Leveled(m.t, m.sh)
  {
    match op
    case StartInsert(id, k, v) => Put(m, id, Inserting(k, v, m.t.root, m.t.root))
    case StartScan(id, l, r) => Put(m, id, Seeking(l, r, m.t.root, multiset(Pairs(m.t, m.sh))))
    case Move(id, alloc) =>
      (match At(m, id)
       case Inserting(_, _, _, _) => InsertStep(m, id, alloc)
       case Linking(_, _, _) => LinkStep(m, id, alloc)
       case Rooting(_, _, _) => RootStep(m, id, alloc)
       case Seeking(_, _, _, _) => ScanStep(m, id, alloc)
       case Scanning(_, _, _, _, _) => ScanStep(m, id, alloc)
       case _ => m)
    case GiveUp(id) => Put(m, id, Rest)
  }

  /* ----- the invariant ----- */

  /** No two pairs of `ms` have key `l`. */
  ghost predicate OnceIn(ms: multiset<Entry>, l: Uuid) {
    && (forall e: Entry :: e in ms && e.key == l ==> ms[e] == 1)
    && (forall e: Entry, f: Entry :: e in ms && f in ms && e.key == l && f.key == l ==> e == f)
  }

  /** The tree has one pair with key `l`, and a scan began with it. */
  ghost predicate Once(t: Tree, sh: Shape, begun: multiset<Entry>, l: Uuid)
    requires Leveled(t, sh)
  {
    OnceIn(multiset(Pairs(t, sh)), l) && exists e: Entry :: e in begun && e.key == l
  }

  /** A scan on its way down: it stands for `l`, and a leaf it stands at is not behind the one pair with key `l`. */
  ghost predicate SeeksAt(t: Tree, sh: Shape, n: Uuid, l: Uuid, begun: multiset<Entry>, i: nat)
    requires Leveled(t, sh)
  {
    StandsAt(t.nodes, sh.leaves, n, l, i) && (Once(t, sh, begun, l) ==> !HasKey(Before(t, sh, i), l))
  }

  ghost predicate Seeks(t: Tree, sh: Shape, n: Uuid, l: Uuid, begun: multiset<Entry>)
    requires Leveled(t, sh)
  {
    || (exists i: nat :: SeeksAt(t, sh, n, l, begun, i))
    || (exists i: nat :: StandsAt(t.nodes, sh.inners, n, l, i))
  }

  ghost predicate Scans(t: Tree, sh: Shape, n: Uuid, l: Uuid, r: Uuid, got: seq<Entry>, begun: multiset<Entry>, exact: bool)
    requires Leveled(t, sh)
  {
    exists i: nat :: ScansAt(t, sh, n, l, r, got, begun, i, exact)
  }

  ghost predicate WalkerOk(t: Tree, sh: Shape, w: Walker)
    requires Leveled(t, sh)
  {
    match w
    case Rest => true
    case Inserting(k, _, rootSeen, node) =>
      && k < INF && Stands(t, sh, node, k)
      && (rootSeen == sh.leaves[0] || (sh.inners != [] && rootSeen == sh.inners[0]))
    case Linking(m, s, node) =>
      Guides(t, sh, s, m) && exists i: nat :: StandsAt(t.nodes, sh.inners, node, s, i)
    case Rooting(rootSeen, m, s) => rootSeen == sh.leaves[0] && Guides(t, sh, s, m)
    case Seeking(l, _, node, begun) =>
      l < INF && Seeks(t, sh, node, l, begun) && begun <= multiset(Pairs(t, sh))
    case Scanning(l, r, node, got, begun) =>
      begun <= multiset(Pairs(t, sh)) && Scans(t, sh, node, l, r, got, begun, Once(t, sh, begun, l))
    case Found(l, r, got, begun) =>
      begun <= multiset(Pairs(t, sh)) && Scanned(t, sh, l, r, got, begun, Once(t, sh, begun, l))
  }

  ghost predicate MInv(m: Machine) {
    && Inv(m.t, m.sh) && multiset(Pairs(m.t, m.sh)) == m.added
    && forall id :: id in m.walkers ==> WalkerOk(m.t, m.sh, m.walkers[id])
  }

  lemma StartInv(leaf: Uuid)
    requires leaf != NIL
    ensures MInv(Start(leaf))
  {
    var m := Start(leaf);
    assert Flat(m.t.nodes, [leaf]) == m.t.nodes[leaf].ents + Flat(m.t.nodes, []);
  }

  /** Only one walker changes its place. */
  lemma PutKeeps(m: Machine, id: nat, w: Walker)
    requires MInv(m) && WalkerOk(m.t, m.sh, w)
    ensures MInv(Put(m, id, w))
  {
  }

  /** Where a standing walker's node is. */
  lemma StandsWhere(t: Tree, sh: Shape, n: Uuid, k: Uuid) returns (i: nat)
    requires Leveled(t, sh) && Stands(t, sh, n, k)
    ensures n in t.nodes
    ensures t.nodes[n].leaf ==> StandsAt(t.nodes, sh.leaves, n, k, i)
    ensures !t.nodes[n].leaf ==> StandsAt(t.nodes, sh.inners, n, k, i)
  {
    if j: nat :| StandsAt(t.nodes, sh.leaves, n, k, j) {
      i := j;
    } else {
      i :| StandsAt(t.nodes, sh.inners, n, k, i);
    }
  }

  lemma RootStands(t: Tree, sh: Shape, k: Uuid)
    requires Leveled(t, sh)
    ensures Stands(t, sh, t.root, k)
  {
    if sh.inners == [] {
      assert StandsAt(t.nodes, sh.leaves, t.root, k, 0);
    } else {
      assert StandsAt(t.nodes, sh.inners, t.root, k, 0);
    }
  }

  lemma RootSeeks(t: Tree, sh: Shape, l: Uuid, begun: multiset<Entry>)
    requires Leveled(t, sh)
    ensures Seeks(t, sh, t.root, l, begun)
  {
    if sh.inners == [] {
      assert Before(t, sh, 0) == [];
      assert SeeksAt(t, sh, t.root, l, begun, 0);
    } else {
      assert StandsAt(t.nodes, sh.inners, t.root, l, 0);
    }
  }

  /** Where a seeking walker's node is. */
  lemma SeeksWhere(t: Tree, sh: Shape, n: Uuid, l: Uuid, begun: multiset<Entry>) returns (i: nat)
    requires Leveled(t, sh) && Seeks(t, sh, n, l, begun)
    ensures n in t.nodes
    ensures t.nodes[n].leaf ==> SeeksAt(t, sh, n, l, begun, i)
    ensures !t.nodes[n].leaf ==> StandsAt(t.nodes, sh.inners, n, l, i)
  {
    if j: nat :| SeeksAt(t, sh, n, l, begun, j) {
      i := j;
    } else {
      i :| StandsAt(t.nodes, sh.inners, n, l, i);
    }
  }

  lemma TwiceIn(b: seq<Entry>, f: seq<Entry>, l: Uuid)
    requires HasKey(b, l) && HasKey(f, l)
    ensures !OnceIn(multiset(b + f), l)
  {
    var p :| 0 <= p < |b| && b[p].key == l;
    var q :| 0 <= q < |f| && f[q].key == l;
    assert b[p] in multiset(b) && f[q] in multiset(f);
    if b[p] == f[q] {
      assert multiset(b + f)[b[p]] >= 2;
    }
  }

  lemma TwiceWith(ms: multiset<Entry>, e: Entry, f: Entry)
    requires f in ms && f.key == e.key
    ensures !OnceIn(ms + multiset{e}, e.key)
  {
    assert e in ms + multiset{e} && f in ms + multiset{e};
    if e == f {
      assert (ms + multiset{e})[e] >= 2;
    }
  }

  /** If the key is there once after a pair has come, it was there once before, and the pair has another key. */
  lemma OnceShrinks(ms: multiset<Entry>, e: Entry, begun: multiset<Entry>, l: Uuid)
    requires OnceIn(ms + multiset{e}, l) && begun <= ms && exists f: Entry :: f in begun && f.key == l
    ensures OnceIn(ms, l) && e.key != l
  {
    var f: Entry :| f in begun && f.key == l;
    assert f in ms;
    if e.key == l {
      TwiceWith(ms, e, f);
    }
    assert forall g: Entry :: g in ms ==> g in ms + multiset{e} && ms[g] <= (ms + multiset{e})[g];
  }

  lemma NoKeyGrows(b: seq<Entry>, b': seq<Entry>, e: Entry, l: Uuid)
    requires b' == b || multiset(b') == multiset(b) + multiset{e}
    requires !HasKey(b, l) && e.key != l
    ensures !HasKey(b', l)
  {
    forall p | 0 <= p < |b'|
      ensures b'[p].key != l
    {
      assert b'[p] in multiset(b');
      if b'[p] != e {
        assert b'[p] in multiset(b);
        assert b'[p] in b;
      }
    }
  }

  /** What is shown of more pairs is shown of fewer. */
  lemma ScansLess(t: Tree, sh: Shape, n: Uuid, l: Uuid, r: Uuid, got: seq<Entry>, begun: multiset<Entry>, i: nat,
                  exact: bool, exact': bool)
    requires Leveled(t, sh) && ScansAt(t, sh, n, l, r, got, begun, i, exact) && (exact' ==> exact)
    ensures ScansAt(t, sh, n, l, r, got, begun, i, exact')
  {
    assert forall e: Entry :: Owed(e, l, r, exact') ==> Owed(e, l, r, exact);
  }

  lemma StartKeeps(m: Machine, op: Op)
    requires MInv(m) && Enabled(m, op) && (op.StartInsert? || op.StartScan? || op.GiveUp?)
    ensures MInv(Step(m, op))
  {
    match op {
      case StartInsert(id, k, v) =>
        RootStands(m.t, m.sh, k);
        PutKeeps(m, id, Inserting(k, v, m.t.root, m.t.root));
      case StartScan(id, l, r) =>
        RootSeeks(m.t, m.sh, l, multiset(Pairs(m.t, m.sh)));
        PutKeeps(m, id, Seeking(l, r, m.t.root, multiset(Pairs(m.t, m.sh))));
      case GiveUp(id) =>
        PutKeeps(m, id, Rest);
    }
  }

  /** A walker on an inner node goes down or right. */
  lemma DescendKeeps(t: Tree, sh: Shape, n: Uuid, k: Uuid)
    requires Inv(t, sh) && k < INF && Stands(t, sh, n, k) && n in t.nodes && !t.nodes[n].leaf
    ensures var (next, sibling) := SearchNext(t.nodes[n], k);
      Stands(t, sh, if next.Some? then next.value else sibling, k)
  {
    var j := StandsWhere(t, sh, n, k);
    if SearchNext(t.nodes[n], k).0.Some? {
      var i := DescendInner(t, sh, n, k, j);
    } else {
      RightInner(t, sh, n, k, j);
    }
  }

  /** A scan on an inner node goes down or right; the leaf it comes to is not behind the one pair it looks for. */
  lemma DescendSeeks(t: Tree, sh: Shape, n: Uuid, l: Uuid, begun: multiset<Entry>)
    requires Inv(t, sh) && l < INF && Seeks(t, sh, n, l, begun) && n in t.nodes && !t.nodes[n].leaf
    ensures var (next, sibling) := SearchNext(t.nodes[n], l);
      Seeks(t, sh, if next.Some? then next.value else sibling, l, begun)
  {
    var j := SeeksWhere(t, sh, n, l, begun);
    if SearchNext(t.nodes[n], l).0.Some? {
      var i := DescendInner(t, sh, n, l, j);
      CutPairs(t, sh, i);
      if Once(t, sh, begun, l) && HasKey(Before(t, sh, i), l) {
        TwiceIn(Before(t, sh, i), From(t, sh, i), l);
      }
      assert SeeksAt(t, sh, SearchNext(t.nodes[n], l).0.value, l, begun, i);
    } else {
      RightInner(t, sh, n, l, j);
    }
  }

  lemma ScanKeeps(m: Machine, id: nat, alloc: Option<Uuid>)
    requires MInv(m) && Enabled(m, Move(id, alloc)) && (At(m, id).Seeking? || At(m, id).Scanning?)
    ensures MInv(ScanStep(m, id, alloc))
  {
    var w := At(m, id);
    var n := m.t.nodes[w.node];
    var exact := Once(m.t, m.sh, w.begun, w.l);
    if w.Seeking? {
      if n.leaf {
        var i := SeeksWhere(m.t, m.sh, w.node, w.l, w.begun);
        ScanStarts(m.t, m.sh, w.node, w.l, w.r, w.begun, i, exact);
        PutKeeps(m, id, Scanning(w.l, w.r, w.node, [], w.begun));
      } else {
        DescendSeeks(m.t, m.sh, w.node, w.l, w.begun);
        var (next, sibling) := SearchNext(n, w.l);
        PutKeeps(m, id, Seeking(w.l, w.r, if next.Some? then next.value else sibling, w.begun));
      }
    } else {
      var i: nat :| ScansAt(m.t, m.sh, w.node, w.l, w.r, w.got, w.begun, i, exact);
      var (tmp, next) := LeafRange(n, w.l, w.r);
      if next == NIL {
        ScanEnds(m.t, m.sh, w.node, w.l, w.r, w.got, w.begun, i, exact);
        PutKeeps(m, id, Found(w.l, w.r, w.got + tmp, w.begun));
      } else {
        ScanMoves(m.t, m.sh, w.node, w.l, w.r, w.got, w.begun, i, exact);
        PutKeeps(m, id, Scanning(w.l, w.r, next, w.got + tmp, w.begun));
      }
    }
  }

  /* ----- a pair enters a leaf: nobody else is disturbed ----- */

  lemma LeafKeepsScan(t: Tree, sh: Shape, j: nat, k: Uuid, v: Uuid, split: Option<Uuid>,
                      n: Uuid, l: Uuid, r: Uuid, got: seq<Entry>, begun: multiset<Entry>, i: nat, exact: bool)
    requires LeafPut(t, sh, j, k, v, split) && ScansAt(t, sh, n, l, r, got, begun, i, exact)
    ensures var t', sh' := LeafTree(t, sh.leaves[j], k, v, split), LeafShape(sh, j, split);
      Leveled(t', sh') && ScansAt(t', sh', n, l, r, got, begun, Moved(i, j, split), exact)
  {
    var t', sh', i' := LeafTree(t, sh.leaves[j], k, v, split), LeafShape(sh, j, split), Moved(i, j, split);
    LeafGrown(t, sh, j, k, v, split, i);
    GrownCounts(Before(t, sh, i), From(t, sh, i), Before(t', sh', i'), From(t', sh', i'), Entry(k, v));
  }

  lemma LeafKeepsSeek(t: Tree, sh: Shape, j: nat, k: Uuid, v: Uuid, split: Option<Uuid>, n: Uuid, l: Uuid, begun: multiset<Entry>)
    requires LeafPut(t, sh, j, k, v, split) && Seeks(t, sh, n, l, begun) && begun <= multiset(Pairs(t, sh))
    ensures var t', sh' := LeafTree(t, sh.leaves[j], k, v, split), LeafShape(sh, j, split);
      Leveled(t', sh') && Seeks(t', sh', n, l, begun)
  {
    if i: nat :| SeeksAt(t, sh, n, l, begun, i) {
      LeafKeepsSeekAt(t, sh, j, k, v, split, n, l, begun, i);
    } else {
      var i: nat :| StandsAt(t.nodes, sh.inners, n, l, i);
      LeafKeepsInnerStand(t, sh, j, k, v, split, n, l, i);
    }
  }

  lemma LeafKeepsSeekAt(t: Tree, sh: Shape, j: nat, k: Uuid, v: Uuid, split: Option<Uuid>,
                        n: Uuid, l: Uuid, begun: multiset<Entry>, i: nat)
    requires LeafPut(t, sh, j, k, v, split) && SeeksAt(t, sh, n, l, begun, i) && begun <= multiset(Pairs(t, sh))
    ensures var t', sh' := LeafTree(t, sh.leaves[j], k, v, split), LeafShape(sh, j, split);
      Leveled(t', sh') && SeeksAt(t', sh', n, l, begun, Moved(i, j, split))
  {
    var t', sh', i' := LeafTree(t, sh.leaves[j], k, v, split), LeafShape(sh, j, split), Moved(i, j, split);
    var b, f := Before(t, sh, i), From(t, sh, i);
    LeafGrown(t, sh, j, k, v, split, i);
    GrownKeeps(b, f, Before(t', sh', i'), From(t', sh', i'), Entry(k, v), l);
    if Once(t', sh', begun, l) {
      LeafPairs(t, sh, j, k, v, split);
      OnceShrinks(multiset(Pairs(t, sh)), Entry(k, v), begun, l);
      GrownCounts(b, f, Before(t', sh', i'), From(t', sh', i'), Entry(k, v));
      NoKeyGrows(b, Before(t', sh', i'), Entry(k, v), l);
    }
  }

  /** If the key a scan began with is there once after a leaf step, it was so before. */
  lemma LeafKeepsOnce(t: Tree, sh: Shape, j: nat, k: Uuid, v: Uuid, split: Option<Uuid>, l: Uuid, begun: multiset<Entry>)
    requires LeafPut(t, sh, j, k, v, split) && begun <= multiset(Pairs(t, sh))
    ensures var t', sh' := LeafTree(t, sh.leaves[j], k, v, split), LeafShape(sh, j, split);
      Leveled(t', sh') && (Once(t', sh', begun, l) ==> Once(t, sh, begun, l))
  {
    var t', sh' := LeafTree(t, sh.leaves[j], k, v, split), LeafShape(sh, j, split);
    LeafPairs(t, sh, j, k, v, split);
    if Once(t', sh', begun, l) {
      OnceShrinks(multiset(Pairs(t, sh)), Entry(k, v), begun, l);
    }
  }

  lemma LeafKeepsWalker(t: Tree, sh: Shape, j: nat, k: Uuid, v: Uuid, split: Option<Uuid>, w: Walker)
    requires LeafPut(t, sh, j, k, v, split) && WalkerOk(t, sh, w)
    ensures var t', sh' := LeafTree(t, sh.leaves[j], k, v, split), LeafShape(sh, j, split);
      Leveled(t', sh') && WalkerOk(t', sh', w)
  {
    var t', sh' := LeafTree(t, sh.leaves[j], k, v, split), LeafShape(sh, j, split);
    LeafLeveled(t, sh, j, k, v, split);
    LeafPairs(t, sh, j, k, v, split);
    match w {
      case Rest =>
      case Inserting(q, _, _, node) => LeafKeepsStand(t, sh, j, k, v, split, node, q);
      case Linking(m, s, node) =>
        LeafKeepsGuide(t, sh, j, k, v, split, s, m);
        var i: nat :| StandsAt(t.nodes, sh.inners, node, s, i);
        LeafKeepsInnerStand(t, sh, j, k, v, split, node, s, i);
      case Rooting(_, m, s) => LeafKeepsGuide(t, sh, j, k, v, split, s, m);
      case Seeking(l, _, node, begun) => LeafKeepsSeek(t, sh, j, k, v, split, node, l, begun);
      case Scanning(_, _, _, _, _) => LeafKeepsScanning(t, sh, j, k, v, split, w);
      case Found(l, _, _, begun) => LeafKeepsOnce(t, sh, j, k, v, split, l, begun);
    }
  }

  lemma LeafKeepsScanning(t: Tree, sh: Shape, j: nat, k: Uuid, v: Uuid, split: Option<Uuid>, w: Walker)
    requires LeafPut(t, sh, j, k, v, split) && w.Scanning? && WalkerOk(t, sh, w)
    ensures var t', sh' := LeafTree(t, sh.leaves[j], k, v, split), LeafShape(sh, j, split);
      Leveled(t', sh') && WalkerOk(t', sh', w)
  {
    var t', sh' := LeafTree(t, sh.leaves[j], k, v, split), LeafShape(sh, j, split);
    var exact := Once(t, sh, w.begun, w.l);
    var i: nat :| ScansAt(t, sh, w.node, w.l, w.r, w.got, w.begun, i, exact);
    LeafPairs(t, sh, j, k, v, split);
    LeafKeepsScan(t, sh, j, k, v, split, w.node, w.l, w.r, w.got, w.begun, i, exact);
    LeafKeepsOnce(t, sh, j, k, v, split, w.l, w.begun);
    ScansLess(t', sh', w.node, w.l, w.r, w.got, w.begun, Moved(i, j, split), exact, Once(t', sh', w.begun, w.l));
  }

  lemma LeafKeepsInnerStand(t: Tree, sh: Shape, j: nat, k: Uuid, v: Uuid, split: Option<Uuid>, n: Uuid, q: Uuid, i: nat)
    requires LeafPut(t, sh, j, k, v, split) && StandsAt(t.nodes, sh.inners, n, q, i)
    ensures var t', sh' := LeafTree(t, sh.leaves[j], k, v, split), LeafShape(sh, j, split);
      Leveled(t', sh') && StandsAt(t'.nodes, sh'.inners, n, q, i)
  {
    LeafLeveled(t, sh, j, k, v, split);
    assert sh.leaves[j] !in sh.inners;
    PutElsewhere(t.nodes, sh.leaves[j], LeafInsert(t.nodes[sh.leaves[j]].ents, k, v), split, sh.inners, false);
  }

  /* ----- the inner level changes: walkers of the leaf level see no difference ----- */

  lemma InnerKeepsWalker(t: Tree, sh: Shape, j: nat, s: Uuid, m: Uuid, split: Option<Uuid>, w: Walker)
    requires InnerPut(t, sh, j, s, m, split) && WalkerOk(t, sh, w)
    ensures var t', sh' := InnerTree(t, sh.inners[j], s, m, split), InnerShape(sh, j, split);
      Leveled(t', sh') && WalkerOk(t', sh', w)
  {
    var t', sh' := InnerTree(t, sh.inners[j], s, m, split), InnerShape(sh, j, split);
    InnerLeveled(t, sh, j, s, m, split);
    assert sh'.inners[0] == sh.inners[0];
    match w {
      case Rest =>
      case Inserting(q, _, _, node) => InnerKeepsStand(t, sh, j, s, m, split, node, q);
      case Linking(m', s', node) =>
        SameLeaves(t, sh, t', sh', s', m');
        var i: nat :| StandsAt(t.nodes, sh.inners, node, s', i);
        InnerKeepsInnerStand(t, sh, j, s, m, split, node, s', i);
      case Rooting(_, m', s') => SameLeaves(t, sh, t', sh', s', m');
      case Seeking(l, _, node, begun) => InnerKeepsSeek(t, sh, j, s, m, split, node, l, begun);
      case Scanning(l, r, node, got, begun) =>
        SameScan(t, sh, t', sh', node, l, r, got, begun, Once(t, sh, begun, l));
      case Found(_, _, _, _) =>
    }
  }

  lemma InnerKeepsSeek(t: Tree, sh: Shape, j: nat, s: Uuid, m: Uuid, split: Option<Uuid>, n: Uuid, l: Uuid, begun: multiset<Entry>)
    requires InnerPut(t, sh, j, s, m, split) && Seeks(t, sh, n, l, begun)
    ensures var t', sh' := InnerTree(t, sh.inners[j], s, m, split), InnerShape(sh, j, split);
      Leveled(t', sh') && Seeks(t', sh', n, l, begun)
  {
    var t', sh' := InnerTree(t, sh.inners[j], s, m, split), InnerShape(sh, j, split);
    InnerLeveled(t, sh, j, s, m, split);
    if i: nat :| SeeksAt(t, sh, n, l, begun, i) {
      SameSeek(t, sh, t', sh', n, l, begun, i);
    } else {
      var i: nat :| StandsAt(t.nodes, sh.inners, n, l, i);
      InnerKeepsInnerStand(t, sh, j, s, m, split, n, l, i);
    }
  }

  lemma SameSeek(t: Tree, sh: Shape, t': Tree, sh': Shape, n: Uuid, l: Uuid, begun: multiset<Entry>, i: nat)
    requires Leveled(t, sh) && Leveled(t', sh') && sh'.leaves == sh.leaves && Pairs(t', sh') == Pairs(t, sh)
    requires forall i :: 0 <= i <= |sh.leaves| ==> Before(t', sh', i) == Before(t, sh, i)
    requires SeeksAt(t, sh, n, l, begun, i)
    ensures SeeksAt(t', sh', n, l, begun, i)
  {
    LeafStandStays(t, sh, t', sh', n, l, i);
    assert Before(t', sh', i) == Before(t, sh, i);
  }

  lemma SameScan(t: Tree, sh: Shape, t': Tree, sh': Shape, n: Uuid, l: Uuid, r: Uuid,
                 got: seq<Entry>, begun: multiset<Entry>, exact: bool)
    requires Leveled(t, sh) && Leveled(t', sh') && sh'.leaves == sh.leaves && Pairs(t', sh') == Pairs(t, sh)
    requires forall i :: 0 <= i <= |sh.leaves| ==> Before(t', sh', i) == Before(t, sh, i)
    requires Scans(t, sh, n, l, r, got, begun, exact)
    ensures Scans(t', sh', n, l, r, got, begun, exact)
  {
    var i: nat :| ScansAt(t, sh, n, l, r, got, begun, i, exact);
    assert Before(t', sh', i) == Before(t, sh, i);
    SameFrom(t, sh, t', sh', i);
    SameScanAt(t, sh, t', sh', n, l, r, got, begun, i, exact);
  }

  lemma SameFrom(t: Tree, sh: Shape, t': Tree, sh': Shape, i: nat)
    requires Leveled(t, sh) && Leveled(t', sh') && sh'.leaves == sh.leaves && Pairs(t', sh') == Pairs(t, sh)
    requires i <= |sh.leaves| && Before(t', sh', i) == Before(t, sh, i)
    ensures From(t', sh', i) == From(t, sh, i)
  {
    CutPairs(t, sh, i);
    CutPairs(t', sh', i);
    assert From(t', sh', i) == Pairs(t', sh')[|Before(t', sh', i)|..];
    assert From(t, sh, i) == Pairs(t, sh)[|Before(t, sh, i)|..];
  }

  lemma SameScanAt(t: Tree, sh: Shape, t': Tree, sh': Shape, n: Uuid, l: Uuid, r: Uuid,
                   got: seq<Entry>, begun: multiset<Entry>, i: nat, exact: bool)
    requires Leveled(t, sh) && Leveled(t', sh') && sh'.leaves == sh.leaves
    requires ScansAt(t, sh, n, l, r, got, begun, i, exact)
    requires Before(t', sh', i) == Before(t, sh, i) && From(t', sh', i) == From(t, sh, i)
    ensures ScansAt(t', sh', n, l, r, got, begun, i, exact)
  {
  }

  lemma RootKeepsWalker(t: Tree, sh: Shape, m: Uuid, s: Uuid, r: Uuid, w: Walker)
    requires Leveled(t, sh) && sh.inners == [] && r != NIL && r !in t.nodes && WalkerOk(t, sh, w)
    ensures var t', sh' := RootTree(t, m, s, r), sh.(inners := [r]); Leveled(t', sh') && WalkerOk(t', sh', w)
  {
    var t', sh' := RootTree(t, m, s, r), sh.(inners := [r]);
    RootLeveled(t, sh, m, s, r);
    match w {
      case Rest =>
      case Inserting(q, _, _, node) =>
        var i: nat :| StandsAt(t.nodes, sh.leaves, node, q, i);
        LeafStandStays(t, sh, t', sh', node, q, i);
      case Linking(m', s', node) =>
      case Rooting(_, m', s') => SameLeaves(t, sh, t', sh', s', m');
      case Seeking(l, _, node, begun) =>
        var i: nat :| SeeksAt(t, sh, node, l, begun, i);
        SameSeek(t, sh, t', sh', node, l, begun, i);
      case Scanning(l, r, node, got, begun) =>
        SameScan(t, sh, t', sh', node, l, r, got, begun, Once(t, sh, begun, l));
      case Found(_, _, _, _) =>
    }
  }

  lemma {:induction false} IndexUnique(ids: seq<Uuid>, n: Uuid, i: nat)
    requires i < |ids| && ids[i] == n
    requires forall i, j :: 0 <= i < j < |ids| ==> ids[i] != ids[j]
    ensures IndexOf(ids, n) == i
  {
  }

  /** The state after a leaf step, apart from the inserter's own next move. */
  function AfterLeaf(m: Machine, w: Walker, split: Option<Uuid>): Machine
    requires w.Inserting? && w.node in m.t.nodes && w.node in m.sh.leaves
    requires split.Some? ==> |LeafInsert(m.t.nodes[w.node].ents, w.k, w.v)| >= BALANCE
  {
    m.(t := LeafTree(m.t, w.node, w.k, w.v, split),
       sh := LeafShape(m.sh, IndexOf(m.sh.leaves, w.node), split),
       added := m.added + multiset{Entry(w.k, w.v)})
  }

  lemma AfterLeafKeeps(m: Machine, w: Walker, split: Option<Uuid>, j: nat)
    requires MInv(m) && w.Inserting? && j < |m.sh.leaves| && m.sh.leaves[j] == w.node
    requires LeafReady(m.t, m.sh, j, w.k, w.v, split)
    ensures MInv(AfterLeaf(m, w, split))
  {
    IndexUnique(m.sh.leaves, w.node, j);
    LeafKeeps(m.t, m.sh, j, w.k, w.v, split);
    LeafPairs(m.t, m.sh, j, w.k, w.v, split);
    forall id | id in m.walkers
      ensures WalkerOk(AfterLeaf(m, w, split).t, AfterLeaf(m, w, split).sh, m.walkers[id])
    {
      LeafKeepsWalker(m.t, m.sh, j, w.k, w.v, split, m.walkers[id]);
    }
  }

  /** The inserter's next move after a split: the separator goes to the root or to the inner level. */
  lemma AfterSplit(m: Machine, w: Walker, j: nat, a: Uuid)
    requires MInv(m) && w.Inserting? && WalkerOk(m.t, m.sh, w)
    requires j < |m.sh.leaves| && m.sh.leaves[j] == w.node && LeafReady(m.t, m.sh, j, w.k, w.v, Some(a))
    ensures var m' := AfterLeaf(m, w, Some(a));
      && Leveled(m'.t, m'.sh) && a in m'.t.nodes && m'.t.nodes[a].ents != []
      && w.rootSeen in m.t.nodes
      && var s := m'.t.nodes[a].ents[0].key;
      && (m.t.nodes[w.rootSeen].leaf ==> WalkerOk(m'.t, m'.sh, Rooting(w.rootSeen, a, s)))
      && (!m.t.nodes[w.rootSeen].leaf ==> WalkerOk(m'.t, m'.sh, Linking(a, s, w.rootSeen)))
  {
    IndexUnique(m.sh.leaves, w.node, j);
    NewLeafGuides(m.t, m.sh, j, w.k, w.v, a);
    LeafLeveled(m.t, m.sh, j, w.k, w.v, Some(a));
    var m' := AfterLeaf(m, w, Some(a));
    if !m.t.nodes[w.rootSeen].leaf {
      assert w.rootSeen == m.sh.inners[0];
      assert m'.sh.inners[..0] == [];
      assert StandsAt(m'.t.nodes, m'.sh.inners, w.rootSeen, m'.t.nodes[a].ents[0].key, 0);
    }
  }

  lemma InsertKeeps(m: Machine, id: nat, alloc: Option<Uuid>)
    requires MInv(m) && Enabled(m, Move(id, alloc)) && At(m, id).Inserting?
    ensures MInv(InsertStep(m, id, alloc))
  {
    var w := At(m, id);
    var n := m.t.nodes[w.node];
    if !n.leaf {
      DescendKeeps(m.t, m.sh, w.node, w.k);
      var (next, sibling) := SearchNext(n, w.k);
      PutKeeps(m, id, Inserting(w.k, w.v, w.rootSeen, if next.Some? then next.value else sibling));
    } else {
      var j := StandsWhere(m.t, m.sh, w.node, w.k);
      if !Accepts(n, w.k) {
        RightLeaf(m.t, m.sh, w.node, w.k, j);
        PutKeeps(m, id, Inserting(w.k, w.v, w.rootSeen, n.sibling));
      } else {
        InsertLands(m, id, alloc, j);
      }
    }
  }

  lemma InsertLands(m: Machine, id: nat, alloc: Option<Uuid>, j: nat)
    requires MInv(m) && Enabled(m, Move(id, alloc)) && At(m, id).Inserting?
    requires var w := At(m, id);
      m.t.nodes[w.node].leaf && Accepts(m.t.nodes[w.node], w.k) && StandsAt(m.t.nodes, m.sh.leaves, w.node, w.k, j)
    ensures MInv(InsertStep(m, id, alloc))
  {
    var w := At(m, id);
    var full := |LeafInsert(m.t.nodes[w.node].ents, w.k, w.v)| == 2 * BALANCE;
    if full && alloc.None? {
      PutKeeps(m, id, Rest);
    } else {
      var split := if full then alloc else None;
      AfterLeafKeeps(m, w, split, j);
      var m' := AfterLeaf(m, w, split);
      if full {
        AfterSplit(m, w, j, alloc.value);
        var s := m'.t.nodes[alloc.value].ents[0].key;
        PutKeeps(m', id, if m.t.nodes[w.rootSeen].leaf then Rooting(w.rootSeen, alloc.value, s)
                         else Linking(alloc.value, s, w.rootSeen));
      } else {
        PutKeeps(m', id, Rest);
      }
    }
  }

  lemma LinkKeeps(m: Machine, id: nat, alloc: Option<Uuid>)
    requires MInv(m) && Enabled(m, Move(id, alloc)) && At(m, id).Linking?
    ensures MInv(LinkStep(m, id, alloc))
  {
    var w := At(m, id);
    var n := m.t.nodes[w.node];
    var j: nat :| StandsAt(m.t.nodes, m.sh.inners, w.node, w.s, j);
    if !Accepts(n, w.s) {
      RightFence(m.t, m.sh, w.node, w.s, j);
      PutKeeps(m, id, Linking(w.m, w.s, n.sibling));
    } else {
      var full := |InnerInsert(n.ents, w.s, w.m)| == 2 * BALANCE;
      if full && alloc.None? {
        PutKeeps(m, id, Rest);
      } else {
        var split := if full then alloc else None;
        IndexUnique(m.sh.inners, w.node, j);
        LinkLands(m, w, j, split);
        PutKeeps(AfterLink(m, w, j, split), id, Rest);
      }
    }
  }

  function AfterLink(m: Machine, w: Walker, j: nat, split: Option<Uuid>): Machine
    requires w.Linking? && w.node in m.t.nodes && j < |m.sh.inners|
    requires Rank(m.t.nodes[w.node].ents, w.s) < |m.t.nodes[w.node].ents|
    requires split.Some? ==> |InnerInsert(m.t.nodes[w.node].ents, w.s, w.m)| >= BALANCE
  {
    m.(t := InnerTree(m.t, w.node, w.s, w.m, split), sh := InnerShape(m.sh, j, split))
  }

  lemma LinkLands(m: Machine, w: Walker, j: nat, split: Option<Uuid>)
    requires MInv(m) && w.Linking? && j < |m.sh.inners| && m.sh.inners[j] == w.node
    requires InnerReady(m.t, m.sh, j, w.s, w.m, split)
    ensures MInv(AfterLink(m, w, j, split))
  {
    InnerKeeps(m.t, m.sh, j, w.s, w.m, split);
    var m' := AfterLink(m, w, j, split);
    forall id | id in m.walkers
      ensures WalkerOk(m'.t, m'.sh, m.walkers[id])
    {
      InnerKeepsWalker(m.t, m.sh, j, w.s, w.m, split, m.walkers[id]);
    }
  }

  lemma RootStepKeeps(m: Machine, id: nat, alloc: Option<Uuid>)
    requires MInv(m) && Enabled(m, Move(id, alloc)) && At(m, id).Rooting?
    ensures MInv(RootStep(m, id, alloc))
  {
    var w := At(m, id);
    if m.t.root == w.rootSeen && alloc.Some? {
      assert m.sh.inners == [];
      var r := alloc.value;
      RootKeeps(m.t, m.sh, w.m, w.s, r);
      var m' := m.(t := RootTree(m.t, w.m, w.s, r), sh := m.sh.(inners := [r]));
      forall i | i in m.walkers
        ensures WalkerOk(m'.t, m'.sh, m.walkers[i])
      {
        RootKeepsWalker(m.t, m.sh, w.m, w.s, r, m.walkers[i]);
      }
      PutKeeps(m', id, Rest);
    } else {
      PutKeeps(m, id, Rest);
    }
  }

  lemma StepKeeps(m: Machine, op: Op)
    requires MInv(m) && Enabled(m, op)
    ensures MInv(Step(m, op))
  {
    if op.Move? {
      match At(m, op.id) {
        case Inserting(_, _, _, _) => InsertKeeps(m, op.id, op.alloc);
        case Linking(_, _, _) => LinkKeeps(m, op.id, op.alloc);
        case Rooting(_, _, _) => RootStepKeeps(m, op.id, op.alloc);
        case Seeking(_, _, _, _) => ScanKeeps(m, op.id, op.alloc);
        case Scanning(_, _, _, _, _) => ScanKeeps(m, op.id, op.alloc);
        case _ =>
      }
    } else {
      StartKeeps(m, op);
    }
  }

  /** No walker is ever stopped: under the invariant every node it is about to lock exists. */
  lemma MoveIsEnabled(m: Machine, id: nat, alloc: Option<Uuid>)
    requires MInv(m) && (alloc.Some? ==> alloc.value != NIL && alloc.value !in m.t.nodes)
    ensures Enabled(m, Move(id, alloc))
  {
    match At(m, id) {
      case Inserting(k, _, _, node) =>
        var i := StandsWhere(m.t, m.sh, node, k);
      case Linking(_, s, node) =>
        var j: nat :| StandsAt(m.t.nodes, m.sh.inners, node, s, j);
        if Accepts(m.t.nodes[node], s) && m.t.nodes[node].sibling == NIL {
          LastInnerTakes(m.t, m.sh, j, s);
        }
      case Seeking(l, _, node, _) =>
        var i := SeeksWhere(m.t, m.sh, node, l, m.walkers[id].begun);
      case _ =>
    }
  }

  /** The machine after `ops` on a fresh tree, if every step was possible. */
  ghost function Run(leaf: Uuid, ops: seq<Op>): Option<Machine>
    decreases |ops|
  {
    if ops == [] then Some(Start(leaf))
    else
      var n := |ops| - 1;
      match Run(leaf, ops[..n])
      case None => None
      case Some(m) => if Enabled(m, ops[n]) && Leveled(m.t, m.sh) then Some(Step(m, ops[n])) else None
  }

  lemma {:induction false} RunInv(leaf: Uuid, ops: seq<Op>)
    requires leaf != NIL && Run(leaf, ops).Some?
    ensures MInv(Run(leaf, ops).value)
    decreases |ops|
  {
    if ops == [] {
      StartInv(leaf);
    } else {
      RunInv(leaf, ops[..|ops| - 1]);
      StepKeeps(Run(leaf, ops[..|ops| - 1]).value, ops[|ops| - 1]);
    }
  }

  /**
   After any interleaving, the leaf chain is sorted and holds exactly the pairs inserted, every node
   keeps its size bounds, and every walker can go on.
   */
  lemma ConcurrentInserts(leaf: Uuid, ops: seq<Op>)
    requires leaf != NIL && Run(leaf, ops).Some?
    ensures var m := Run(leaf, ops).value;
      && Leveled(m.t, m.sh) && Sorted(Pairs(m.t, m.sh)) && multiset(Pairs(m.t, m.sh)) == m.added
      && Sized(m.t.nodes, m.sh.leaves, 0) && Sized(m.t.nodes, m.sh.inners, 2)
      && forall id, alloc: Option<Uuid> :: (alloc.Some? ==> alloc.value != NIL && alloc.value !in m.t.nodes) ==>
           Enabled(m, Move(id, alloc))
  {
    RunInv(leaf, ops);
    var m := Run(leaf, ops).value;
    forall id, alloc: Option<Uuid> | alloc.Some? ==> alloc.value != NIL && alloc.value !in m.t.nodes
      ensures Enabled(m, Move(id, alloc))
    {
      MoveIsEnabled(m, id, alloc);
    }
  }

  /**
   After any interleaving, a finished scan of `[l, r]` has returned keys in order and in range, no
   pair more often than it was inserted, and every pair above `l` that was there when it began, as
   well as the one at `l` if no two pairs with key `l` have been inserted.
   */
  lemma ConcurrentScan(leaf: Uuid, ops: seq<Op>, id: nat)
    requires leaf != NIL && Run(leaf, ops).Some? && At(Run(leaf, ops).value, id).Found?
    ensures var m := Run(leaf, ops).value;
      var w := At(m, id);
      && Sorted(w.got) && InRange(w.got, w.l, w.r) && multiset(w.got) <= m.added
      && (forall e: Entry :: w.l < e.key <= w.r ==> w.begun[e] <= multiset(w.got)[e])
      && (OnceIn(m.added, w.l) ==> forall e: Entry :: w.l <= e.key <= w.r ==> w.begun[e] <= multiset(w.got)[e])
  {
    RunInv(leaf, ops);
    var m := Run(leaf, ops).value;
    var w := At(m, id);
    var exact := Once(m.t, m.sh, w.begun, w.l);
    assert forall e: Entry :: w.l < e.key <= w.r ==> Owed(e, w.l, w.r, exact);
    forall e: Entry | OnceIn(m.added, w.l) && w.l <= e.key <= w.r
      ensures w.begun[e] <= multiset(w.got)[e]
    {
      if e.key == w.l && e in w.begun {
        assert exact && Owed(e, w.l, w.r, exact);
      }
    }
  }

  predicate IsScan(w: Walker, l: Uuid, r: Uuid, begun: multiset<Entry>) {
    (w.Seeking? || w.Scanning? || w.Found?) && w.l == l && w.r == r && w.begun == begun
  }

  lemma ScanStays(m: Machine, op: Op, id: nat, l: Uuid, r: Uuid, begun: multiset<Entry>)
    requires Enabled(m, op) && Leveled(m.t, m.sh) && IsScan(At(m, id), l, r, begun)
    requires op.id == id ==> op.Move?
    ensures IsScan(At(Step(m, op), id), l, r, begun)
  {
    if op.id == id {
      ScanGoesOn(m, op, l, r, begun);
    } else {
      OthersStay(m, op, id);
    }
  }

  lemma ScanGoesOn(m: Machine, op: Op, l: Uuid, r: Uuid, begun: multiset<Entry>)
    requires Enabled(m, op) && Leveled(m.t, m.sh) && op.Move? && IsScan(At(m, op.id), l, r, begun)
    ensures IsScan(At(Step(m, op), op.id), l, r, begun)
  {
  }

  lemma OthersStay(m: Machine, op: Op, id: nat)
    requires Enabled(m, op) && Leveled(m.t, m.sh) && op.id != id
    ensures At(Step(m, op), id) == At(m, id)
  {
  }

  lemma ScanBegins(m: Machine, op: Op)
    requires Enabled(m, op) && Leveled(m.t, m.sh) && op.StartScan?
    ensures IsScan(At(Step(m, op), op.id), op.l, op.r, multiset(Pairs(m.t, m.sh)))
  {
  }

  lemma RunBack(leaf: Uuid, ops: seq<Op>) returns (m: Machine)
    requires leaf != NIL && Run(leaf, ops).Some? && ops != []
    ensures var n := |ops| - 1;
      && Run(leaf, ops[..n]) == Some(m) && Enabled(m, ops[n]) && Leveled(m.t, m.sh)
      && Run(leaf, ops).value == Step(m, ops[n]) && multiset(Pairs(m.t, m.sh)) == m.added
  {
    m := Run(leaf, ops[..|ops| - 1]).value;
    RunInv(leaf, ops[..|ops| - 1]);
  }

  /** What a scan counts as its beginning is the content of the tree when it started. */
  lemma {:induction false} ScanBeginsWithContent(leaf: Uuid, ops: seq<Op>, i: nat, id: nat, l: Uuid, r: Uuid)
    requires leaf != NIL && Run(leaf, ops).Some? && i < |ops| && ops[i] == StartScan(id, l, r)
    requires forall j :: i < j < |ops| && ops[j].id == id ==> ops[j].Move?
    ensures Run(leaf, ops[..i]).Some?
    ensures IsScan(At(Run(leaf, ops).value, id), l, r, Run(leaf, ops[..i]).value.added)
    decreases |ops|
  {
    var n := |ops| - 1;
    var m := RunBack(leaf, ops);
    if i < n {
      assert ops[..n][..i] == ops[..i];
      ScanBeginsWithContent(leaf, ops[..n], i, id, l, r);
      ScanStays(m, ops[n], id, l, r, Run(leaf, ops[..i]).value.added);
    } else {
      ScanBegins(m, ops[n]);
    }
  }

  /* ----- equal keys on both sides of a split ----- */

  function Copies(c: Uuid, n: nat): seq<Entry> {
    seq(n, i => Entry(c, c))
  }

  /** One leaf with `n` copies of the same pair, and nobody at work. */
  predicate OneLeaf(m: Machine, leaf: Uuid, c: Uuid, n: nat) {
    && m.t == Tree(map[leaf := Node(true, Copies(c, n), NIL)], leaf)
    && m.sh == Shape([leaf], []) && At(m, 0) == Rest && m.added[Entry(c, c)] == n
  }

  lemma Extend(leaf: Uuid, ops: seq<Op>, m: Machine, op: Op) returns (ops': seq<Op>, m': Machine)
    requires leaf != NIL && Run(leaf, ops) == Some(m) && Enabled(m, op)
    ensures Leveled(m.t, m.sh) && m' == Step(m, op) && Run(leaf, ops') == Some(m')
  {
    RunInv(leaf, ops);
    ops' := ops + [op];
    m' := Step(m, op);
    assert ops'[..|ops|] == ops;
  }

  lemma CopiesGrow(c: Uuid, n: nat)
    ensures LeafInsert(Copies(c, n), c, c) == Copies(c, n + 1)
  {
    assert Rank(Copies(c, n), c) == 0;
  }

  lemma {:induction false} ReachCopies(leaf: Uuid, c: Uuid, n: nat) returns (ops: seq<Op>, m: Machine)
    requires leaf != NIL && c < INF && n < 2 * BALANCE
    ensures Run(leaf, ops) == Some(m) && OneLeaf(m, leaf, c, n)
  {
    if n == 0 {
      ops, m := [], Start(leaf);
      assert Copies(c, 0) == [];
    } else {
      ops, m := ReachCopies(leaf, c, n - 1);
      ops, m := AddCopy(leaf, ops, m, c, n - 1);
    }
  }

  lemma AddCopy(leaf: Uuid, ops: seq<Op>, m: Machine, c: Uuid, n: nat) returns (ops': seq<Op>, m': Machine)
    requires leaf != NIL && c < INF && n + 1 < 2 * BALANCE && Run(leaf, ops) == Some(m) && OneLeaf(m, leaf, c, n)
    ensures Run(leaf, ops') == Some(m') && OneLeaf(m', leaf, c, n + 1)
  {
    ops', m' := Extend(leaf, ops, m, StartInsert(0, c, c));
    CopiesGrow(c, n);
    assert leaf in m'.sh.leaves && IndexOf([leaf], leaf) == 0;
    ops', m' := Extend(leaf, ops', m', Move(0, None));
  }

  /** Two leaves with 32 copies each under a root whose separator is the common key. */
  predicate TwoLeaves(m: Machine, leaf: Uuid, c: Uuid, a: Uuid, b: Uuid) {
    && m.t.root == b && b in m.t.nodes && a in m.t.nodes && leaf in m.t.nodes
    && m.t.nodes[b] == Node(false, [Entry(c, leaf), Entry(INF, a)], NIL)
    && m.t.nodes[a] == Node(true, Copies(c, BALANCE), NIL)
    && At(m, 0) == Rest && m.added[Entry(c, c)] == 2 * BALANCE
  }

  lemma ReachTwoLeaves(leaf: Uuid, c: Uuid, a: Uuid, b: Uuid) returns (ops: seq<Op>, m: Machine)
    requires leaf != NIL && a != NIL && b != NIL && leaf != a && leaf != b && a != b && c < INF
    ensures Run(leaf, ops) == Some(m) && TwoLeaves(m, leaf, c, a, b)
  {
    ops, m := ReachSplit(leaf, c, a);
    ops, m := Extend(leaf, ops, m, Move(0, Some(b)));
  }

  lemma ReachSplit(leaf: Uuid, c: Uuid, a: Uuid) returns (ops: seq<Op>, m: Machine)
    requires leaf != NIL && a != NIL && leaf != a && c < INF
    ensures Run(leaf, ops) == Some(m) && m.t.nodes.Keys == {leaf, a} && m.t.root == leaf
    ensures m.t.nodes[a] == Node(true, Copies(c, BALANCE), NIL)
    ensures At(m, 0) == Rooting(leaf, a, c) && m.added[Entry(c, c)] == 2 * BALANCE
  {
    ops, m := ReachCopies(leaf, c, 2 * BALANCE - 1);
    ops, m := Extend(leaf, ops, m, StartInsert(0, c, c));
    CopiesGrow(c, 2 * BALANCE - 1);
    assert leaf in m.sh.leaves && IndexOf([leaf], leaf) == 0;
    ops, m := Extend(leaf, ops, m, Move(0, Some(a)));
    assert Copies(c, 2 * BALANCE)[BALANCE..] == Copies(c, BALANCE);
  }

  /** After 64 inserts of one pair, a search for its key finds 32 of them. */
  lemma EqualKeysAreMissed(leaf: Uuid, c: Uuid, a: Uuid, b: Uuid) returns (ops: seq<Op>, m: Machine)
    requires leaf != NIL && a != NIL && b != NIL && leaf != a && leaf != b && a != b && c < INF
    ensures Run(leaf, ops) == Some(m) && At(m, 0).Found? && At(m, 0).l == c && At(m, 0).r == c
    ensures m.added[Entry(c, c)] == 64 && |At(m, 0).got| == 32
  {
    ops, m := ReachTwoLeaves(leaf, c, a, b);
    ops, m := Extend(leaf, ops, m, StartScan(0, c, c));
    var fences := m.t.nodes[b].ents;
    assert RankAbove(fences, c) == 1 by {
      assert fences[1..] == [Entry(INF, a)];
    }
    ops, m := Extend(leaf, ops, m, Move(0, None));
    ops, m := Extend(leaf, ops, m, Move(0, None));
    assert At(m, 0).Scanning? && At(m, 0).node == a && At(m, 0).got == [];
    var es := m.t.nodes[a].ents;
    assert Rank(es, c) == 0;
    assert es[0..] == es;
    AllAtMost(es, c);
    ops, m := Extend(leaf, ops, m, Move(0, None));
  }

  lemma AllAtMost(es: seq<Entry>, c: Uuid)
    requires forall i :: 0 <= i < |es| ==> es[i].key <= c
    ensures RankAbove(es, c) == |es|
  {
  }
}
