/**
 The tree as a whole: the leaf level, and one level of inner nodes above it once the first leaf has
 been split.  An inner split is not passed on to a parent, so there is never a third level; inner
 nodes split off are reached through sibling links.
 */
module BLinkTree {
  import opened Types
  import opened BLink

  datatype Tree = Tree(nodes: Nodes, root: Uuid)

  /** The addresses of the two levels, left to right. */
  datatype Shape = Shape(leaves: seq<Uuid>, inners: seq<Uuid>)

  ghost predicate Leveled(t: Tree, sh: Shape) {
    && |sh.leaves| >= 1 && Chain(t.nodes, sh.leaves, true) && Chain(t.nodes, sh.inners, false)
    && t.root == (if sh.inners == [] then sh.leaves[0] else sh.inners[0])
  }

  /** Everything before leaf number `i`, and everything from there on. */
  ghost function Before(t: Tree, sh: Shape, i: nat): seq<Entry>
    requires Leveled(t, sh) && i <= |sh.leaves|
  {
    Flat(t.nodes, sh.leaves[..i])
  }

  ghost function From(t: Tree, sh: Shape, i: nat): seq<Entry>
    requires Leveled(t, sh) && i <= |sh.leaves|
  {
    Flat(t.nodes, sh.leaves[i..])
  }

  /** The pairs in the tree, in chain order. */
  ghost function Pairs(t: Tree, sh: Shape): seq<Entry>
    requires Leveled(t, sh)
  {
    Flat(t.nodes, sh.leaves)
  }

  ghost function Fences(t: Tree, sh: Shape): seq<Entry>
    requires Leveled(t, sh)
  {
    Flat(t.nodes, sh.inners)
  }

  ghost predicate HasKey(es: seq<Entry>, k: Uuid) {
    exists i :: 0 <= i < |es| && es[i].key == k
  }

  /** `s` may guide to leaf `m`: all pairs before `m` are at most `s`, and a pair with key `s` is at `m` or behind. */
  ghost predicate GuidesAt(t: Tree, sh: Shape, s: Uuid, m: Uuid, i: nat)
    requires Leveled(t, sh)
  {
    && i < |sh.leaves| && sh.leaves[i] == m && s < INF
    && AllLe(Before(t, sh, i), s) && HasKey(From(t, sh, i), s)
  }

  ghost predicate Guides(t: Tree, sh: Shape, s: Uuid, m: Uuid)
    requires Leveled(t, sh)
  {
    exists i: nat :: GuidesAt(t, sh, s, m, i)
  }

  /** The inner level: sorted fences ending in INF, the first leading to the first leaf. */
  ghost predicate Fenced(t: Tree, sh: Shape)
    requires Leveled(t, sh)
  {
    var f := Fences(t, sh);
    && |f| >= 1 && Sorted(f) && f[|f| - 1].key == INF && f[0].son == sh.leaves[0]
    && forall g :: 1 <= g < |f| ==> Guides(t, sh, f[g - 1].key, f[g].son)
  }

  ghost predicate Inv(t: Tree, sh: Shape) {
    && Leveled(t, sh) && Sized(t.nodes, sh.leaves, 0) && Sized(t.nodes, sh.inners, 2)
    && Sorted(Pairs(t, sh)) && (forall i :: 0 <= i < |Pairs(t, sh)| ==> Pairs(t, sh)[i].key < INF)
    && (sh.inners != [] ==> Fenced(t, sh))
  }

  /** A walker for key `k` stands at leaf or inner node `n` with nothing above `k` behind it. */
  ghost predicate StandsAt(nodes: Nodes, ids: seq<Uuid>, n: Uuid, k: Uuid, i: nat)
    requires forall j :: 0 <= j < |ids| ==> ids[j] in nodes
  {
    i < |ids| && ids[i] == n && AllLe(Flat(nodes, ids[..i]), k)
  }

  ghost predicate Stands(t: Tree, sh: Shape, n: Uuid, k: Uuid)
    requires Leveled(t, sh)
  {
    || (exists i: nat :: StandsAt(t.nodes, sh.leaves, n, k, i))
    || (exists i: nat :: StandsAt(t.nodes, sh.inners, n, k, i))
  }

  /* ----- sequences ----- */

  lemma PlaceMultiset(es: seq<Entry>, g: nat, e: Entry)
    requires g <= |es|
    ensures multiset(Place(es, g, e)) == multiset(es) + multiset{e}
  {
    assert es == es[..g] + es[g..];
  }

  lemma PlaceSorted(es: seq<Entry>, g: nat, e: Entry)
    requires g <= |es| && Sorted(es)
    requires AllLe(es[..g], e.key) && (g < |es| ==> e.key <= es[g].key)
    ensures Sorted(Place(es, g, e))
  {
    var p := Place(es, g, e);
    assert forall i :: 0 <= i < g ==> p[i] == es[i] && es[i] == es[..g][i];
    assert p[g] == e;
    assert forall i :: g < i < |p| ==> p[i] == es[i - 1];
  }

  lemma PlaceInMiddle(a: seq<Entry>, b: seq<Entry>, c: seq<Entry>, g: nat, e: Entry)
    requires g <= |b|
    ensures a + Place(b, g, e) + c == Place(a + b + c, |a| + g, e)
  {
    assert (a + b + c)[..|a| + g] == a + b[..g];
    assert (a + b + c)[|a| + g..] == b[g..] + c;
  }

  lemma CutPairs(t: Tree, sh: Shape, i: nat)
    requires Leveled(t, sh) && i <= |sh.leaves|
    ensures Pairs(t, sh) == Before(t, sh, i) + From(t, sh, i)
  {
    FlatCut(t.nodes, sh.leaves, i);
  }

  /* ----- inserting a pair into a leaf ----- */

  /** The leaf at index `j` takes the pair `(k, v)`. */
  ghost predicate LeafPut(t: Tree, sh: Shape, j: nat, k: Uuid, v: Uuid, split: Option<Uuid>) {
    && Leveled(t, sh) && j < |sh.leaves| && StandsAt(t.nodes, sh.leaves, sh.leaves[j], k, j)
    && Accepts(t.nodes[sh.leaves[j]], k)
    && Puts(t.nodes, sh.leaves, true, j, LeafInsert(t.nodes[sh.leaves[j]].ents, k, v), split)
  }

  ghost predicate LeafReady(t: Tree, sh: Shape, j: nat, k: Uuid, v: Uuid, split: Option<Uuid>) {
    && Inv(t, sh) && LeafPut(t, sh, j, k, v, split) && k < INF
    && (split.Some? <==> |LeafInsert(t.nodes[sh.leaves[j]].ents, k, v)| == 2 * BALANCE)
  }

  function LeafTree(t: Tree, n: Uuid, k: Uuid, v: Uuid, split: Option<Uuid>): Tree
    requires n in t.nodes && (split.Some? ==> |LeafInsert(t.nodes[n].ents, k, v)| >= BALANCE)
  {
    t.(nodes := PutNode(t.nodes, n, LeafInsert(t.nodes[n].ents, k, v), split))
  }

  function LeafShape(sh: Shape, j: nat, split: Option<Uuid>): Shape
    requires j < |sh.leaves|
  {
    sh.(leaves := PutIds(sh.leaves, j, split))
  }

  lemma LeafLeveled(t: Tree, sh: Shape, j: nat, k: Uuid, v: Uuid, split: Option<Uuid>)
    requires LeafPut(t, sh, j, k, v, split)
    ensures Leveled(LeafTree(t, sh.leaves[j], k, v, split), LeafShape(sh, j, split))
    ensures Fences(LeafTree(t, sh.leaves[j], k, v, split), LeafShape(sh, j, split)) == Fences(t, sh)
    ensures LeafShape(sh, j, split).leaves[0] == sh.leaves[0]
  {
    var es := LeafInsert(t.nodes[sh.leaves[j]].ents, k, v);
    PutChain(t.nodes, sh.leaves, true, j, es, split);
    assert sh.leaves[j] !in sh.inners;
    PutElsewhere(t.nodes, sh.leaves[j], es, split, sh.inners, false);
  }

  /** Where the new pair lands in the chain. */
  ghost function Landing(t: Tree, sh: Shape, j: nat, k: Uuid): nat
    requires Leveled(t, sh) && j < |sh.leaves|
  {
    |Before(t, sh, j)| + Rank(t.nodes[sh.leaves[j]].ents, k)
  }

  lemma LeafMoved(t: Tree, sh: Shape, j: nat, k: Uuid, v: Uuid, split: Option<Uuid>, i: nat)
    requires LeafPut(t, sh, j, k, v, split) && i <= |sh.leaves|
    ensures var sh', i' := LeafShape(sh, j, split), Moved(i, j, split);
      && i' <= |sh'.leaves| && (i == |sh.leaves| ==> i' == |sh'.leaves|)
      && (i < |sh.leaves| ==> i' < |sh'.leaves| && sh'.leaves[i'] == sh.leaves[i])
    ensures Leveled(LeafTree(t, sh.leaves[j], k, v, split), LeafShape(sh, j, split))
    ensures Before(LeafTree(t, sh.leaves[j], k, v, split), LeafShape(sh, j, split), Moved(i, j, split)) ==
            Rewritten(t.nodes, sh.leaves, j, LeafInsert(t.nodes[sh.leaves[j]].ents, k, v), i)
  {
    LeafLeveled(t, sh, j, k, v, split);
    PutBefore(t.nodes, sh.leaves, true, j, LeafInsert(t.nodes[sh.leaves[j]].ents, k, v), split, i);
  }

  /** `b'` is `b` with `e` placed in order at `g`. */
  ghost predicate Lands(b: seq<Entry>, b': seq<Entry>, g: nat, e: Entry) {
    && g <= |b| && b' == Place(b, g, e)
    && AllLe(b[..g], e.key) && (g < |b| ==> e.key <= b[g].key)
  }

  /** Behind the leaf, one more pair stands before; unless the leaf is the last, it is no new maximum. */
  lemma LeafLanding(t: Tree, sh: Shape, j: nat, k: Uuid, v: Uuid, split: Option<Uuid>, i: nat)
    requires LeafPut(t, sh, j, k, v, split) && j < i <= |sh.leaves|
    ensures Lands(Before(t, sh, i),
                  Rewritten(t.nodes, sh.leaves, j, LeafInsert(t.nodes[sh.leaves[j]].ents, k, v), i),
                  Landing(t, sh, j, k), Entry(k, v))
    ensures i < |sh.leaves| ==> Landing(t, sh, j, k) < |Before(t, sh, i)|
  {
    LandsAt(t.nodes, sh.leaves, j, k, v, i);
  }

  lemma LandsAt(nodes: Nodes, ids: seq<Uuid>, j: nat, k: Uuid, v: Uuid, i: nat)
    requires Chain(nodes, ids, true) && j < i <= |ids| && AllLe(Flat(nodes, ids[..j]), k) && Accepts(nodes[ids[j]], k)
    ensures var g := |Flat(nodes, ids[..j])| + Rank(nodes[ids[j]].ents, k);
      && Lands(Flat(nodes, ids[..i]), Rewritten(nodes, ids, j, LeafInsert(nodes[ids[j]].ents, k, v), i), g, Entry(k, v))
      && (i < |ids| ==> g < |Flat(nodes, ids[..i])|)
  {
    var es := nodes[ids[j]].ents;
    FlatAt(nodes, ids, j, i);
    AboveIsLast(nodes, ids, j, k, i);
    LandingIn(Flat(nodes, ids[..j]), es, Flat(nodes, ids[j + 1..i]), k, v);
  }

  /** A key above all of a leaf that accepts it is for the last leaf. */
  lemma AboveIsLast(nodes: Nodes, ids: seq<Uuid>, j: nat, k: Uuid, i: nat)
    requires Chain(nodes, ids, true) && j < i <= |ids| && Accepts(nodes[ids[j]], k)
    ensures Rank(nodes[ids[j]].ents, k) == |nodes[ids[j]].ents| ==> Flat(nodes, ids[j + 1..i]) == [] && i == |ids|
  {
    if Rank(nodes[ids[j]].ents, k) == |nodes[ids[j]].ents| {
      LastLeaf(nodes, ids, j);
      assert ids[j + 1..i] == [];
    }
  }

  lemma LastLeaf(nodes: Nodes, ids: seq<Uuid>, j: nat)
    requires Chain(nodes, ids, true) && j < |ids| && nodes[ids[j]].sibling == NIL
    ensures j + 1 == |ids|
  {
  }

  lemma LandingIn(a: seq<Entry>, b: seq<Entry>, c: seq<Entry>, k: Uuid, v: Uuid)
    requires AllLe(a, k) && (Rank(b, k) == |b| ==> c == [])
    ensures Lands(a + b + c, a + LeafInsert(b, k, v) + c, |a| + Rank(b, k), Entry(k, v))
    ensures Rank(b, k) < |b| ==> |a| + Rank(b, k) < |a + b + c|
  {
    var s, r := a + b + c, Rank(b, k);
    PlaceInMiddle(a, b, c, r, Entry(k, v));
    assert s[..|a| + r] == a + b[..r];
    if r < |b| {
      assert s[|a| + r] == b[r];
    }
  }

  /** What a new pair `e` does to the pairs on either side of a leaf boundary. */
  ghost predicate Grown(b: seq<Entry>, f: seq<Entry>, b': seq<Entry>, f': seq<Entry>, e: Entry) {
    || (b' == b && exists g :: 0 <= g <= |f| && f' == Place(f, g, e))
    || (f' == f && exists g :: 0 <= g < |b| && b' == Place(b, g, e) && e.key <= b[g].key)
  }

  lemma LeafGrown(t: Tree, sh: Shape, j: nat, k: Uuid, v: Uuid, split: Option<Uuid>, i: nat)
    requires LeafPut(t, sh, j, k, v, split) && i < |sh.leaves|
    ensures var t', sh', i' := LeafTree(t, sh.leaves[j], k, v, split), LeafShape(sh, j, split), Moved(i, j, split);
      && Leveled(t', sh') && i' < |sh'.leaves| && sh'.leaves[i'] == sh.leaves[i]
      && Grown(Before(t, sh, i), From(t, sh, i), Before(t', sh', i'), From(t', sh', i'), Entry(k, v))
  {
    var t', sh', i' := LeafTree(t, sh.leaves[j], k, v, split), LeafShape(sh, j, split), Moved(i, j, split);
    LeafMoved(t, sh, j, k, v, split, i);
    LeafPairs(t, sh, j, k, v, split);
    CutPairs(t, sh, i);
    CutPairs(t', sh', i');
    var b, f, b', f' := Before(t, sh, i), From(t, sh, i), Before(t', sh', i'), From(t', sh', i');
    var g := Landing(t, sh, j, k);
    if i <= j {
      BeforeMonotone(t, sh, i, j);
      SplitPlaceRight(b, f, f', g, Entry(k, v));
    } else {
      LeafLanding(t, sh, j, k, v, split, i);
      SplitPlaceLeft(b, f, f', g, Entry(k, v));
    }
  }

  lemma BeforeMonotone(t: Tree, sh: Shape, i: nat, j: nat)
    requires Leveled(t, sh) && i <= j <= |sh.leaves|
    ensures |Before(t, sh, i)| <= |Before(t, sh, j)|
  {
    assert sh.leaves[..j] == sh.leaves[..i] + sh.leaves[i..j];
    FlatAppend(t.nodes, sh.leaves[..i], sh.leaves[i..j]);
  }

  lemma SplitPlaceRight(b: seq<Entry>, f: seq<Entry>, f': seq<Entry>, g: nat, e: Entry)
    requires |b| <= g <= |b + f| && b + f' == Place(b + f, g, e)
    ensures f' == Place(f, g - |b|, e)
  {
    assert f' == (b + f')[|b|..];
    assert Place(b + f, g, e)[|b|..] == Place(f, g - |b|, e);
  }

  lemma SplitPlaceLeft(b: seq<Entry>, f: seq<Entry>, f': seq<Entry>, g: nat, e: Entry)
    requires g <= |b| && Place(b, g, e) + f' == Place(b + f, g, e)
    ensures f' == f
  {
    assert f' == (Place(b, g, e) + f')[|b| + 1..];
    assert Place(b + f, g, e)[|b| + 1..] == f;
  }

  /** The chain of pairs gains exactly the new one. */
  lemma LeafPairs(t: Tree, sh: Shape, j: nat, k: Uuid, v: Uuid, split: Option<Uuid>)
    requires LeafPut(t, sh, j, k, v, split)
    ensures var t', sh' := LeafTree(t, sh.leaves[j], k, v, split), LeafShape(sh, j, split);
      && Leveled(t', sh') && Landing(t, sh, j, k) <= |Pairs(t, sh)|
      && Pairs(t', sh') == Place(Pairs(t, sh), Landing(t, sh, j, k), Entry(k, v))
      && (Sorted(Pairs(t, sh)) ==> Sorted(Pairs(t', sh')))
      && multiset(Pairs(t', sh')) == multiset(Pairs(t, sh)) + multiset{Entry(k, v)}
  {
    var t', sh' := LeafTree(t, sh.leaves[j], k, v, split), LeafShape(sh, j, split);
    var last := |sh.leaves|;
    LeafMoved(t, sh, j, k, v, split, last);
    LeafLanding(t, sh, j, k, v, split, last);
    assert sh.leaves[..last] == sh.leaves;
    assert sh'.leaves[..|sh'.leaves|] == sh'.leaves;
    if Sorted(Pairs(t, sh)) {
      PlaceSorted(Pairs(t, sh), Landing(t, sh, j, k), Entry(k, v));
    }
    PlaceMultiset(Pairs(t, sh), Landing(t, sh, j, k), Entry(k, v));
  }

  lemma PlaceKeepsKeys(f: seq<Entry>, g: nat, e: Entry, k: Uuid)
    requires g <= |f| && HasKey(f, k)
    ensures HasKey(Place(f, g, e), k)
  {
    var i :| 0 <= i < |f| && f[i].key == k;
    assert Place(f, g, e)[if i < g then i else i + 1] == f[i];
  }

  lemma PlaceKeepsAllLe(b: seq<Entry>, g: nat, e: Entry, k: Uuid)
    requires g < |b| && e.key <= b[g].key && AllLe(b, k)
    ensures AllLe(Place(b, g, e), k)
  {
    var p := Place(b, g, e);
    assert forall i :: 0 <= i < |p| ==> p[i] == if i < g then b[i] else if i == g then e else b[i - 1];
  }

  lemma GrownKeeps(b: seq<Entry>, f: seq<Entry>, b': seq<Entry>, f': seq<Entry>, e: Entry, k: Uuid)
    requires Grown(b, f, b', f', e)
    ensures AllLe(b, k) ==> AllLe(b', k)
    ensures HasKey(f, k) ==> HasKey(f', k)
  {
    if b' == b && exists g :: 0 <= g <= |f| && f' == Place(f, g, e) {
      var g :| 0 <= g <= |f| && f' == Place(f, g, e);
      if HasKey(f, k) {
        PlaceKeepsKeys(f, g, e, k);
      }
    } else {
      var g :| 0 <= g < |b| && b' == Place(b, g, e) && e.key <= b[g].key;
      if AllLe(b, k) {
        PlaceKeepsAllLe(b, g, e, k);
      }
    }
  }

  lemma GrownCounts(b: seq<Entry>, f: seq<Entry>, b': seq<Entry>, f': seq<Entry>, e: Entry)
    requires Grown(b, f, b', f', e)
    ensures (b' == b && multiset(f') == multiset(f) + multiset{e}) || (multiset(b') == multiset(b) + multiset{e} && f' == f)
  {
    if b' == b && exists g :: 0 <= g <= |f| && f' == Place(f, g, e) {
      var g :| 0 <= g <= |f| && f' == Place(f, g, e);
      PlaceMultiset(f, g, e);
    } else {
      var g :| 0 <= g < |b| && b' == Place(b, g, e) && e.key <= b[g].key;
      PlaceMultiset(b, g, e);
    }
  }

  lemma LeafKeepsGuide(t: Tree, sh: Shape, j: nat, k: Uuid, v: Uuid, split: Option<Uuid>, s: Uuid, m: Uuid)
    requires LeafPut(t, sh, j, k, v, split) && Guides(t, sh, s, m)
    ensures var t', sh' := LeafTree(t, sh.leaves[j], k, v, split), LeafShape(sh, j, split);
      Leveled(t', sh') && Guides(t', sh', s, m)
  {
    var t', sh' := LeafTree(t, sh.leaves[j], k, v, split), LeafShape(sh, j, split);
    var i: nat :| GuidesAt(t, sh, s, m, i);
    LeafGrown(t, sh, j, k, v, split, i);
    var i' := Moved(i, j, split);
    GrownKeeps(Before(t, sh, i), From(t, sh, i), Before(t', sh', i'), From(t', sh', i'), Entry(k, v), s);
    assert GuidesAt(t', sh', s, m, i');
  }

  lemma LeafKeepsStand(t: Tree, sh: Shape, j: nat, k: Uuid, v: Uuid, split: Option<Uuid>, n: Uuid, q: Uuid)
    requires LeafPut(t, sh, j, k, v, split) && Stands(t, sh, n, q)
    ensures var t', sh' := LeafTree(t, sh.leaves[j], k, v, split), LeafShape(sh, j, split);
      Leveled(t', sh') && Stands(t', sh', n, q)
  {
    var t', sh' := LeafTree(t, sh.leaves[j], k, v, split), LeafShape(sh, j, split);
    LeafLeveled(t, sh, j, k, v, split);
    if i: nat :| StandsAt(t.nodes, sh.leaves, n, q, i) {
      LeafGrown(t, sh, j, k, v, split, i);
      var i' := Moved(i, j, split);
      GrownKeeps(Before(t, sh, i), From(t, sh, i), Before(t', sh', i'), From(t', sh', i'), Entry(k, v), q);
      assert StandsAt(t'.nodes, sh'.leaves, n, q, i');
    } else {
      var i: nat :| StandsAt(t.nodes, sh.inners, n, q, i);
      PutElsewhere(t.nodes, sh.leaves[j], LeafInsert(t.nodes[sh.leaves[j]].ents, k, v), split, sh.inners, false);
      assert StandsAt(t'.nodes, sh'.inners, n, q, i);
    }
  }

  lemma PlaceBelowInf(es: seq<Entry>, g: nat, e: Entry)
    requires g <= |es| && e.key < INF && forall i :: 0 <= i < |es| ==> es[i].key < INF
    ensures forall i :: 0 <= i < |Place(es, g, e)| ==> Place(es, g, e)[i].key < INF
  {
  }

  lemma LeafFenced(t: Tree, sh: Shape, j: nat, k: Uuid, v: Uuid, split: Option<Uuid>)
    requires LeafReady(t, sh, j, k, v, split) && sh.inners != []
    ensures var t', sh' := LeafTree(t, sh.leaves[j], k, v, split), LeafShape(sh, j, split);
      Leveled(t', sh') && Fenced(t', sh')
  {
    var t', sh' := LeafTree(t, sh.leaves[j], k, v, split), LeafShape(sh, j, split);
    LeafLeveled(t, sh, j, k, v, split);
    var f := Fences(t, sh);
    forall g | 1 <= g < |f|
      ensures Guides(t', sh', f[g - 1].key, f[g].son)
    {
      LeafKeepsGuide(t, sh, j, k, v, split, f[g - 1].key, f[g].son);
    }
  }

  lemma LeafSized(t: Tree, sh: Shape, j: nat, k: Uuid, v: Uuid, split: Option<Uuid>)
    requires LeafReady(t, sh, j, k, v, split)
    ensures var t', sh' := LeafTree(t, sh.leaves[j], k, v, split), LeafShape(sh, j, split);
      Sized(t'.nodes, sh'.leaves, 0) && Sized(t'.nodes, sh'.inners, 2)
  {
    PutSized(t.nodes, sh.leaves, true, j, LeafInsert(t.nodes[sh.leaves[j]].ents, k, v), split, 0);
    assert forall i :: 0 <= i < |sh.inners| ==> sh.inners[i] != sh.leaves[j];
  }

  /** Inserting into a leaf keeps the tree in order. */
  lemma LeafKeeps(t: Tree, sh: Shape, j: nat, k: Uuid, v: Uuid, split: Option<Uuid>)
    requires LeafReady(t, sh, j, k, v, split)
    ensures Inv(LeafTree(t, sh.leaves[j], k, v, split), LeafShape(sh, j, split))
  {
    LeafLeveled(t, sh, j, k, v, split);
    LeafSized(t, sh, j, k, v, split);
    LeafPairs(t, sh, j, k, v, split);
    PlaceBelowInf(Pairs(t, sh), Landing(t, sh, j, k), Entry(k, v));
    if sh.inners != [] {
      LeafFenced(t, sh, j, k, v, split);
    }
  }

  /** The first key of a split-off leaf may guide to it. */
  lemma NewLeafGuides(t: Tree, sh: Shape, j: nat, k: Uuid, v: Uuid, m: Uuid)
    requires LeafReady(t, sh, j, k, v, Some(m))
    ensures var t', sh' := LeafTree(t, sh.leaves[j], k, v, Some(m)), LeafShape(sh, j, Some(m));
      && Leveled(t', sh') && m in t'.nodes && |t'.nodes[m].ents| == BALANCE
      && Guides(t', sh', t'.nodes[m].ents[0].key, m)
  {
    var n := sh.leaves[j];
    var es := LeafInsert(t.nodes[n].ents, k, v);
    var t', sh' := LeafTree(t, n, k, v, Some(m)), LeafShape(sh, j, Some(m));
    LeafLeveled(t, sh, j, k, v, Some(m));
    LeafPairs(t, sh, j, k, v, Some(m));
    PutBeforeNew(t.nodes, sh.leaves, true, j, es, m);
    CutPairs(t', sh', j + 1);
    var b, f, p := Before(t', sh', j + 1), From(t', sh', j + 1), Pairs(t', sh');
    assert sh'.leaves[j + 1..][0] == m;
    assert f[0] == t'.nodes[m].ents[0];
    assert p[|b|] == f[0];
    assert forall i :: 0 <= i < |b| ==> b[i] == p[i];
    assert f[0].key < INF by {
      LeafKeeps(t, sh, j, k, v, Some(m));
    }
    assert GuidesAt(t', sh', f[0].key, m, j + 1);
  }

  /* ----- inserting a separator into the inner level ----- */

  ghost predicate InnerPut(t: Tree, sh: Shape, j: nat, s: Uuid, m: Uuid, split: Option<Uuid>) {
    && Leveled(t, sh) && j < |sh.inners| && StandsAt(t.nodes, sh.inners, sh.inners[j], s, j)
    && Rank(t.nodes[sh.inners[j]].ents, s) < |t.nodes[sh.inners[j]].ents|
    && Puts(t.nodes, sh.inners, false, j, InnerInsert(t.nodes[sh.inners[j]].ents, s, m), split)
  }

  ghost predicate InnerReady(t: Tree, sh: Shape, j: nat, s: Uuid, m: Uuid, split: Option<Uuid>) {
    && Inv(t, sh) && InnerPut(t, sh, j, s, m, split) && Guides(t, sh, s, m)
    && (split.Some? <==> |InnerInsert(t.nodes[sh.inners[j]].ents, s, m)| == 2 * BALANCE)
  }

  function InnerTree(t: Tree, n: Uuid, s: Uuid, m: Uuid, split: Option<Uuid>): Tree
    requires n in t.nodes && Rank(t.nodes[n].ents, s) < |t.nodes[n].ents|
    requires split.Some? ==> |InnerInsert(t.nodes[n].ents, s, m)| >= BALANCE
  {
    t.(nodes := PutNode(t.nodes, n, InnerInsert(t.nodes[n].ents, s, m), split))
  }

  function InnerShape(sh: Shape, j: nat, split: Option<Uuid>): Shape
    requires j < |sh.inners|
  {
    sh.(inners := PutIds(sh.inners, j, split))
  }

  /** The last inner node has the fence INF, so a key below it always finds a place there. */
  lemma LastInnerTakes(t: Tree, sh: Shape, j: nat, s: Uuid)
    requires Inv(t, sh) && j < |sh.inners| && s < INF && t.nodes[sh.inners[j]].sibling == NIL
    ensures Rank(t.nodes[sh.inners[j]].ents, s) < |t.nodes[sh.inners[j]].ents|
    ensures RankAbove(t.nodes[sh.inners[j]].ents, s) < |t.nodes[sh.inners[j]].ents|
  {
    assert j == |sh.inners| - 1;
    var n := t.nodes[sh.inners[j]];
    FlatAt(t.nodes, sh.inners, j, |sh.inners|);
    assert sh.inners[..|sh.inners|] == sh.inners;
    assert sh.inners[j + 1..|sh.inners|] == [];
    assert n.ents[|n.ents| - 1] == Fences(t, sh)[|Fences(t, sh)| - 1];
  }

  lemma InnerLeveled(t: Tree, sh: Shape, j: nat, s: Uuid, m: Uuid, split: Option<Uuid>)
    requires InnerPut(t, sh, j, s, m, split)
    ensures var t', sh' := InnerTree(t, sh.inners[j], s, m, split), InnerShape(sh, j, split);
      Leveled(t', sh') && Pairs(t', sh') == Pairs(t, sh)
    ensures forall i :: 0 <= i <= |sh.leaves| ==>
              Before(InnerTree(t, sh.inners[j], s, m, split), InnerShape(sh, j, split), i) == Before(t, sh, i)
  {
    var es := InnerInsert(t.nodes[sh.inners[j]].ents, s, m);
    PutChain(t.nodes, sh.inners, false, j, es, split);
    assert forall i :: 0 <= i < |sh.leaves| ==> sh.leaves[i] != sh.inners[j];
    PutElsewhere(t.nodes, sh.inners[j], es, split, sh.leaves, true);
  }

  lemma InnerSized(t: Tree, sh: Shape, j: nat, s: Uuid, m: Uuid, split: Option<Uuid>)
    requires InnerPut(t, sh, j, s, m, split)
    requires Sized(t.nodes, sh.leaves, 0) && Sized(t.nodes, sh.inners, 2)
    requires split.Some? <==> |InnerInsert(t.nodes[sh.inners[j]].ents, s, m)| == 2 * BALANCE
    ensures Sized(InnerTree(t, sh.inners[j], s, m, split).nodes, InnerShape(sh, j, split).inners, 2)
    ensures Sized(InnerTree(t, sh.inners[j], s, m, split).nodes, sh.leaves, 0)
  {
    PutSized(t.nodes, sh.inners, false, j, InnerInsert(t.nodes[sh.inners[j]].ents, s, m), split, 2);
    assert forall i :: 0 <= i < |sh.leaves| ==> sh.leaves[i] != sh.inners[j];
  }

  /** Guides and standing points of the leaf level do not change with the inner level. */
  lemma SameLeaves(t: Tree, sh: Shape, t': Tree, sh': Shape, s: Uuid, m: Uuid)
    requires Leveled(t, sh) && Leveled(t', sh') && sh'.leaves == sh.leaves && Pairs(t', sh') == Pairs(t, sh)
    requires forall i :: 0 <= i <= |sh.leaves| ==> Before(t', sh', i) == Before(t, sh, i)
    requires Guides(t, sh, s, m)
    ensures Guides(t', sh', s, m)
  {
    var i: nat :| GuidesAt(t, sh, s, m, i);
    CutPairs(t, sh, i);
    CutPairs(t', sh', i);
    assert From(t', sh', i) == Pairs(t', sh')[|Before(t', sh', i)|..];
    assert From(t, sh, i) == Pairs(t, sh)[|Before(t, sh, i)|..];
    assert GuidesAt(t', sh', s, m, i);
  }

  lemma CutInMiddle(a: seq<Entry>, b: seq<Entry>, c: seq<Entry>, g: nat, s: Uuid, m: Uuid)
    requires g < |b|
    ensures a + CutFence(b, g, s, m) + c == CutFence(a + b + c, |a| + g, s, m)
  {
    assert (a + b + c)[..|a| + g] == a + b[..g];
    assert (a + b + c)[|a| + g + 1..] == b[g + 1..] + c;
    assert (a + b + c)[|a| + g] == b[g];
  }

  lemma CutIn(a: seq<Entry>, b: seq<Entry>, c: seq<Entry>, s: Uuid, m: Uuid)
    requires AllLe(a, s) && Rank(b, s) < |b|
    ensures var f, g := a + b + c, |a| + Rank(b, s);
      && g < |f| && s <= f[g].key && AllLe(f[..g], s)
      && a + InnerInsert(b, s, m) + c == CutFence(f, g, s, m)
  {
    var f, r := a + b + c, Rank(b, s);
    CutInMiddle(a, b, c, r, s, m);
    assert f[..|a| + r] == a + b[..r];
    assert f[|a| + r] == b[r];
  }

  /** The fences before inner node `i` after the insertion: one of them is cut if the node is behind. */
  ghost predicate FencesCut(f: seq<Entry>, f': seq<Entry>, s: Uuid, m: Uuid) {
    exists g :: 0 <= g < |f| && s <= f[g].key && AllLe(f[..g], s) && f' == CutFence(f, g, s, m)
  }

  lemma InnerBefore(t: Tree, sh: Shape, j: nat, s: Uuid, m: Uuid, split: Option<Uuid>, i: nat)
    requires InnerPut(t, sh, j, s, m, split) && i <= |sh.inners|
    ensures var sh', i' := InnerShape(sh, j, split), Moved(i, j, split);
      && i' <= |sh'.inners| && (i == |sh.inners| ==> i' == |sh'.inners|)
      && (i < |sh.inners| ==> i' < |sh'.inners| && sh'.inners[i'] == sh.inners[i])
    ensures Leveled(InnerTree(t, sh.inners[j], s, m, split), InnerShape(sh, j, split))
    ensures var t', sh', i' := InnerTree(t, sh.inners[j], s, m, split), InnerShape(sh, j, split), Moved(i, j, split);
      var f, f' := Flat(t.nodes, sh.inners[..i]), Flat(t'.nodes, sh'.inners[..i']);
      if i <= j then f' == f else FencesCut(f, f', s, m)
  {
    var n := t.nodes[sh.inners[j]];
    InnerLeveled(t, sh, j, s, m, split);
    PutBefore(t.nodes, sh.inners, false, j, InnerInsert(n.ents, s, m), split, i);
    if i > j {
      InnerCut(t.nodes, sh.inners, j, s, m, i);
    }
  }

  lemma InnerCut(nodes: Nodes, ids: seq<Uuid>, j: nat, s: Uuid, m: Uuid, i: nat)
    requires j < i <= |ids| && forall p :: 0 <= p < |ids| ==> ids[p] in nodes
    requires AllLe(Flat(nodes, ids[..j]), s) && Rank(nodes[ids[j]].ents, s) < |nodes[ids[j]].ents|
    ensures FencesCut(Flat(nodes, ids[..i]), Rewritten(nodes, ids, j, InnerInsert(nodes[ids[j]].ents, s, m), i), s, m)
  {
    FlatAt(nodes, ids, j, i);
    CutIn(Flat(nodes, ids[..j]), nodes[ids[j]].ents, Flat(nodes, ids[j + 1..i]), s, m);
  }

  /** The entries of a cut fence list, one by one. */
  lemma CutEntries(f: seq<Entry>, g: nat, s: Uuid, m: Uuid)
    requires g < |f|
    ensures var f' := CutFence(f, g, s, m);
      && |f'| == |f| + 1
      && forall i :: 0 <= i < |f'| ==>
           f'[i] == if i < g then f[i] else if i == g then Entry(s, f[g].son)
                    else if i == g + 1 then Entry(f[g].key, m) else f[i - 1]
  {
  }

  lemma CutSorted(f: seq<Entry>, g: nat, s: Uuid, m: Uuid)
    requires g < |f| && Sorted(f) && s <= f[g].key && AllLe(f[..g], s)
    ensures Sorted(CutFence(f, g, s, m))
  {
    CutEntries(f, g, s, m);
    assert forall i :: 0 <= i < g ==> f[..g][i] == f[i];
  }

  lemma InnerFenced(t: Tree, sh: Shape, j: nat, s: Uuid, m: Uuid, split: Option<Uuid>)
    requires InnerReady(t, sh, j, s, m, split)
    ensures var t', sh' := InnerTree(t, sh.inners[j], s, m, split), InnerShape(sh, j, split);
      Leveled(t', sh') && Fenced(t', sh')
  {
    var t', sh' := InnerTree(t, sh.inners[j], s, m, split), InnerShape(sh, j, split);
    InnerLeveled(t, sh, j, s, m, split);
    FencesOfPut(t, sh, j, s, m, split);
    CutKeepsFenced(t, sh, t', sh', s, m);
  }

  lemma CutKeepsFenced(t: Tree, sh: Shape, t': Tree, sh': Shape, s: Uuid, m: Uuid)
    requires Leveled(t, sh) && Leveled(t', sh') && sh'.leaves == sh.leaves && Pairs(t', sh') == Pairs(t, sh)
    requires forall i :: 0 <= i <= |sh.leaves| ==> Before(t', sh', i) == Before(t, sh, i)
    requires Fenced(t, sh) && Guides(t, sh, s, m) && FencesCut(Fences(t, sh), Fences(t', sh'), s, m)
    ensures Fenced(t', sh')
  {
    var f, f' := Fences(t, sh), Fences(t', sh');
    var g :| 0 <= g < |f| && s <= f[g].key && AllLe(f[..g], s) && f' == CutFence(f, g, s, m);
    CutEntries(f, g, s, m);
    CutSorted(f, g, s, m);
    forall q | 1 <= q < |f'|
      ensures Guides(t', sh', f'[q - 1].key, f'[q].son)
    {
      CutGuides(t, sh, t', sh', f, g, s, m, q);
    }
  }

  lemma CutGuides(t: Tree, sh: Shape, t': Tree, sh': Shape, f: seq<Entry>, g: nat, s: Uuid, m: Uuid, q: nat)
    requires Leveled(t, sh) && Leveled(t', sh') && sh'.leaves == sh.leaves && Pairs(t', sh') == Pairs(t, sh)
    requires forall i :: 0 <= i <= |sh.leaves| ==> Before(t', sh', i) == Before(t, sh, i)
    requires forall p :: 1 <= p < |f| ==> Guides(t, sh, f[p - 1].key, f[p].son)
    requires g < |f| && Guides(t, sh, s, m) && 1 <= q <= |f|
    ensures var f' := CutFence(f, g, s, m); Guides(t', sh', f'[q - 1].key, f'[q].son)
  {
    CutEntries(f, g, s, m);
    if q == g + 1 {
      SameLeaves(t, sh, t', sh', s, m);
    } else {
      var p := if q <= g then q else q - 1;
      SameLeaves(t, sh, t', sh', f[p - 1].key, f[p].son);
    }
  }

  /** Inserting a separator keeps the tree in order and leaves the pairs alone. */
  lemma InnerKeeps(t: Tree, sh: Shape, j: nat, s: Uuid, m: Uuid, split: Option<Uuid>)
    requires InnerReady(t, sh, j, s, m, split)
    ensures var t', sh' := InnerTree(t, sh.inners[j], s, m, split), InnerShape(sh, j, split);
      Inv(t', sh') && Pairs(t', sh') == Pairs(t, sh)
  {
    InnerLeveled(t, sh, j, s, m, split);
    InnerSized(t, sh, j, s, m, split);
    InnerFenced(t, sh, j, s, m, split);
  }

  lemma CutKeepsAllLe(f: seq<Entry>, f': seq<Entry>, s: Uuid, m: Uuid, q: Uuid)
    requires FencesCut(f, f', s, m) && AllLe(f, q)
    ensures AllLe(f', q)
  {
    var g :| 0 <= g < |f| && s <= f[g].key && AllLe(f[..g], s) && f' == CutFence(f, g, s, m);
    CutEntries(f, g, s, m);
  }

  lemma InnerKeepsInnerStand(t: Tree, sh: Shape, j: nat, s: Uuid, m: Uuid, split: Option<Uuid>, n: Uuid, q: Uuid, i: nat)
    requires InnerPut(t, sh, j, s, m, split) && StandsAt(t.nodes, sh.inners, n, q, i)
    ensures var t', sh' := InnerTree(t, sh.inners[j], s, m, split), InnerShape(sh, j, split);
      Leveled(t', sh') && StandsAt(t'.nodes, sh'.inners, n, q, Moved(i, j, split))
  {
    var t', sh', i' := InnerTree(t, sh.inners[j], s, m, split), InnerShape(sh, j, split), Moved(i, j, split);
    InnerBefore(t, sh, j, s, m, split, i);
    if i > j {
      CutKeepsAllLe(Flat(t.nodes, sh.inners[..i]), Flat(t'.nodes, sh'.inners[..i']), s, m, q);
    }
  }

  lemma InnerKeepsStand(t: Tree, sh: Shape, j: nat, s: Uuid, m: Uuid, split: Option<Uuid>, n: Uuid, q: Uuid)
    requires InnerPut(t, sh, j, s, m, split) && Stands(t, sh, n, q)
    ensures Leveled(InnerTree(t, sh.inners[j], s, m, split), InnerShape(sh, j, split))
    ensures Stands(InnerTree(t, sh.inners[j], s, m, split), InnerShape(sh, j, split), n, q)
  {
    var t', sh' := InnerTree(t, sh.inners[j], s, m, split), InnerShape(sh, j, split);
    InnerLeveled(t, sh, j, s, m, split);
    if i: nat :| StandsAt(t.nodes, sh.inners, n, q, i) {
      InnerKeepsInnerStand(t, sh, j, s, m, split, n, q, i);
    } else {
      var i: nat :| StandsAt(t.nodes, sh.leaves, n, q, i);
      assert Before(t', sh', i) == Before(t, sh, i);
      assert StandsAt(t'.nodes, sh'.leaves, n, q, i);
    }
  }

  /* ----- replacing the root ----- */

  /** The first split of a leaf puts an inner node above it; the parent is not there yet before. */
  function RootTree(t: Tree, m: Uuid, s: Uuid, r: Uuid): Tree {
    Tree(t.nodes[r := Node(false, [Entry(s, t.root), Entry(INF, m)], NIL)], r)
  }

  lemma RootKeeps(t: Tree, sh: Shape, m: Uuid, s: Uuid, r: Uuid)
    requires Inv(t, sh) && sh.inners == [] && Guides(t, sh, s, m) && r != NIL && r !in t.nodes
    ensures var t', sh' := RootTree(t, m, s, r), sh.(inners := [r]);
      && Inv(t', sh') && Pairs(t', sh') == Pairs(t, sh)
      && forall i :: 0 <= i <= |sh.leaves| ==> Before(t', sh', i) == Before(t, sh, i)
  {
    var t', sh' := RootTree(t, m, s, r), sh.(inners := [r]);
    RootLeveled(t, sh, m, s, r);
    RootFenced(t, sh, m, s, r);
    assert Sized(t'.nodes, sh'.leaves, 0) by {
      assert forall i :: 0 <= i < |sh.leaves| ==> sh.leaves[i] in t.nodes && sh.leaves[i] != r;
    }
  }

  lemma RootLeveled(t: Tree, sh: Shape, m: Uuid, s: Uuid, r: Uuid)
    requires Leveled(t, sh) && sh.inners == [] && r != NIL && r !in t.nodes
    ensures var t', sh' := RootTree(t, m, s, r), sh.(inners := [r]);
      && Leveled(t', sh') && Pairs(t', sh') == Pairs(t, sh)
      && Fences(t', sh') == [Entry(s, t.root), Entry(INF, m)]
      && forall i :: 0 <= i <= |sh.leaves| ==> Before(t', sh', i) == Before(t, sh, i)
  {
    var t', sh' := RootTree(t, m, s, r), sh.(inners := [r]);
    assert forall i :: 0 <= i < |sh.leaves| ==> sh.leaves[i] in t.nodes && sh.leaves[i] != r;
    FlatSame(t.nodes, t'.nodes, sh.leaves);
    forall i | 0 <= i <= |sh.leaves|
      ensures Flat(t'.nodes, sh.leaves[..i]) == Flat(t.nodes, sh.leaves[..i])
    {
      FlatSame(t.nodes, t'.nodes, sh.leaves[..i]);
    }
    assert Flat(t'.nodes, [r]) == t'.nodes[r].ents + Flat(t'.nodes, []);
  }

  lemma RootFenced(t: Tree, sh: Shape, m: Uuid, s: Uuid, r: Uuid)
    requires Leveled(t, sh) && sh.inners == [] && Guides(t, sh, s, m) && r != NIL && r !in t.nodes
    ensures var t', sh' := RootTree(t, m, s, r), sh.(inners := [r]); Leveled(t', sh') && Fenced(t', sh')
  {
    var t', sh' := RootTree(t, m, s, r), sh.(inners := [r]);
    RootLeveled(t, sh, m, s, r);
    SameLeaves(t, sh, t', sh', s, m);
  }

  /** A walker of the leaf level stands as before when only the inner level changes. */
  lemma LeafStandStays(t: Tree, sh: Shape, t': Tree, sh': Shape, n: Uuid, q: Uuid, i: nat)
    requires Leveled(t, sh) && Leveled(t', sh') && sh'.leaves == sh.leaves
    requires forall i :: 0 <= i <= |sh.leaves| ==> Before(t', sh', i) == Before(t, sh, i)
    requires StandsAt(t.nodes, sh.leaves, n, q, i)
    ensures StandsAt(t'.nodes, sh'.leaves, n, q, i)
  {
    assert Before(t', sh', i) == Before(t, sh, i);
  }

  /* ----- which leaves can be reached from above ----- */

  /** A fence leads to the leaf; as long as there is no inner level, it is the root. */
  ghost predicate LedTo(t: Tree, sh: Shape, n: Uuid)
    requires Leveled(t, sh)
  {
    if sh.inners == [] then n == sh.leaves[0] else HasSon(Fences(t, sh), n)
  }

  ghost predicate HasSon(f: seq<Entry>, n: Uuid) {
    exists g :: 0 <= g < |f| && f[g].son == n
  }

  /** The leaves that no fence leads to, so that only the leaf on their left does. */
  ghost function Unled(t: Tree, sh: Shape): set<Uuid>
    requires Leveled(t, sh)
  {
    set n | n in sh.leaves && !LedTo(t, sh, n)
  }

  lemma PutIdsAre(ids: seq<Uuid>, j: nat, split: Option<Uuid>)
    requires j < |ids|
    ensures forall n :: n in PutIds(ids, j, split) <==> n in ids || split == Some(n)
  {
    assert ids == ids[..j] + [ids[j]] + ids[j + 1..];
  }

  lemma LeafLeads(t: Tree, sh: Shape, j: nat, k: Uuid, v: Uuid, split: Option<Uuid>)
    requires LeafPut(t, sh, j, k, v, split)
    ensures var t', sh' := LeafTree(t, sh.leaves[j], k, v, split), LeafShape(sh, j, split);
      && Leveled(t', sh') && (forall n :: LedTo(t', sh', n) <==> LedTo(t, sh, n))
      && (forall n :: n in sh'.leaves <==> n in sh.leaves || split == Some(n))
      && Unled(t', sh') <= Unled(t, sh) + if split.Some? then {split.value} else {}
  {
    var t', sh' := LeafTree(t, sh.leaves[j], k, v, split), LeafShape(sh, j, split);
    LeafLeveled(t, sh, j, k, v, split);
    PutIdsAre(sh.leaves, j, split);
    SameFences(t, sh, t', sh');
  }

  lemma SameFences(t: Tree, sh: Shape, t': Tree, sh': Shape)
    requires Leveled(t, sh) && Leveled(t', sh') && sh'.inners == sh.inners && sh'.leaves[0] == sh.leaves[0]
    requires Fences(t', sh') == Fences(t, sh)
    ensures forall n :: LedTo(t', sh', n) <==> LedTo(t, sh, n)
  {
  }

  lemma OneMoreLed(t: Tree, sh: Shape, t': Tree, sh': Shape, m: Uuid)
    requires Leveled(t, sh) && Leveled(t', sh') && sh'.leaves == sh.leaves
    requires forall n :: LedTo(t', sh', n) <==> LedTo(t, sh, n) || n == m
    ensures Unled(t', sh') == Unled(t, sh) - {m}
  {
  }

  /** A separator that is taken up makes its leaf reachable, and no other leaf loses its fence. */
  lemma InnerLeads(t: Tree, sh: Shape, j: nat, s: Uuid, m: Uuid, split: Option<Uuid>)
    requires InnerPut(t, sh, j, s, m, split)
    ensures var t', sh' := InnerTree(t, sh.inners[j], s, m, split), InnerShape(sh, j, split);
      && Leveled(t', sh') && sh'.leaves == sh.leaves
      && (forall n :: LedTo(t', sh', n) <==> LedTo(t, sh, n) || n == m)
      && Unled(t', sh') == Unled(t, sh) - {m}
  {
    var t', sh' := InnerTree(t, sh.inners[j], s, m, split), InnerShape(sh, j, split);
    InnerLeveled(t, sh, j, s, m, split);
    FencesOfPut(t, sh, j, s, m, split);
    CutSons(Fences(t, sh), Fences(t', sh'), s, m);
    OneMoreLed(t, sh, t', sh', m);
  }

  lemma FencesOfPut(t: Tree, sh: Shape, j: nat, s: Uuid, m: Uuid, split: Option<Uuid>)
    requires InnerPut(t, sh, j, s, m, split)
    ensures var t', sh' := InnerTree(t, sh.inners[j], s, m, split), InnerShape(sh, j, split);
      Leveled(t', sh') && sh'.inners != [] && FencesCut(Fences(t, sh), Fences(t', sh'), s, m)
  {
    var t', sh' := InnerTree(t, sh.inners[j], s, m, split), InnerShape(sh, j, split);
    InnerLeveled(t, sh, j, s, m, split);
    InnerBefore(t, sh, j, s, m, split, |sh.inners|);
    assert sh.inners[..|sh.inners|] == sh.inners;
    assert sh'.inners[..|sh'.inners|] == sh'.inners;
  }

  lemma CutSons(f: seq<Entry>, f': seq<Entry>, s: Uuid, m: Uuid)
    requires FencesCut(f, f', s, m)
    ensures forall n :: HasSon(f', n) <==> HasSon(f, n) || n == m
  {
    var g :| 0 <= g < |f| && s <= f[g].key && AllLe(f[..g], s) && f' == CutFence(f, g, s, m);
    forall n ensures HasSon(f', n) <==> HasSon(f, n) || n == m {
      SonOfCut(f, g, s, m, n);
    }
  }

  lemma SonOfCut(f: seq<Entry>, g: nat, s: Uuid, m: Uuid, n: Uuid)
    requires g < |f|
    ensures HasSon(CutFence(f, g, s, m), n) <==> HasSon(f, n) || n == m
  {
    var f' := CutFence(f, g, s, m);
    CutEntries(f, g, s, m);
    assert f'[g + 1].son == m;
    if q :| 0 <= q < |f| && f[q].son == n {
      assert f'[if q <= g then q else q + 1].son == n;
    }
    if p :| 0 <= p < |f'| && f'[p].son == n {
      assert p == g + 1 || f[if p <= g then p else p - 1].son == n;
    }
  }

  lemma RootLeads(t: Tree, sh: Shape, m: Uuid, s: Uuid, r: Uuid)
    requires Leveled(t, sh) && sh.inners == [] && r != NIL && r !in t.nodes
    ensures var t', sh' := RootTree(t, m, s, r), sh.(inners := [r]);
      && Leveled(t', sh') && (forall n :: LedTo(t', sh', n) <==> LedTo(t, sh, n) || n == m)
      && Unled(t', sh') == Unled(t, sh) - {m}
  {
    var t', sh' := RootTree(t, m, s, r), sh.(inners := [r]);
    RootLeveled(t, sh, m, s, r);
    var f := Fences(t', sh');
    assert f[0].son == t.root && f[1].son == m;
    OneMoreLed(t, sh, t', sh', m);
  }

  /* ----- walking ----- */

  /** Descending one level: the leaf found has nothing above `k` before it, and not the only pair with key `k`. */
  lemma DescendInner(t: Tree, sh: Shape, n: Uuid, k: Uuid, j: nat) returns (i: nat)
    requires Leveled(t, sh) && sh.inners != [] && Fenced(t, sh)
    requires StandsAt(t.nodes, sh.inners, n, k, j) && SearchNext(t.nodes[n], k).0.Some?
    ensures StandsAt(t.nodes, sh.leaves, SearchNext(t.nodes[n], k).0.value, k, i)
    ensures HasKey(Before(t, sh, i), k) ==> HasKey(From(t, sh, i), k)
  {
    var g := WayDown(t.nodes, sh.inners, n, k, j);
    i := BehindFence(t, sh, k, g);
  }

  lemma WayDown(nodes: Nodes, ids: seq<Uuid>, n: Uuid, k: Uuid, j: nat) returns (g: nat)
    requires (forall p :: 0 <= p < |ids| ==> ids[p] in nodes) && StandsAt(nodes, ids, n, k, j)
    requires SearchNext(nodes[n], k).0.Some?
    ensures g < |Flat(nodes, ids)| && SearchNext(nodes[n], k).0.value == Flat(nodes, ids)[g].son
    ensures g > 0 ==> Flat(nodes, ids)[g - 1].key <= k
  {
    g := |Flat(nodes, ids[..j])| + RankAbove(nodes[n].ents, k);
    FenceFound(nodes, ids, j, k);
  }

  /** The entry a search stops at, among all fences. */
  lemma FenceFound(nodes: Nodes, ids: seq<Uuid>, j: nat, k: Uuid)
    requires j < |ids| && (forall p :: 0 <= p < |ids| ==> ids[p] in nodes)
    requires AllLe(Flat(nodes, ids[..j]), k) && RankAbove(nodes[ids[j]].ents, k) < |nodes[ids[j]].ents|
    ensures var f, g := Flat(nodes, ids), |Flat(nodes, ids[..j])| + RankAbove(nodes[ids[j]].ents, k);
      && g < |f| && f[g] == nodes[ids[j]].ents[RankAbove(nodes[ids[j]].ents, k)] && (g > 0 ==> f[g - 1].key <= k)
  {
    var es, a := nodes[ids[j]].ents, Flat(nodes, ids[..j]);
    FlatAt(nodes, ids, j, |ids|);
    assert ids[..|ids|] == ids;
    FoundInMiddle(a, es, Flat(nodes, ids[j + 1..|ids|]), k);
  }

  lemma FoundInMiddle(a: seq<Entry>, es: seq<Entry>, c: seq<Entry>, k: Uuid)
    requires AllLe(a, k) && RankAbove(es, k) < |es|
    ensures var f, g := a + es + c, |a| + RankAbove(es, k);
      g < |f| && f[g] == es[RankAbove(es, k)] && (g > 0 ==> f[g - 1].key <= k)
  {
    var f, r := a + es + c, RankAbove(es, k);
    if |a| + r > 0 {
      assert f[|a| + r - 1] == if r > 0 then es[r - 1] else a[|a| - 1];
    }
  }

  /** The leaf a fence leads to. */
  lemma BehindFence(t: Tree, sh: Shape, k: Uuid, g: nat) returns (i: nat)
    requires Leveled(t, sh) && sh.inners != [] && Fenced(t, sh) && g < |Fences(t, sh)|
    requires g > 0 ==> Fences(t, sh)[g - 1].key <= k
    ensures StandsAt(t.nodes, sh.leaves, Fences(t, sh)[g].son, k, i)
    ensures HasKey(Before(t, sh, i), k) ==> HasKey(From(t, sh, i), k)
  {
    var f := Fences(t, sh);
    if g == 0 {
      i := 0;
      assert sh.leaves[..0] == [];
    } else {
      var s := f[g - 1].key;
      assert Guides(t, sh, s, f[g].son);
      i :| GuidesAt(t, sh, s, f[g].son, i);
    }
  }

  /** Moving right on the inner level. */
  lemma RightInner(t: Tree, sh: Shape, n: Uuid, k: Uuid, j: nat)
    requires Inv(t, sh) && k < INF && StandsAt(t.nodes, sh.inners, n, k, j) && SearchNext(t.nodes[n], k).0.None?
    ensures t.nodes[n].sibling != NIL && StandsAt(t.nodes, sh.inners, t.nodes[n].sibling, k, j + 1)
  {
    if t.nodes[n].sibling == NIL {
      LastInnerTakes(t, sh, j, k);
    }
    FlatAt(t.nodes, sh.inners, j, j + 1);
    assert sh.inners[j + 1..j + 1] == [];
  }

  /** Moving right with a separator that a node turns away. */
  lemma RightFence(t: Tree, sh: Shape, n: Uuid, k: Uuid, j: nat)
    requires Leveled(t, sh) && StandsAt(t.nodes, sh.inners, n, k, j) && !Accepts(t.nodes[n], k)
    ensures StandsAt(t.nodes, sh.inners, t.nodes[n].sibling, k, j + 1)
  {
    FlatAt(t.nodes, sh.inners, j, j + 1);
    assert sh.inners[j + 1..j + 1] == [];
  }

  /** Moving right on the leaf level with a pair that a leaf turns away. */
  lemma RightLeaf(t: Tree, sh: Shape, n: Uuid, k: Uuid, j: nat)
    requires Leveled(t, sh) && StandsAt(t.nodes, sh.leaves, n, k, j) && !Accepts(t.nodes[n], k)
    ensures StandsAt(t.nodes, sh.leaves, t.nodes[n].sibling, k, j + 1)
  {
    FlatAt(t.nodes, sh.leaves, j, j + 1);
    assert sh.leaves[j + 1..j + 1] == [];
  }

  /* ----- scanning ----- */

  /** A scan for `[l, r]` owes the pairs above `l`, and those at `l` too if it is exact. */
  predicate Owed(e: Entry, l: Uuid, r: Uuid, exact: bool) {
    (if exact then l <= e.key else l < e.key) && e.key <= r
  }

  ghost predicate InRange(es: seq<Entry>, l: Uuid, r: Uuid) {
    forall i :: 0 <= i < |es| ==> l <= es[i].key <= r
  }

  /**
   A scan for `[l, r]` is about to read leaf number `i`: what it has got came from before that leaf,
   in order, and of the pairs `begun` with it has all above `l` that are not still ahead.
   */
  ghost predicate ScansAt(t: Tree, sh: Shape, n: Uuid, l: Uuid, r: Uuid, got: seq<Entry>, begun: multiset<Entry>, i: nat, exact: bool)
    requires Leveled(t, sh)
  {
    && i < |sh.leaves| && sh.leaves[i] == n
    && Sorted(got) && InRange(got, l, r)
    && multiset(got) <= multiset(Before(t, sh, i))
    && (forall e: Entry :: Owed(e, l, r, exact) ==> begun[e] <= multiset(got)[e] + multiset(From(t, sh, i))[e])
  }

  /** What a finished scan has: no pair twice, in order, in range, and all it had to find. */
  ghost predicate Scanned(t: Tree, sh: Shape, l: Uuid, r: Uuid, got: seq<Entry>, begun: multiset<Entry>, exact: bool)
    requires Leveled(t, sh)
  {
    && Sorted(got) && InRange(got, l, r)
    && multiset(got) <= multiset(Pairs(t, sh))
    && (forall e: Entry :: Owed(e, l, r, exact) ==> begun[e] <= multiset(got)[e])
  }

  lemma ScanStarts(t: Tree, sh: Shape, n: Uuid, l: Uuid, r: Uuid, begun: multiset<Entry>, i: nat, exact: bool)
    requires Leveled(t, sh) && StandsAt(t.nodes, sh.leaves, n, l, i) && begun <= multiset(Pairs(t, sh))
    requires exact ==> !HasKey(Before(t, sh, i), l)
    ensures ScansAt(t, sh, n, l, r, [], begun, i, exact)
  {
    CutPairs(t, sh, i);
    var b := Before(t, sh, i);
    forall e: Entry | Owed(e, l, r, exact)
      ensures begun[e] <= multiset(From(t, sh, i))[e]
    {
      assert e !in b;
      assert e !in multiset(b);
    }
  }

  function Low(es: seq<Entry>, l: Uuid): nat {
    Rank(es, l)
  }

  function High(es: seq<Entry>, l: Uuid, r: Uuid): (j: nat)
    ensures Low(es, l) <= j <= |es|
  {
    Low(es, l) + RankAbove(es[Low(es, l)..], r)
  }

  /** The three parts of a leaf around the range: below `l`, in range, above `r`. */
  lemma RangeAt(es: seq<Entry>, l: Uuid, r: Uuid, q: nat)
    requires Sorted(es) && q < |es|
    ensures q < Low(es, l) ==> es[q].key < l
    ensures Low(es, l) <= q < High(es, l, r) ==> l <= es[q].key <= r
    ensures High(es, l, r) <= q ==> r < es[q].key
  {
    var i, j := Low(es, l), High(es, l, r);
    if i <= q < j {
      assert es[q] == es[i..][q - i];
      assert es[i].key <= es[q].key;
    } else if j <= q {
      assert es[j] == es[i..][j - i];
      assert es[j].key <= es[q].key;
    }
  }

  lemma RangeInOrder(es: seq<Entry>, l: Uuid, r: Uuid)
    requires Sorted(es)
    ensures var got := es[Low(es, l)..High(es, l, r)]; Sorted(got) && InRange(got, l, r)
  {
    var i, j := Low(es, l), High(es, l, r);
    forall q | 0 <= q < j - i
      ensures es[i..j][q] == es[i + q] && l <= es[i..j][q].key <= r
    {
      RangeAt(es, l, r, i + q);
    }
  }

  lemma RangeCounts(es: seq<Entry>, l: Uuid, r: Uuid, exact: bool)
    requires Sorted(es)
    ensures var got := es[Low(es, l)..High(es, l, r)];
      && multiset(got) <= multiset(es)
      && forall e: Entry :: Owed(e, l, r, exact) ==> multiset(es)[e] == multiset(got)[e]
  {
    var i, j := Low(es, l), High(es, l, r);
    assert es == es[..i] + es[i..j] + es[j..];
    assert multiset(es) == multiset(es[..i]) + multiset(es[i..j]) + multiset(es[j..]);
    forall e: Entry | Owed(e, l, r, exact)
      ensures multiset(es)[e] == multiset(es[i..j])[e]
    {
      RangeMisses(es, l, r, e, exact);
    }
  }

  lemma RangeMisses(es: seq<Entry>, l: Uuid, r: Uuid, e: Entry, exact: bool)
    requires Sorted(es) && Owed(e, l, r, exact)
    ensures multiset(es[..Low(es, l)])[e] == 0 && multiset(es[High(es, l, r)..])[e] == 0
  {
    var i, j := Low(es, l), High(es, l, r);
    assert e !in es[..i];
    forall q | 0 <= q < |es| - j
      ensures es[j..][q] != e
    {
      RangeAt(es, l, r, j + q);
    }
    assert e !in es[j..];
    assert e !in multiset(es[..i]) && e !in multiset(es[j..]);
  }

  /** A leaf between what is before it and what is behind it. */
  lemma LeafParts(t: Tree, sh: Shape, i: nat)
    requires Leveled(t, sh) && i < |sh.leaves|
    ensures From(t, sh, i) == t.nodes[sh.leaves[i]].ents + From(t, sh, i + 1)
    ensures Before(t, sh, i + 1) == Before(t, sh, i) + t.nodes[sh.leaves[i]].ents
    ensures Pairs(t, sh) == Before(t, sh, i) + From(t, sh, i)
  {
    CutPairs(t, sh, i);
    assert sh.leaves[i..][1..] == sh.leaves[i + 1..];
    FlatAt(t.nodes, sh.leaves, i, i + 1);
    assert sh.leaves[i + 1..i + 1] == [];
  }

  lemma SortedParts(b: seq<Entry>, es: seq<Entry>, rest: seq<Entry>)
    requires Sorted(b + (es + rest))
    ensures Sorted(es)
    ensures forall p, q :: 0 <= p < |b| && 0 <= q < |es| ==> b[p].key <= es[q].key
    ensures forall p, q :: 0 <= p < |es| && 0 <= q < |rest| ==> es[p].key <= rest[q].key
  {
    var s := b + (es + rest);
    assert forall p :: 0 <= p < |b| ==> b[p] == s[p];
    assert forall p :: 0 <= p < |es| ==> es[p] == s[|b| + p];
    assert forall p :: 0 <= p < |rest| ==> rest[p] == s[|b| + |es| + p];
  }

  /** What was got so far is not above anything in the leaf. */
  lemma GotBelow(b: seq<Entry>, es: seq<Entry>, got: seq<Entry>, tmp: seq<Entry>)
    requires multiset(got) <= multiset(b) && multiset(tmp) <= multiset(es) && Sorted(got) && Sorted(tmp)
    requires forall p, q :: 0 <= p < |b| && 0 <= q < |es| ==> b[p].key <= es[q].key
    ensures Sorted(got + tmp)
  {
    forall p, q | 0 <= p < |got| && 0 <= q < |tmp|
      ensures got[p].key <= tmp[q].key
    {
      assert got[p] in multiset(got) && tmp[q] in multiset(tmp);
      assert got[p] in multiset(b) && tmp[q] in multiset(es);
      assert got[p] in b && tmp[q] in es;
    }
  }

  lemma ReadInOrder(b: seq<Entry>, es: seq<Entry>, rest: seq<Entry>, got: seq<Entry>, l: Uuid, r: Uuid, exact: bool)
    requires Sorted(b + (es + rest)) && Sorted(got) && InRange(got, l, r) && multiset(got) <= multiset(b)
    ensures var got' := got + es[Low(es, l)..High(es, l, r)];
      Sorted(got') && InRange(got', l, r) && multiset(got') <= multiset(b + es)
  {
    var tmp := es[Low(es, l)..High(es, l, r)];
    SortedParts(b, es, rest);
    RangeCounts(es, l, r, exact);
    RangeInOrder(es, l, r);
    GotBelow(b, es, got, tmp);
    assert multiset(got + tmp) == multiset(got) + multiset(tmp);
    assert multiset(b + es) == multiset(b) + multiset(es);
  }

  lemma ReadAll(es: seq<Entry>, rest: seq<Entry>, got: seq<Entry>, begun: multiset<Entry>, l: Uuid, r: Uuid, e: Entry, exact: bool)
    requires Sorted(es) && Owed(e, l, r, exact)
    requires begun[e] <= multiset(got)[e] + multiset(es + rest)[e]
    ensures begun[e] <= multiset(got + es[Low(es, l)..High(es, l, r)])[e] + multiset(rest)[e]
  {
    RangeCounts(es, l, r, exact);
    var tmp := es[Low(es, l)..High(es, l, r)];
    assert multiset(got + tmp) == multiset(got) + multiset(tmp);
    assert multiset(es + rest) == multiset(es) + multiset(rest);
  }

  /** The reading of one leaf. */
  lemma ScanReads(t: Tree, sh: Shape, n: Uuid, l: Uuid, r: Uuid, got: seq<Entry>, begun: multiset<Entry>, i: nat, exact: bool)
    requires Leveled(t, sh) && Sorted(Pairs(t, sh)) && ScansAt(t, sh, n, l, r, got, begun, i, exact)
    ensures var got' := got + LeafRange(t.nodes[n], l, r).0;
      && Sorted(got') && InRange(got', l, r)
      && multiset(got') <= multiset(Before(t, sh, i + 1))
      && forall e: Entry :: Owed(e, l, r, exact) ==> begun[e] <= multiset(got')[e] + multiset(From(t, sh, i + 1))[e]
  {
    var es, b, rest := t.nodes[n].ents, Before(t, sh, i), From(t, sh, i + 1);
    assert LeafRange(t.nodes[n], l, r).0 == es[Low(es, l)..High(es, l, r)];
    LeafParts(t, sh, i);
    ReadInOrder(b, es, rest, got, l, r, exact);
    SortedParts(b, es, rest);
    forall e: Entry | Owed(e, l, r, exact)
      ensures begun[e] <= multiset(got + es[Low(es, l)..High(es, l, r)])[e] + multiset(rest)[e]
    {
      ReadAll(es, rest, got, begun, l, r, e, exact);
    }
  }

  /** Reading a leaf and moving on. */
  lemma ScanMoves(t: Tree, sh: Shape, n: Uuid, l: Uuid, r: Uuid, got: seq<Entry>, begun: multiset<Entry>, i: nat, exact: bool)
    requires Leveled(t, sh) && Sorted(Pairs(t, sh)) && ScansAt(t, sh, n, l, r, got, begun, i, exact)
    requires LeafRange(t.nodes[n], l, r).1 != NIL
    ensures var (tmp, next) := LeafRange(t.nodes[n], l, r); ScansAt(t, sh, next, l, r, got + tmp, begun, i + 1, exact)
  {
    ScanReads(t, sh, n, l, r, got, begun, i, exact);
  }

  /** Reading the leaf at which the range ends. */
  lemma ScanEnds(t: Tree, sh: Shape, n: Uuid, l: Uuid, r: Uuid, got: seq<Entry>, begun: multiset<Entry>, i: nat, exact: bool)
    requires Leveled(t, sh) && Sorted(Pairs(t, sh)) && ScansAt(t, sh, n, l, r, got, begun, i, exact)
    requires LeafRange(t.nodes[n], l, r).1 == NIL
    ensures Scanned(t, sh, l, r, got + LeafRange(t.nodes[n], l, r).0, begun, exact)
  {
    ScanReads(t, sh, n, l, r, got, begun, i, exact);
    CutPairs(t, sh, i + 1);
    assert multiset(Before(t, sh, i + 1) + From(t, sh, i + 1)) ==
           multiset(Before(t, sh, i + 1)) + multiset(From(t, sh, i + 1));
    forall e: Entry | Owed(e, l, r, exact)
      ensures multiset(From(t, sh, i + 1))[e] == 0
    {
      NothingBehind(t, sh, n, l, r, i, e, exact);
    }
  }

  lemma NothingBehind(t: Tree, sh: Shape, n: Uuid, l: Uuid, r: Uuid, i: nat, e: Entry, exact: bool)
    requires Leveled(t, sh) && Sorted(Pairs(t, sh)) && i < |sh.leaves| && sh.leaves[i] == n
    requires LeafRange(t.nodes[n], l, r).1 == NIL && Owed(e, l, r, exact)
    ensures multiset(From(t, sh, i + 1))[e] == 0
  {
    var es, rest := t.nodes[n].ents, From(t, sh, i + 1);
    var j := High(es, l, r);
    if j == |es| {
      assert t.nodes[n].sibling == NIL;
      assert sh.leaves[i + 1..] == [];
    } else {
      LeafParts(t, sh, i);
      SortedParts(Before(t, sh, i), es, rest);
      RangeAt(es, l, r, j);
      assert e !in rest;
      assert e !in multiset(rest);
    }
  }
}
