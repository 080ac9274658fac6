/** The tree object, used by one caller at a time: right-walk loops over nodes that are rewritten in place. */
module BPlusTree {
  import opened Types
  import opened BLink
  import opened BLinkTree
  import opened BLinkRuns

  /** `LeafFailed`: nothing was inserted.  `ParentFailed`: the pair is in, the separator is not. */
  datatype InsertResult = Done | LeafFailed | ParentFailed

  function Sons(es: seq<Entry>): seq<Uuid> {
    seq(|es|, i requires 0 <= i < |es| => es[i].son)
  }

  /**
   What a search for `[l, r]` answers: pairs in key order and in range, none more often than it is
   in the tree, all pairs above `l`, and those at `l` too exactly if none of them is among `passed`,
   the pairs of the leaves left of the one where the search began.
   */
  ghost predicate Answers(content: seq<Entry>, passed: seq<Entry>, got: seq<Entry>, l: Uuid, r: Uuid) {
    && Sorted(got) && InRange(got, l, r)
    && multiset(got) <= multiset(content)
    && (forall e: Entry :: l < e.key <= r ==> multiset(got)[e] == multiset(content)[e])
    && (l <= r ==> (Complete(content, got, l, r) <==> !HasKey(passed, l)))
  }

  ghost predicate Complete(content: seq<Entry>, got: seq<Entry>, l: Uuid, r: Uuid) {
    forall e: Entry :: l <= e.key <= r ==> multiset(got)[e] == multiset(content)[e]
  }

  /** At most one pair has the key `k`. */
  ghost predicate AtMostOnce(es: seq<Entry>, k: Uuid) {
    forall i, j :: 0 <= i < j < |es| ==> es[i].key != k || es[j].key != k
  }

  class Index {
    var nodes: Nodes
    var root: Uuid
    ghost var shape: Shape

    ghost predicate Valid()
      reads this
    {
      Inv(Tree(nodes, root), shape)
    }

    ghost function Content(): seq<Entry>
      reads this
      requires Valid()
    {
      Pairs(Tree(nodes, root), shape)
    }

    /** The leaves that no fence leads to, so that only the leaf on their left does. */
    ghost function Strays(): set<Uuid>
      reads this
      requires Valid()
    {
      Unled(Tree(nodes, root), shape)
    }

    /** `leaf` is the address at which the data manager has stored the empty root. */
    constructor (leaf: Uuid)
      requires leaf != NIL
      ensures Valid() && Content() == [] && nodes.Keys == {leaf} && Strays() == {}
    {
      nodes := map[leaf := Node(true, [], NIL)];
      root := leaf;
      shape := Shape([leaf], []);
      new;
      assert Flat(nodes, [leaf]) == nodes[leaf].ents + Flat(nodes, []);
    }

    /** Follows the inner level to the right until a node knows the way; no way exists only for INF. */
    method SearchNextFrom(start: Uuid, k: Uuid, ghost i0: nat) returns (next: Option<Uuid>, ghost i: nat)
      requires Valid() && StandsAt(nodes, shape.inners, start, k, i0)
      ensures k < INF ==> next.Some?
      ensures next.Some? ==>
        && StandsAt(nodes, shape.leaves, next.value, k, i)
        && (HasKey(Before(Tree(nodes, root), shape, i), k) ==> HasKey(From(Tree(nodes, root), shape, i), k))
    {
      var n := start;
      ghost var j := i0;
      ghost var t := Tree(nodes, root);
      i := 0;
      while true
        invariant StandsAt(nodes, shape.inners, n, k, j)
        decreases |shape.inners| - j
      {
        var (son, sibling) := SearchNext(nodes[n], k);
        if son.Some? {
          i := DescendInner(t, shape, n, k, j);
          return son, i;
        }
        if sibling == NIL {
          if k < INF {
            RightInner(t, shape, n, k, j);
          }
          return None, 0;
        }
        RightFenceAbove(t, shape, n, k, j);
        n := sibling;
        j := j + 1;
      }
    }

    /** From a node down to the leaf where a search for `k` begins. */
    method SearchLeaf(n: Uuid, k: Uuid, ghost j: nat) returns (leaf: Option<Uuid>, ghost i: nat)
      requires Valid() && n in nodes
      requires !nodes[n].leaf ==> StandsAt(nodes, shape.inners, n, k, j)
      requires nodes[n].leaf ==>
        && StandsAt(nodes, shape.leaves, n, k, j)
        && (HasKey(Before(Tree(nodes, root), shape, j), k) ==> HasKey(From(Tree(nodes, root), shape, j), k))
      ensures k < INF ==> leaf.Some?
      ensures leaf.Some? ==>
        && StandsAt(nodes, shape.leaves, leaf.value, k, i)
        && (HasKey(Before(Tree(nodes, root), shape, i), k) ==> HasKey(From(Tree(nodes, root), shape, i), k))
      decreases n in nodes && !nodes[n].leaf
    {
      if nodes[n].leaf {
        return Some(n), j;
      }
      var next;
      next, i := SearchNextFrom(n, k, j);
      if next.None? {
        return None, 0;
      }
      leaf, i := SearchLeaf(next.value, k, i);
    }

    /** The sons of the pairs with key in `[l, r]`; only a search from INF can fail. */
    method SearchRange(l: Uuid, r: Uuid) returns (found: Option<seq<Uuid>>, ghost got: seq<Entry>, ghost i: nat)
      requires Valid()
      ensures l < INF ==> found.Some?
      ensures found.Some? ==>
        && found.value == Sons(got) && i < |shape.leaves|
        && Answers(Content(), Before(Tree(nodes, root), shape, i), got, l, r)
        && (AtMostOnce(Content(), l) && l <= r ==> Complete(Content(), got, l, r))
    {
      assert shape.leaves[..0] == [] && shape.inners[..0] == [];
      got := [];
      var start;
      start, i := SearchLeaf(root, l, 0);
      if start.None? {
        return None, [], 0;
      }
      if AtMostOnce(Content(), l) {
        OnceIsNotBefore(Tree(nodes, root), shape, i, l);
      }
      var uuids;
      uuids, got := ScanFrom(start.value, l, r, i);
      found := Some(uuids);
    }

    /** Reads leaf after leaf to the right until the range ends. */
    method ScanFrom(start: Uuid, l: Uuid, r: Uuid, ghost i0: nat) returns (uuids: seq<Uuid>, ghost got: seq<Entry>)
      requires Leveled(Tree(nodes, root), shape) && Sorted(Pairs(Tree(nodes, root), shape))
      requires StandsAt(nodes, shape.leaves, start, l, i0)
      ensures uuids == Sons(got)
      ensures Answers(Pairs(Tree(nodes, root), shape), Before(Tree(nodes, root), shape, i0), got, l, r)
    {
      ghost var t := Tree(nodes, root);
      ghost var all := multiset(Pairs(t, shape));
      ghost var exact := !HasKey(Before(t, shape, i0), l);
      ghost var passed := multiset(Before(t, shape, i0));
      ghost var i := i0;
      var n := start;
      uuids, got := [], [];
      ScanStarts(t, shape, n, l, r, all, i, exact);
      while true
        invariant ScansAt(t, shape, n, l, r, got, all, i, exact)
        invariant passed + multiset(got) <= multiset(Before(t, shape, i))
        invariant uuids == Sons(got)
        decreases |shape.leaves| - i
      {
        var (tmp, next) := LeafRange(nodes[n], l, r);
        SonsAppend(got, tmp);
        uuids := uuids + Sons(tmp);
        ReadsAhead(t, shape, i, l, r, passed, got);
        if next == NIL {
          ScanEnds(t, shape, n, l, r, got, all, i, exact);
          got := got + tmp;
          ScanAnswers(t, shape, l, r, got, i0);
          return;
        }
        ScanMoves(t, shape, n, l, r, got, all, i, exact);
        got := got + tmp;
        n := next;
        i := i + 1;
      }
    }

    /** Moves right until a leaf takes the key. */
    method AcceptingLeaf(start: Uuid, k: Uuid, ghost i0: nat) returns (n: Uuid, ghost j: nat)
      requires Valid() && StandsAt(nodes, shape.leaves, start, k, i0)
      ensures StandsAt(nodes, shape.leaves, n, k, j) && Accepts(nodes[n], k)
    {
      n, j := start, i0;
      while !Accepts(nodes[n], k)
        invariant StandsAt(nodes, shape.leaves, n, k, j)
        decreases |shape.leaves| - j
      {
        RightLeaf(Tree(nodes, root), shape, n, k, j);
        n, j := nodes[n].sibling, j + 1;
      }
    }

    /** Moves right until an inner node takes the separator. */
    method AcceptingInner(start: Uuid, s: Uuid, ghost i0: nat) returns (n: Uuid, ghost j: nat)
      requires Valid() && s < INF && StandsAt(nodes, shape.inners, start, s, i0)
      ensures StandsAt(nodes, shape.inners, n, s, j) && Rank(nodes[n].ents, s) < |nodes[n].ents|
    {
      n, j := start, i0;
      while !Accepts(nodes[n], s)
        invariant StandsAt(nodes, shape.inners, n, s, j)
        decreases |shape.inners| - j
      {
        RightFence(Tree(nodes, root), shape, n, s, j);
        n, j := nodes[n].sibling, j + 1;
      }
      if nodes[n].sibling == NIL {
        LastInnerTakes(Tree(nodes, root), shape, j, s);
      }
    }

    /** Tries the leaf and its right siblings; a full leaf is split if the data manager has an address. */
    method InsertAndSplitLeaf(start: Uuid, k: Uuid, v: Uuid, alloc: Option<Uuid>, ghost i0: nat)
      returns (ok: bool, split: Option<(Uuid, Uuid)>)
      requires Valid() && k < INF && StandsAt(nodes, shape.leaves, start, k, i0)
      requires alloc.Some? ==> alloc.value != NIL && alloc.value !in nodes
      modifies this
      ensures Valid() && root == old(root) && shape.inners == old(shape.inners) && shape.leaves[0] == old(shape.leaves[0])
      ensures !ok ==> nodes == old(nodes) && shape == old(shape) && split.None? && alloc.None?
      ensures ok ==> multiset(Content()) == multiset(old(Content())) + multiset{Entry(k, v)}
      ensures split.Some? ==> Guides(Tree(nodes, root), shape, split.value.1, split.value.0)
      ensures Strays() <= old(Strays()) + if split.Some? then {split.value.0} else {}
      ensures split.Some? ==> alloc == Some(split.value.0)
      ensures nodes.Keys <= old(nodes.Keys) + (if alloc.Some? then {alloc.value} else {})
      ensures alloc.Some? && split.None? ==> alloc.value !in nodes
    {
      ghost var t := Tree(nodes, root);
      ghost var j;
      var n;
      n, j := AcceptingLeaf(start, k, i0);
      var es := LeafInsert(nodes[n].ents, k, v);
      if |es| == 2 * BALANCE && alloc.None? {
        return false, None;
      }
      var half := if |es| == 2 * BALANCE then alloc else None;
      LeafPutKeeps(t, shape, j, n, k, v, half);
      nodes := PutNode(nodes, n, es, half);
      shape := LeafShape(shape, j, half);
      return true, if half.Some? then Some((half.value, nodes[half.value].ents[0].key)) else None;
    }

    /** Tries the inner node and its right siblings with a separator; a split goes unreported. */
    method InsertAndSplitInner(start: Uuid, m: Uuid, s: Uuid, alloc: Option<Uuid>, ghost i0: nat) returns (ok: bool)
      requires Valid() && Guides(Tree(nodes, root), shape, s, m) && StandsAt(nodes, shape.inners, start, s, i0)
      requires alloc.Some? ==> alloc.value != NIL && alloc.value !in nodes
      modifies this
      ensures Valid() && root == old(root) && Content() == old(Content())
      ensures !ok ==> nodes == old(nodes) && shape == old(shape) && alloc.None?
      ensures ok ==> Strays() == old(Strays()) - {m}
      ensures nodes.Keys <= old(nodes.Keys) + (if alloc.Some? then {alloc.value} else {})
    {
      ghost var t := Tree(nodes, root);
      ghost var j;
      var n;
      n, j := AcceptingInner(start, s, i0);
      var es := InnerInsert(nodes[n].ents, s, m);
      if |es| == 2 * BALANCE && alloc.None? {
        return false;
      }
      var half := if |es| == 2 * BALANCE then alloc else None;
      InnerPutKeeps(t, shape, j, n, s, m, half);
      nodes := PutNode(nodes, n, es, half);
      shape := InnerShape(shape, j, half);
      return true;
    }

    /**
     Inserts a pair.  `a` and `b` are the data manager's answers to a request for a leaf and for a
     second node; without an answer the step that needs it fails and leaves its node as it was.
     */
    method Insert(k: Uuid, v: Uuid, a: Option<Uuid>, b: Option<Uuid>) returns (r: InsertResult)
      requires Valid() && k < INF
      requires a.Some? ==> a.value != NIL && a.value !in nodes
      requires b.Some? ==> b.value != NIL && b.value !in nodes && b != a
      modifies this
      ensures Valid()
      ensures r == LeafFailed ==> Content() == old(Content()) && a.None?
      ensures r == ParentFailed ==> b.None?
      ensures r != LeafFailed ==> multiset(Content()) == multiset(old(Content())) + multiset{Entry(k, v)}
      ensures r == Done ==> Strays() <= old(Strays())
      ensures Strays() <= old(Strays()) + if a.Some? then {a.value} else {}
    {
      var seen := root;
      var leaf, ok, split := root, false, None;
      ghost var i := 0;
      assert shape.leaves[..0] == [] && shape.inners[..0] == [];
      if nodes[root].leaf {
        ok, split := InsertAndSplitLeaf(root, k, v, a, 0);
      } else {
        var next;
        next, i := SearchNextFrom(root, k, 0);
        ok, split := InsertAndSplitLeaf(next.value, k, v, a, i);
      }
      if !ok {
        return LeafFailed;
      }
      if split.None? {
        return Done;
      }
      var m, s := split.value.0, split.value.1;
      if !nodes[seen].leaf {
        assert shape.inners[..0] == [];
        var linked := InsertAndSplitInner(seen, m, s, b, 0);
        return if linked then Done else ParentFailed;
      }
      if b.None? {
        return ParentFailed;
      }
      ReplaceRoot(m, s, b.value);
      return Done;
    }

    /** Puts a new root above the old one and the leaf that was split off it. */
    method ReplaceRoot(m: Uuid, s: Uuid, r: Uuid)
      requires Valid() && shape.inners == [] && Guides(Tree(nodes, root), shape, s, m) && r != NIL && r !in nodes
      modifies this
      ensures Valid() && root == r && Content() == old(Content()) && Strays() == old(Strays()) - {m}
    {
      RootKeeps(Tree(nodes, root), shape, m, s, r);
      RootLeads(Tree(nodes, root), shape, m, s, r);
      nodes := nodes[r := Node(false, [Entry(s, root), Entry(INF, m)], NIL)];
      root := r;
      shape := shape.(inners := [r]);
    }
  }

  lemma LeafPutKeeps(t: Tree, sh: Shape, j: nat, n: Uuid, k: Uuid, v: Uuid, half: Option<Uuid>)
    requires Inv(t, sh) && k < INF && StandsAt(t.nodes, sh.leaves, n, k, j) && Accepts(t.nodes[n], k)
    requires half.Some? ==> half.value != NIL && half.value !in t.nodes
    requires half.Some? <==> |LeafInsert(t.nodes[n].ents, k, v)| == 2 * BALANCE
    ensures var t', sh' := LeafTree(t, n, k, v, half), LeafShape(sh, j, half);
      && Inv(t', sh') && sh'.leaves[0] == sh.leaves[0]
      && multiset(Pairs(t', sh')) == multiset(Pairs(t, sh)) + multiset{Entry(k, v)}
      && Unled(t', sh') <= Unled(t, sh) + (if half.Some? then {half.value} else {})
      && (half.Some? ==> half.value in t'.nodes && t'.nodes[half.value].ents != []
                         && Guides(t', sh', t'.nodes[half.value].ents[0].key, half.value))
  {
    LeafKeeps(t, sh, j, k, v, half);
    LeafLeads(t, sh, j, k, v, half);
    LeafPairs(t, sh, j, k, v, half);
    if half.Some? {
      NewLeafGuides(t, sh, j, k, v, half.value);
    }
  }

  lemma InnerPutKeeps(t: Tree, sh: Shape, j: nat, n: Uuid, s: Uuid, m: Uuid, half: Option<Uuid>)
    requires Inv(t, sh) && Guides(t, sh, s, m) && StandsAt(t.nodes, sh.inners, n, s, j)
    requires Rank(t.nodes[n].ents, s) < |t.nodes[n].ents|
    requires half.Some? ==> half.value != NIL && half.value !in t.nodes
    requires half.Some? <==> |InnerInsert(t.nodes[n].ents, s, m)| == 2 * BALANCE
    ensures var t', sh' := InnerTree(t, n, s, m, half), InnerShape(sh, j, half);
      Inv(t', sh') && Pairs(t', sh') == Pairs(t, sh) && Unled(t', sh') == Unled(t, sh) - {m}
  {
    InnerKeeps(t, sh, j, s, m, half);
    InnerLeads(t, sh, j, s, m, half);
  }

  lemma SonsAppend(a: seq<Entry>, b: seq<Entry>)
    ensures Sons(a + b) == Sons(a) + Sons(b)
  {
  }

  /** Moving right with `k` at least as large as every key of the node. */
  lemma RightFenceAbove(t: Tree, sh: Shape, n: Uuid, k: Uuid, j: nat)
    requires Leveled(t, sh) && StandsAt(t.nodes, sh.inners, n, k, j)
    requires SearchNext(t.nodes[n], k).0.None? && t.nodes[n].sibling != NIL
    ensures StandsAt(t.nodes, sh.inners, t.nodes[n].sibling, k, j + 1)
  {
    FlatAt(t.nodes, sh.inners, j, j + 1);
    assert sh.inners[j + 1..j + 1] == [];
  }

  /** What is read comes on top of what was passed. */
  lemma ReadsAhead(t: Tree, sh: Shape, i: nat, l: Uuid, r: Uuid, passed: multiset<Entry>, got: seq<Entry>)
    requires Leveled(t, sh) && Sorted(Pairs(t, sh)) && i < |sh.leaves|
    requires passed + multiset(got) <= multiset(Before(t, sh, i))
    ensures var tmp := LeafRange(t.nodes[sh.leaves[i]], l, r).0;
      && passed + multiset(got + tmp) <= multiset(Before(t, sh, i + 1))
      && passed + multiset(got + tmp) <= multiset(Pairs(t, sh))
  {
    var es := t.nodes[sh.leaves[i]].ents;
    LeafParts(t, sh, i);
    SortedParts(Before(t, sh, i), es, From(t, sh, i + 1));
    RangeWithin(t.nodes[sh.leaves[i]], l, r);
    CutPairs(t, sh, i + 1);
    OnTop(Before(t, sh, i), es, From(t, sh, i + 1), LeafRange(t.nodes[sh.leaves[i]], l, r).0, passed, got);
  }

  lemma RangeWithin(n: Node, l: Uuid, r: Uuid)
    requires Sorted(n.ents)
    ensures multiset(LeafRange(n, l, r).0) <= multiset(n.ents)
  {
    RangeCounts(n.ents, l, r, false);
  }

  lemma OnTop(b: seq<Entry>, es: seq<Entry>, f: seq<Entry>, tmp: seq<Entry>, passed: multiset<Entry>, got: seq<Entry>)
    requires passed + multiset(got) <= multiset(b) && multiset(tmp) <= multiset(es)
    ensures passed + multiset(got + tmp) <= multiset(b + es) && passed + multiset(got + tmp) <= multiset(b + es + f)
  {
    assert multiset(got + tmp) == multiset(got) + multiset(tmp);
    assert multiset(b + es) == multiset(b) + multiset(es);
    assert multiset(b + es + f) == multiset(b + es) + multiset(f);
  }

  lemma ScanAnswers(t: Tree, sh: Shape, l: Uuid, r: Uuid, got: seq<Entry>, i0: nat)
    requires Leveled(t, sh) && i0 <= |sh.leaves|
    requires Scanned(t, sh, l, r, got, multiset(Pairs(t, sh)), !HasKey(Before(t, sh, i0), l))
    requires multiset(Before(t, sh, i0)) + multiset(got) <= multiset(Pairs(t, sh))
    ensures Answers(Pairs(t, sh), Before(t, sh, i0), got, l, r)
  {
    var all, passed := multiset(Pairs(t, sh)), Before(t, sh, i0);
    var exact := !HasKey(passed, l);
    assert forall e: Entry :: multiset(got)[e] <= all[e];
    assert forall e: Entry :: l < e.key <= r ==> Owed(e, l, r, exact);
    if exact {
      assert forall e: Entry :: l <= e.key <= r ==> Owed(e, l, r, exact);
    } else {
      var p :| 0 <= p < |passed| && passed[p].key == l;
      var e := passed[p];
      assert e in multiset(passed);
      assert multiset(got)[e] < all[e];
    }
  }

  lemma OnceIsNotBefore(t: Tree, sh: Shape, i: nat, k: Uuid)
    requires Leveled(t, sh) && i <= |sh.leaves| && AtMostOnce(Pairs(t, sh), k)
    requires HasKey(Before(t, sh, i), k) ==> HasKey(From(t, sh, i), k)
    ensures !HasKey(Before(t, sh, i), k)
  {
    CutPairs(t, sh, i);
    var b, f := Before(t, sh, i), From(t, sh, i);
    forall p, q | 0 <= p < |b| && 0 <= q < |f|
      ensures b[p].key != k || f[q].key != k
    {
      assert (b + f)[p] == b[p] && (b + f)[|b| + q] == f[q];
    }
  }
}
