/**
 The index tree: a B+ tree whose nodes carry a link to their right sibling.  Nodes are values here;
 `NodeBytes` proves that the byte-level operations compute these functions.
 */
module BLink {
  import opened Types

  /** Half of the number of keys at which a node is split. */
  const BALANCE: nat := 32

  datatype Entry = Entry(key: Uuid, son: Uuid)

  datatype Node = Node(leaf: bool, ents: seq<Entry>, sibling: Uuid)

  type Nodes = map<Uuid, Node>

  predicate Sorted(es: seq<Entry>) {
    forall i, j :: 0 <= i < j < |es| ==> es[i].key <= es[j].key
  }

  predicate AllLe(es: seq<Entry>, k: Uuid) {
    forall i :: 0 <= i < |es| ==> es[i].key <= k
  }

  /* ----- one node ----- */

  /** The number of leading keys below `k`. */
  function Rank(es: seq<Entry>, k: Uuid): (r: nat)
    ensures r <= |es| && forall i :: 0 <= i < r ==> es[i].key < k
    ensures r < |es| ==> es[r].key >= k
  {
    if es == [] || es[0].key >= k then 0 else 1 + Rank(es[1..], k)
  }

  /** The number of leading keys at most `k`. */
  function RankAbove(es: seq<Entry>, k: Uuid): (r: nat)
    ensures r <= |es| && forall i :: 0 <= i < r ==> es[i].key <= k
    ensures r < |es| ==> es[r].key > k
  {
    if es == [] || es[0].key > k then 0 else 1 + RankAbove(es[1..], k)
  }

  /** The son to follow for `k`, or the sibling to try when every key is too small. */
  function SearchNext(n: Node, k: Uuid): (Option<Uuid>, Uuid) {
    var i := RankAbove(n.ents, k);
    if i < |n.ents| then (Some(n.ents[i].son), NIL) else (None, n.sibling)
  }

  /** The entries of a leaf within the bounds, and the sibling if the leaf does not end the range. */
  function LeafRange(n: Node, l: Uuid, r: Uuid): (seq<Entry>, Uuid) {
    var i := Rank(n.ents, l);
    var j := i + RankAbove(n.ents[i..], r);
    (n.ents[i..j], if j == |n.ents| then n.sibling else NIL)
  }

  /** A node that has a sibling turns away a key above all of its own. */
  predicate Accepts(n: Node, k: Uuid) {
    Rank(n.ents, k) < |n.ents| || n.sibling == NIL
  }

  function Place(es: seq<Entry>, i: nat, e: Entry): seq<Entry>
    requires i <= |es|
  {
    es[..i] + [e] + es[i..]
  }

  function LeafInsert(es: seq<Entry>, k: Uuid, v: Uuid): seq<Entry> {
    Place(es, Rank(es, k), Entry(k, v))
  }

  /** A fence is cut in two: the old son up to `s`, the new son from there on. */
  function CutFence(f: seq<Entry>, g: nat, s: Uuid, m: Uuid): seq<Entry>
    requires g < |f|
  {
    f[..g] + [Entry(s, f[g].son), Entry(f[g].key, m)] + f[g + 1..]
  }

  /** The son in charge of `k` keeps the keys below it; the new son takes over up to the old fence. */
  function InnerInsert(es: seq<Entry>, k: Uuid, v: Uuid): seq<Entry>
    requires Rank(es, k) < |es|
  {
    CutFence(es, Rank(es, k), k, v)
  }

  /** The node `id` gets the entries `es`; with a `split` address the upper half moves there. */
  function PutNode(nodes: Nodes, id: Uuid, es: seq<Entry>, split: Option<Uuid>): Nodes
    requires id in nodes && (split.Some? ==> |es| >= BALANCE)
  {
    var n := nodes[id];
    match split
    case None => nodes[id := n.(ents := es)]
    case Some(m) => nodes[id := Node(n.leaf, es[..BALANCE], m)][m := Node(n.leaf, es[BALANCE..], n.sibling)]
  }

  function PutIds(ids: seq<Uuid>, j: nat, split: Option<Uuid>): seq<Uuid>
    requires j < |ids|
  {
    match split
    case None => ids
    case Some(m) => ids[..j + 1] + [m] + ids[j + 1..]
  }

  /** Where the node at index `i` stands after the node at index `j` was split. */
  function Moved(i: nat, j: nat, split: Option<Uuid>): nat {
    if split.Some? && i > j then i + 1 else i
  }

  /* ----- one level: a chain of nodes from left to right ----- */

  /** All entries of a chain, left to right. */
  ghost function Flat(nodes: Nodes, ids: seq<Uuid>): seq<Entry>
    requires forall i :: 0 <= i < |ids| ==> ids[i] in nodes
  {
    if ids == [] then [] else nodes[ids[0]].ents + Flat(nodes, ids[1..])
  }

  ghost predicate Chain(nodes: Nodes, ids: seq<Uuid>, leaf: bool) {
    && (forall i :: 0 <= i < |ids| ==> ids[i] in nodes && ids[i] != NIL && nodes[ids[i]].leaf == leaf)
    && (forall i {:trigger nodes[ids[i]].sibling} :: 0 <= i < |ids| ==>
          nodes[ids[i]].sibling == (if i + 1 < |ids| then ids[i + 1] else NIL))
    && (forall i, j :: 0 <= i < j < |ids| ==> ids[i] != ids[j])
  }

  lemma {:induction false} FlatAppend(nodes: Nodes, a: seq<Uuid>, b: seq<Uuid>)
    requires forall i :: 0 <= i < |a| ==> a[i] in nodes
    requires forall i :: 0 <= i < |b| ==> b[i] in nodes
    ensures Flat(nodes, a + b) == Flat(nodes, a) + Flat(nodes, b)
  {
    if a == [] {
      assert a + b == b;
    } else {
      assert (a + b)[1..] == a[1..] + b;
      FlatAppend(nodes, a[1..], b);
    }
  }

  lemma {:induction false} FlatSame(nodes: Nodes, nodes': Nodes, ids: seq<Uuid>)
    requires forall i :: 0 <= i < |ids| ==> ids[i] in nodes && ids[i] in nodes' && nodes'[ids[i]].ents == nodes[ids[i]].ents
    ensures Flat(nodes', ids) == Flat(nodes, ids)
  {
    if ids != [] {
      FlatSame(nodes, nodes', ids[1..]);
    }
  }

  /** Prefix, node, suffix. */
  lemma FlatAt(nodes: Nodes, ids: seq<Uuid>, i: nat, j: nat)
    requires i < j <= |ids|
    requires forall i :: 0 <= i < |ids| ==> ids[i] in nodes
    ensures Flat(nodes, ids[..j]) == Flat(nodes, ids[..i]) + nodes[ids[i]].ents + Flat(nodes, ids[i + 1..j])
  {
    assert ids[..j] == ids[..i] + ids[i..j];
    FlatAppend(nodes, ids[..i], ids[i..j]);
    assert ids[i..j][1..] == ids[i + 1..j];
  }

  lemma FlatCut(nodes: Nodes, ids: seq<Uuid>, i: nat)
    requires i <= |ids|
    requires forall i :: 0 <= i < |ids| ==> ids[i] in nodes
    ensures Flat(nodes, ids) == Flat(nodes, ids[..i]) + Flat(nodes, ids[i..])
  {
    assert ids == ids[..i] + ids[i..];
    FlatAppend(nodes, ids[..i], ids[i..]);
  }

  /** A node is rewritten, and split on request, within its chain. */
  ghost predicate Puts(nodes: Nodes, ids: seq<Uuid>, leaf: bool, j: nat, es: seq<Entry>, split: Option<Uuid>) {
    && Chain(nodes, ids, leaf) && j < |ids|
    && (split.Some? ==> |es| >= BALANCE && split.value != NIL && split.value !in nodes)
  }

  lemma PutChain(nodes: Nodes, ids: seq<Uuid>, leaf: bool, j: nat, es: seq<Entry>, split: Option<Uuid>)
    requires Puts(nodes, ids, leaf, j, es, split)
    ensures Chain(PutNode(nodes, ids[j], es, split), PutIds(ids, j, split), leaf)
  {
    if split.Some? {
      SplitChain(nodes, ids, leaf, j, es, split.value);
    } else {
      var nodes' := PutNode(nodes, ids[j], es, split);
      assert forall i :: 0 <= i < |ids| ==>
        nodes'[ids[i]].sibling == nodes[ids[i]].sibling && nodes'[ids[i]].leaf == nodes[ids[i]].leaf;
    }
  }

  /** The nodes and the chain after a split at position `j`. */
  ghost predicate SplitAt(nodes: Nodes, ids: seq<Uuid>, j: nat, m: Uuid, nodes': Nodes, ids': seq<Uuid>) {
    && |ids'| == |ids| + 1 && j < |ids| && ids'[j] == ids[j] && ids'[j + 1] == m
    && (forall i :: 0 <= i <= j ==> ids'[i] == ids[i])
    && (forall i :: j + 1 < i < |ids'| ==> ids'[i] == ids[i - 1])
    && (forall i :: 0 <= i < |ids| ==> ids[i] in nodes && ids[i] in nodes' && ids[i] != m)
    && (forall i :: 0 <= i < |ids| && i != j ==> nodes'[ids[i]] == nodes[ids[i]])
    && m in nodes' && m != NIL && nodes'[ids[j]].sibling == m && nodes'[m].sibling == nodes[ids[j]].sibling
    && nodes'[ids[j]].leaf == nodes[ids[j]].leaf && nodes'[m].leaf == nodes[ids[j]].leaf
  }

  lemma SplitIsAt(nodes: Nodes, ids: seq<Uuid>, leaf: bool, j: nat, es: seq<Entry>, m: Uuid)
    requires Puts(nodes, ids, leaf, j, es, Some(m))
    ensures SplitAt(nodes, ids, j, m, PutNode(nodes, ids[j], es, Some(m)), PutIds(ids, j, Some(m)))
  {
    assert forall i :: 0 <= i < |ids| && i != j ==> ids[i] != ids[j];
  }

  lemma SplitLink(nodes: Nodes, ids: seq<Uuid>, leaf: bool, j: nat, m: Uuid, nodes': Nodes, ids': seq<Uuid>, i: nat)
    requires Chain(nodes, ids, leaf) && SplitAt(nodes, ids, j, m, nodes', ids') && i < |ids'|
    ensures ids'[i] in nodes' && ids'[i] != NIL && nodes'[ids'[i]].leaf == leaf
    ensures nodes'[ids'[i]].sibling == (if i + 1 < |ids'| then ids'[i + 1] else NIL)
  {
    if i < j {
      assert nodes[ids[i]].sibling == ids[i + 1];
    } else if i == j + 1 {
      assert nodes[ids[j]].sibling == if j + 1 < |ids| then ids[j + 1] else NIL;
    } else if i > j + 1 {
      assert nodes[ids[i - 1]].sibling == if i < |ids| then ids[i] else NIL;
    }
  }

  lemma SplitDistinct(nodes: Nodes, ids: seq<Uuid>, leaf: bool, j: nat, m: Uuid, nodes': Nodes, ids': seq<Uuid>)
    requires Chain(nodes, ids, leaf) && SplitAt(nodes, ids, j, m, nodes', ids')
    ensures forall i, p :: 0 <= i < p < |ids'| ==> ids'[i] != ids'[p]
  {
  }

  lemma SplitChain(nodes: Nodes, ids: seq<Uuid>, leaf: bool, j: nat, es: seq<Entry>, m: Uuid)
    requires Puts(nodes, ids, leaf, j, es, Some(m))
    ensures Chain(PutNode(nodes, ids[j], es, Some(m)), PutIds(ids, j, Some(m)), leaf)
  {
    var nodes', ids' := PutNode(nodes, ids[j], es, Some(m)), PutIds(ids, j, Some(m));
    SplitIsAt(nodes, ids, leaf, j, es, m);
    forall i | 0 <= i < |ids'|
      ensures ids'[i] in nodes' && ids'[i] != NIL && nodes'[ids'[i]].leaf == leaf
      ensures nodes'[ids'[i]].sibling == (if i + 1 < |ids'| then ids'[i + 1] else NIL)
    {
      SplitLink(nodes, ids, leaf, j, m, nodes', ids', i);
    }
    SplitDistinct(nodes, ids, leaf, j, m, nodes', ids');
  }

  /** Another chain does not notice. */
  lemma PutElsewhere(nodes: Nodes, id: Uuid, es: seq<Entry>, split: Option<Uuid>, ids: seq<Uuid>, leaf: bool)
    requires id in nodes && (split.Some? ==> |es| >= BALANCE && split.value !in nodes)
    requires Chain(nodes, ids, leaf) && id !in ids
    ensures Chain(PutNode(nodes, id, es, split), ids, leaf)
    ensures forall i :: 0 <= i <= |ids| ==> Flat(PutNode(nodes, id, es, split), ids[..i]) == Flat(nodes, ids[..i])
    ensures Flat(PutNode(nodes, id, es, split), ids) == Flat(nodes, ids)
  {
    var nodes' := PutNode(nodes, id, es, split);
    forall i | 0 <= i < |ids|
      ensures ids[i] in nodes' && nodes'[ids[i]] == nodes[ids[i]]
    {
      assert ids[i] != id;
    }
    forall i | 0 <= i <= |ids|
      ensures Flat(nodes', ids[..i]) == Flat(nodes, ids[..i])
    {
      FlatSame(nodes, nodes', ids[..i]);
    }
    FlatSame(nodes, nodes', ids);
  }

  /** The entries before the node at index `i` when node `j` gets the entries `es`. */
  ghost function Rewritten(nodes: Nodes, ids: seq<Uuid>, j: nat, es: seq<Entry>, i: nat): seq<Entry>
    requires j < |ids| && i <= |ids| && forall p :: 0 <= p < |ids| ==> ids[p] in nodes
  {
    if i <= j then Flat(nodes, ids[..i]) else Flat(nodes, ids[..j]) + es + Flat(nodes, ids[j + 1..i])
  }

  /** What stands before the node that was at index `i`, after the rewrite of node `j`. */
  lemma PutBefore(nodes: Nodes, ids: seq<Uuid>, leaf: bool, j: nat, es: seq<Entry>, split: Option<Uuid>, i: nat)
    requires Puts(nodes, ids, leaf, j, es, split) && i <= |ids|
    ensures Chain(PutNode(nodes, ids[j], es, split), PutIds(ids, j, split), leaf)
    ensures var ids', i' := PutIds(ids, j, split), Moved(i, j, split);
      i' <= |ids'| && (i < |ids| ==> i' < |ids'| && ids'[i'] == ids[i]) && (i == |ids| ==> i' == |ids'|)
    ensures Flat(PutNode(nodes, ids[j], es, split), PutIds(ids, j, split)[..Moved(i, j, split)]) ==
            Rewritten(nodes, ids, j, es, i)
  {
    PutChain(nodes, ids, leaf, j, es, split);
    MovedIs(ids, j, split, i);
    if i <= j {
      PutBeforeFront(nodes, ids, leaf, j, es, split, i);
    } else {
      match split {
        case None => PutBeforePlain(nodes, ids, leaf, j, es, i);
        case Some(m) => PutBeforeSplit(nodes, ids, leaf, j, es, m, i);
      }
    }
  }

  lemma MovedIs(ids: seq<Uuid>, j: nat, split: Option<Uuid>, i: nat)
    requires j < |ids| && i <= |ids|
    ensures var ids', i' := PutIds(ids, j, split), Moved(i, j, split);
      i' <= |ids'| && (i < |ids| ==> i' < |ids'| && ids'[i'] == ids[i]) && (i == |ids| ==> i' == |ids'|)
  {
  }

  lemma PutBeforeFront(nodes: Nodes, ids: seq<Uuid>, leaf: bool, j: nat, es: seq<Entry>, split: Option<Uuid>, i: nat)
    requires Puts(nodes, ids, leaf, j, es, split) && i <= j
    ensures PutIds(ids, j, split)[..i] == ids[..i]
    ensures (forall p :: 0 <= p < i ==> ids[p] in PutNode(nodes, ids[j], es, split))
    ensures Flat(PutNode(nodes, ids[j], es, split), ids[..i]) == Flat(nodes, ids[..i])
  {
    FlatSame(nodes, PutNode(nodes, ids[j], es, split), ids[..i]);
  }

  lemma PutBeforePlain(nodes: Nodes, ids: seq<Uuid>, leaf: bool, j: nat, es: seq<Entry>, i: nat)
    requires Puts(nodes, ids, leaf, j, es, None) && j < i <= |ids|
    ensures Flat(PutNode(nodes, ids[j], es, None), ids[..i]) == Rewritten(nodes, ids, j, es, i)
  {
    var nodes' := PutNode(nodes, ids[j], es, None);
    FlatSame(nodes, nodes', ids[..j]);
    FlatSame(nodes, nodes', ids[j + 1..i]);
    FlatAt(nodes', ids, j, i);
  }

  lemma PutBeforeSplit(nodes: Nodes, ids: seq<Uuid>, leaf: bool, j: nat, es: seq<Entry>, m: Uuid, i: nat)
    requires Puts(nodes, ids, leaf, j, es, Some(m)) && j < i <= |ids|
    requires Chain(PutNode(nodes, ids[j], es, Some(m)), PutIds(ids, j, Some(m)), leaf)
    ensures Flat(PutNode(nodes, ids[j], es, Some(m)), PutIds(ids, j, Some(m))[..i + 1]) ==
            Rewritten(nodes, ids, j, es, i)
  {
    var nodes', ids' := PutNode(nodes, ids[j], es, Some(m)), PutIds(ids, j, Some(m));
    SplitElsewhere(nodes, ids, leaf, j, es, m, i);
    Assemble(nodes', ids', ids, j, es, m, i);
  }

  lemma Assemble(nodes': Nodes, ids': seq<Uuid>, ids: seq<Uuid>, j: nat, es: seq<Entry>, m: Uuid, i: nat)
    requires j < i <= |ids| && ids' == PutIds(ids, j, Some(m)) && |es| >= BALANCE
    requires forall p :: 0 <= p < |ids'| ==> ids'[p] in nodes'
    requires forall p :: 0 <= p < |ids| ==> ids[p] in nodes'
    requires m in nodes' && nodes'[m].ents == es[BALANCE..] && nodes'[ids[j]].ents == es[..BALANCE]
    ensures Flat(nodes', ids'[..i + 1]) == Flat(nodes', ids[..j]) + es + Flat(nodes', ids[j + 1..i])
  {
    assert ids'[..j] == ids[..j] && ids'[j] == ids[j];
    FlatAt(nodes', ids', j, i + 1);
    PutSuffix(nodes', ids', ids, j, i, es, m);
    Regroup(Flat(nodes', ids[..j]), nodes'[ids[j]].ents, Flat(nodes', ids'[j + 1..i + 1]),
            es, Flat(nodes', ids[j + 1..i]));
  }

  lemma Regroup(a: seq<Entry>, b: seq<Entry>, c: seq<Entry>, d: seq<Entry>, e: seq<Entry>)
    requires b + c == d + e
    ensures a + b + c == a + d + e
  {
    assert a + b + c == a + (b + c);
    assert a + d + e == a + (d + e);
  }

  lemma SplitElsewhere(nodes: Nodes, ids: seq<Uuid>, leaf: bool, j: nat, es: seq<Entry>, m: Uuid, i: nat)
    requires Puts(nodes, ids, leaf, j, es, Some(m)) && j < i <= |ids|
    ensures var nodes' := PutNode(nodes, ids[j], es, Some(m));
      && (forall p :: 0 <= p < |ids| ==> ids[p] in nodes')
      && m in nodes' && nodes'[m].ents == es[BALANCE..]
      && nodes'[ids[j]].ents == es[..BALANCE]
      && Flat(nodes', ids[..j]) == Flat(nodes, ids[..j])
      && Flat(nodes', ids[j + 1..i]) == Flat(nodes, ids[j + 1..i])
  {
    var nodes' := PutNode(nodes, ids[j], es, Some(m));
    assert forall p :: 0 <= p < |ids| ==> ids[p] != m;
    assert forall p :: 0 <= p < |ids| && p != j ==> nodes'[ids[p]] == nodes[ids[p]];
    FlatSame(nodes, nodes', ids[..j]);
    FlatSame(nodes, nodes', ids[j + 1..i]);
  }

  lemma PutSuffix(nodes': Nodes, ids': seq<Uuid>, ids: seq<Uuid>, j: nat, i: nat, es: seq<Entry>, m: Uuid)
    requires j < i <= |ids| && ids' == PutIds(ids, j, Some(m)) && |es| >= BALANCE
    requires forall p :: 0 <= p < |ids'| ==> ids'[p] in nodes'
    requires forall p :: j < p < i ==> ids[p] in nodes'
    requires m in nodes' && nodes'[m].ents == es[BALANCE..]
    requires ids[j] in nodes' && nodes'[ids[j]].ents == es[..BALANCE]
    ensures nodes'[ids[j]].ents + Flat(nodes', ids'[j + 1..i + 1]) == es + Flat(nodes', ids[j + 1..i])
  {
    assert ids'[j] == ids[j];
    assert ids'[j + 1..i + 1] == [m] + ids[j + 1..i];
    FlatAppend(nodes', [m], ids[j + 1..i]);
    assert Flat(nodes', [m]) == nodes'[m].ents + Flat(nodes', []);
    assert es == es[..BALANCE] + es[BALANCE..];
  }

  /** What stands before the new node. */
  lemma PutBeforeNew(nodes: Nodes, ids: seq<Uuid>, leaf: bool, j: nat, es: seq<Entry>, m: Uuid)
    requires Puts(nodes, ids, leaf, j, es, Some(m))
    ensures var nodes', ids' := PutNode(nodes, ids[j], es, Some(m)), PutIds(ids, j, Some(m));
      && Chain(nodes', ids', leaf) && j + 1 < |ids'| && ids'[j + 1] == m
      && Flat(nodes', ids'[..j + 1]) == Flat(nodes, ids[..j]) + es[..BALANCE]
  {
    PutChain(nodes, ids, leaf, j, es, Some(m));
    var nodes', ids' := PutNode(nodes, ids[j], es, Some(m)), PutIds(ids, j, Some(m));
    FlatAt(nodes', ids', j, j + 1);
    assert ids'[j + 1..j + 1] == [];
    assert ids'[..j] == ids[..j];
    FlatSame(nodes, nodes', ids[..j]);
    assert Flat(nodes', []) == [];
  }

  /** Nodes hold fewer than 64 keys, at least `lo`, and at least 32 once the level has been split. */
  ghost predicate Sized(nodes: Nodes, ids: seq<Uuid>, lo: nat) {
    forall i :: 0 <= i < |ids| ==>
      && ids[i] in nodes && lo <= |nodes[ids[i]].ents| < 2 * BALANCE
      && (|ids| > 1 ==> BALANCE <= |nodes[ids[i]].ents|)
  }

  /** One more entry, and a split exactly when the node is full, keep the sizes. */
  lemma PutSized(nodes: Nodes, ids: seq<Uuid>, leaf: bool, j: nat, es: seq<Entry>, split: Option<Uuid>, lo: nat)
    requires Puts(nodes, ids, leaf, j, es, split) && Sized(nodes, ids, lo) && lo <= BALANCE
    requires |es| == |nodes[ids[j]].ents| + 1 && (split.Some? <==> |es| == 2 * BALANCE)
    ensures Sized(PutNode(nodes, ids[j], es, split), PutIds(ids, j, split), lo)
  {
    if split.Some? {
      SplitSized(nodes, ids, leaf, j, es, split.value, lo);
    } else {
      var nodes' := PutNode(nodes, ids[j], es, split);
      assert forall i :: 0 <= i < |ids| && i != j ==> ids[i] != ids[j] && nodes'[ids[i]] == nodes[ids[i]];
    }
  }

  lemma SplitSized(nodes: Nodes, ids: seq<Uuid>, leaf: bool, j: nat, es: seq<Entry>, m: Uuid, lo: nat)
    requires Puts(nodes, ids, leaf, j, es, Some(m)) && Sized(nodes, ids, lo) && lo <= BALANCE && |es| == 2 * BALANCE
    requires |es| == |nodes[ids[j]].ents| + 1
    ensures Sized(PutNode(nodes, ids[j], es, Some(m)), PutIds(ids, j, Some(m)), lo)
  {
    var nodes', ids' := PutNode(nodes, ids[j], es, Some(m)), PutIds(ids, j, Some(m));
    SplitIsAt(nodes, ids, leaf, j, es, m);
    assert |nodes'[m].ents| == BALANCE && |nodes'[ids[j]].ents| == BALANCE;
    SplitSizes(nodes, ids, j, m, nodes', ids', lo);
  }

  lemma SplitSizes(nodes: Nodes, ids: seq<Uuid>, j: nat, m: Uuid, nodes': Nodes, ids': seq<Uuid>, lo: nat)
    requires SplitAt(nodes, ids, j, m, nodes', ids') && Sized(nodes, ids, lo) && lo <= BALANCE
    requires |nodes'[m].ents| == BALANCE && |nodes'[ids[j]].ents| == BALANCE && |nodes[ids[j]].ents| + 1 == 2 * BALANCE
    ensures Sized(nodes', ids', lo)
  {
    forall i | 0 <= i < |ids'|
      ensures ids'[i] in nodes' && lo <= |nodes'[ids'[i]].ents| < 2 * BALANCE && BALANCE <= |nodes'[ids'[i]].ents|
    {
      if i > j + 1 {
        assert ids'[i] == ids[i - 1];
      } else if i < j {
        assert ids'[i] == ids[i];
      }
    }
  }
}
