/**
 What becomes of the walkers in the tree: which pairs are stored, whether walks come to an end, and
 where the separators of split leaves go.
 */
module BLinkFates {
  import opened Types
  import opened BLink
  import opened BLinkTree
  import opened BLinkRuns

  /* ----- what the inserters store ----- */

  /** The pair that walker `id` was last sent out with. */
  function Asked(ops: seq<Op>, id: nat): Option<Entry>
    decreases |ops|
  {
    if ops == [] then None
    else
      var op := ops[|ops| - 1];
      if op.StartInsert? && op.id == id then Some(Entry(op.k, op.v)) else Asked(ops[..|ops| - 1], id)
  }

  /** With this step an insertion is over with the leaf. */
  ghost predicate Ends(m: Machine, op: Op)
    requires Enabled(m, op) && Leveled(m.t, m.sh)
  {
    op.Move? && At(m, op.id).Inserting? && !At(Step(m, op), op.id).Inserting?
  }

  /** The leaf is full and the data manager has no address for another one. */
  predicate NoAddress(m: Machine, op: Op)
    requires Enabled(m, op) && op.Move? && At(m, op.id).Inserting?
  {
    op.alloc.None? && |m.t.nodes[At(m, op.id).node].ents| == 2 * BALANCE - 1
  }

  /** The pairs that walkers were sent out with whose insertions have ended and found an address. */
  ghost function Stored(leaf: Uuid, ops: seq<Op>): multiset<Entry>
    requires Run(leaf, ops).Some?
    decreases |ops|
  {
    if ops == [] then multiset{}
    else
      var n := |ops| - 1;
      var m := Run(leaf, ops[..n]).value;
      var asked := Asked(ops[..n], ops[n].id);
      Stored(leaf, ops[..n]) +
      if Ends(m, ops[n]) && !NoAddress(m, ops[n]) && asked.Some? then multiset{asked.value} else multiset{}
  }

  /** Every inserter carries the pair it was sent out with. */
  ghost predicate Carried(m: Machine, ops: seq<Op>) {
    forall id :: At(m, id).Inserting? ==> Asked(ops, id) == Some(Entry(At(m, id).k, At(m, id).v))
  }

  lemma AskedNext(ops: seq<Op>, op: Op, id: nat)
    ensures Asked(ops + [op], id) == if op.StartInsert? && op.id == id then Some(Entry(op.k, op.v)) else Asked(ops, id)
  {
    assert (ops + [op])[..|ops|] == ops;
  }

  lemma CarriedStep(m: Machine, ops: seq<Op>, op: Op)
    requires Carried(m, ops) && Enabled(m, op) && Leveled(m.t, m.sh)
    ensures Carried(Step(m, op), ops + [op])
  {
    var m' := Step(m, op);
    forall id | At(m', id).Inserting?
      ensures Asked(ops + [op], id) == Some(Entry(At(m', id).k, At(m', id).v))
    {
      AskedNext(ops, op, id);
      if op.id != id {
        OthersStay(m, op, id);
      } else if !op.StartInsert? {
        StillInserting(m, op);
      }
    }
  }

  /** Whoever is still inserting after its own step was inserting before, and with the same pair. */
  lemma StillInserting(m: Machine, op: Op)
    requires Enabled(m, op) && Leveled(m.t, m.sh) && !op.StartInsert? && At(Step(m, op), op.id).Inserting?
    ensures var w, w' := At(m, op.id), At(Step(m, op), op.id); w.Inserting? && w'.k == w.k && w'.v == w.v
  {
  }

  /** A step adds the pair of an insertion that ends with an address, and nothing else. */
  lemma StepAdds(m: Machine, op: Op)
    requires Enabled(m, op) && Leveled(m.t, m.sh)
    ensures var w := At(m, op.id);
      Step(m, op).added == m.added +
        if Ends(m, op) && !NoAddress(m, op) then multiset{Entry(w.k, w.v)} else multiset{}
  {
    if op.Move? && At(m, op.id).Inserting? {
      var n := m.t.nodes[At(m, op.id).node];
      assert |LeafInsert(n.ents, At(m, op.id).k, At(m, op.id).v)| == |n.ents| + 1;
    }
  }

  lemma {:induction false} StoredOverRun(leaf: Uuid, ops: seq<Op>)
    requires leaf != NIL && Run(leaf, ops).Some?
    ensures Carried(Run(leaf, ops).value, ops) && Run(leaf, ops).value.added == Stored(leaf, ops)
    decreases |ops|
  {
    if ops != [] {
      var n := |ops| - 1;
      var m := RunBack(leaf, ops);
      assert ops[..n] + [ops[n]] == ops;
      StoredOverRun(leaf, ops[..n]);
      CarriedStep(m, ops[..n], ops[n]);
      StepAdds(m, ops[n]);
    }
  }

  /**
   After any interleaving the leaf chain holds exactly the pairs that walkers were sent out with and
   whose insertions have ended, once for each, but for those that found no address for a new leaf.
   */
  lemma InsertsAreStored(leaf: Uuid, ops: seq<Op>)
    requires leaf != NIL && Run(leaf, ops).Some?
    ensures var m := Run(leaf, ops).value;
      Leveled(m.t, m.sh) && multiset(Pairs(m.t, m.sh)) == Stored(leaf, ops)
  {
    RunInv(leaf, ops);
    StoredOverRun(leaf, ops);
  }

  /** An insertion ends once: until its walker is sent out again it does not insert. */
  lemma {:induction false} InsertionEndsOnce(leaf: Uuid, ops: seq<Op>, e: nat, m0: Machine, id: nat)
    requires leaf != NIL && Run(leaf, ops).Some? && e <= |ops|
    requires Run(leaf, ops[..e]) == Some(m0) && !At(m0, id).Inserting?
    requires forall j :: e <= j < |ops| && ops[j].id == id ==> !ops[j].StartInsert?
    ensures !At(Run(leaf, ops).value, id).Inserting?
    decreases |ops|
  {
    if e == |ops| {
      assert ops[..e] == ops;
    } else {
      var prev := ops[..|ops| - 1];
      var m := RunBack(leaf, ops);
      assert prev[..e] == ops[..e];
      InsertionEndsOnce(leaf, prev, e, m0, id);
      StaysDone(m, ops[|ops| - 1], id);
    }
  }

  lemma StaysDone(m: Machine, op: Op, id: nat)
    requires Enabled(m, op) && Leveled(m.t, m.sh) && !At(m, id).Inserting? && (op.id == id ==> !op.StartInsert?)
    ensures !At(Step(m, op), id).Inserting?
  {
    if op.id != id {
      OthersStay(m, op, id);
    }
  }

  /* ----- walkers get on ----- */

  /** How far a walker at node `n` may still have to go: down, and to the right. */
  function Ahead(m: Machine, n: Uuid): nat {
    if n in m.sh.leaves then |m.sh.leaves| - IndexOf(m.sh.leaves, n)
    else if n in m.sh.inners then |m.sh.leaves| + |m.sh.inners| - IndexOf(m.sh.inners, n)
    else 0
  }

  /** On the walk at a node, and what kind of walk. */
  function Walk(w: Walker): Option<(int, Uuid)> {
    match w
    case Inserting(_, _, _, node) => Some((0, node))
    case Linking(_, _, node) => Some((1, node))
    case Seeking(_, _, node, _) => Some((2, node))
    case Scanning(_, _, node, _, _) => Some((3, node))
    case _ => None
  }

  lemma AheadIs(m: Machine, n: Uuid, i: nat, leaf: bool)
    requires Leveled(m.t, m.sh)
    requires if leaf then i < |m.sh.leaves| && m.sh.leaves[i] == n else i < |m.sh.inners| && m.sh.inners[i] == n
    ensures Ahead(m, n) == if leaf then |m.sh.leaves| - i else |m.sh.leaves| + |m.sh.inners| - i
  {
    if leaf {
      IndexUnique(m.sh.leaves, n, i);
    } else {
      IndexUnique(m.sh.inners, n, i);
      assert n !in m.sh.leaves;
    }
  }

  /** From an inner node a walker for `k` gets to a leaf or to the next inner node. */
  lemma DescendGetsOn(m: Machine, n: Uuid, k: Uuid, j: nat)
    requires Inv(m.t, m.sh) && k < INF && n in m.t.nodes && !m.t.nodes[n].leaf && StandsAt(m.t.nodes, m.sh.inners, n, k, j)
    ensures var (next, sibling) := SearchNext(m.t.nodes[n], k);
      Ahead(m, if next.Some? then next.value else sibling) < Ahead(m, n)
  {
    AheadIs(m, n, j, false);
    if SearchNext(m.t.nodes[n], k).0.Some? {
      var i := DescendInner(m.t, m.sh, n, k, j);
      AheadIs(m, SearchNext(m.t.nodes[n], k).0.value, i, true);
    } else {
      RightInner(m.t, m.sh, n, k, j);
      AheadIs(m, m.t.nodes[n].sibling, j + 1, false);
    }
  }

  lemma InserterGetsOn(m: Machine, id: nat, alloc: Option<Uuid>)
    requires MInv(m) && Enabled(m, Move(id, alloc)) && At(m, id).Inserting?
    requires At(InsertStep(m, id, alloc), id).Inserting?
    ensures InsertStep(m, id, alloc).t == m.t && InsertStep(m, id, alloc).sh == m.sh
    ensures Ahead(m, At(InsertStep(m, id, alloc), id).node) < Ahead(m, At(m, id).node)
  {
    var w := At(m, id);
    var j := StandsWhere(m.t, m.sh, w.node, w.k);
    if m.t.nodes[w.node].leaf {
      RightLeaf(m.t, m.sh, w.node, w.k, j);
      AheadIs(m, w.node, j, true);
      AheadIs(m, m.t.nodes[w.node].sibling, j + 1, true);
    } else {
      DescendGetsOn(m, w.node, w.k, j);
    }
  }

  lemma LinkerGetsOn(m: Machine, id: nat, alloc: Option<Uuid>)
    requires MInv(m) && Enabled(m, Move(id, alloc)) && At(m, id).Linking?
    requires At(LinkStep(m, id, alloc), id).Linking?
    ensures LinkStep(m, id, alloc).t == m.t && LinkStep(m, id, alloc).sh == m.sh
    ensures Ahead(m, At(LinkStep(m, id, alloc), id).node) < Ahead(m, At(m, id).node)
  {
    var w := At(m, id);
    var j: nat :| StandsAt(m.t.nodes, m.sh.inners, w.node, w.s, j);
    RightFence(m.t, m.sh, w.node, w.s, j);
    AheadIs(m, w.node, j, false);
    AheadIs(m, m.t.nodes[w.node].sibling, j + 1, false);
  }

  predicate ScanMoved(m: Machine, w: Walker, w': Walker) {
    if w.Seeking? then w'.Scanning? || (w'.Seeking? && Ahead(m, w'.node) < Ahead(m, w.node))
    else w'.Found? || (w.Scanning? && w'.Scanning? && Ahead(m, w'.node) < Ahead(m, w.node))
  }

  lemma ScanGetsOn(m: Machine, id: nat, alloc: Option<Uuid>)
    requires MInv(m) && Enabled(m, Move(id, alloc)) && (At(m, id).Seeking? || At(m, id).Scanning?)
    ensures ScanStep(m, id, alloc).t == m.t && ScanStep(m, id, alloc).sh == m.sh
    ensures ScanMoved(m, At(m, id), At(ScanStep(m, id, alloc), id))
  {
    var w := At(m, id);
    if w.Seeking? {
      var j := SeeksWhere(m.t, m.sh, w.node, w.l, w.begun);
      if !m.t.nodes[w.node].leaf {
        DescendGetsOn(m, w.node, w.l, j);
      }
    } else {
      var exact := Once(m.t, m.sh, w.begun, w.l);
      var i: nat :| ScansAt(m.t, m.sh, w.node, w.l, w.r, w.got, w.begun, i, exact);
      AheadIs(m, w.node, i, true);
      if LeafRange(m.t.nodes[w.node], w.l, w.r).1 != NIL {
        ScanMoves(m.t, m.sh, w.node, w.l, w.r, w.got, w.begun, i, exact);
        AheadIs(m, LeafRange(m.t.nodes[w.node], w.l, w.r).1, i + 1, true);
      }
    }
  }

  /** The walk is over, or has come to its next stage, or there are fewer nodes ahead in an unchanged tree. */
  predicate Nearer(m: Machine, m': Machine, id: nat) {
    var w, w' := Walk(At(m, id)), Walk(At(m', id));
    w.Some? && w'.Some? && w'.value.0 <= w.value.0 ==>
      w'.value.0 == w.value.0 && m'.t == m.t && m'.sh == m.sh && Ahead(m, w'.value.1) < Ahead(m, w.value.1)
  }

  lemma InsertNearer(m: Machine, id: nat, alloc: Option<Uuid>)
    requires MInv(m) && Enabled(m, Move(id, alloc)) && At(m, id).Inserting?
    ensures Nearer(m, InsertStep(m, id, alloc), id)
  {
    if At(InsertStep(m, id, alloc), id).Inserting? {
      InserterGetsOn(m, id, alloc);
    }
  }

  lemma LinkNearer(m: Machine, id: nat, alloc: Option<Uuid>)
    requires MInv(m) && Enabled(m, Move(id, alloc)) && At(m, id).Linking?
    ensures Nearer(m, LinkStep(m, id, alloc), id)
  {
    if At(LinkStep(m, id, alloc), id).Linking? {
      LinkerGetsOn(m, id, alloc);
    }
  }

  lemma ScanNearer(m: Machine, id: nat, alloc: Option<Uuid>)
    requires MInv(m) && Enabled(m, Move(id, alloc)) && (At(m, id).Seeking? || At(m, id).Scanning?)
    ensures Nearer(m, ScanStep(m, id, alloc), id)
  {
    ScanGetsOn(m, id, alloc);
    ScansNearer(m, ScanStep(m, id, alloc), id);
  }

  lemma ScansNearer(m: Machine, m': Machine, id: nat)
    requires m'.t == m.t && m'.sh == m.sh && (At(m, id).Seeking? || At(m, id).Scanning?)
    requires ScanMoved(m, At(m, id), At(m', id))
    ensures Nearer(m, m', id)
  {
  }

  lemma MoveIs(m: Machine, id: nat, alloc: Option<Uuid>)
    requires Enabled(m, Move(id, alloc)) && Leveled(m.t, m.sh)
    ensures At(m, id).Inserting? ==> Step(m, Move(id, alloc)) == InsertStep(m, id, alloc)
    ensures At(m, id).Linking? ==> Step(m, Move(id, alloc)) == LinkStep(m, id, alloc)
    ensures At(m, id).Seeking? || At(m, id).Scanning? ==> Step(m, Move(id, alloc)) == ScanStep(m, id, alloc)
  {
  }

  /**
   Every step of its own takes a walker nearer to the end of its walk, however the tree has grown in
   between: an inserter to a leaf that takes the pair, a separator to its node, a scan to its last leaf.
   */
  lemma WalkersGetOn(m: Machine, id: nat, alloc: Option<Uuid>)
    requires MInv(m) && Enabled(m, Move(id, alloc)) && Walk(At(m, id)).Some?
    ensures Nearer(m, Step(m, Move(id, alloc)), id)
  {
    MoveIs(m, id, alloc);
    if At(m, id).Inserting? {
      InsertNearer(m, id, alloc);
    } else if At(m, id).Linking? {
      LinkNearer(m, id, alloc);
    } else {
      ScanNearer(m, id, alloc);
    }
  }

  /* ----- what becomes of the separators ----- */

  predicate Carries(w: Walker, n: Uuid) {
    (w.Linking? || w.Rooting?) && w.m == n
  }

  /** Some walker is on its way with the separator of leaf `n`. */
  ghost predicate Underway(m: Machine, n: Uuid) {
    exists id :: id in m.walkers && Carries(m.walkers[id], n)
  }

  /** With this step a separator is given up: by choice, for want of an address, or because the root is another one. */
  predicate Drops(m: Machine, op: Op)
    requires Enabled(m, op)
  {
    var w := At(m, op.id);
    || op.GiveUp?
    || (op.Move? && w.Rooting? && !(m.t.root == w.rootSeen && op.alloc.Some?))
    || (op.Move? && w.Linking? && op.alloc.None?
        && Accepts(m.t.nodes[w.node], w.s) && |m.t.nodes[w.node].ents| == 2 * BALANCE - 1)
  }

  /** The leaves whose separators have been given up. */
  ghost function Dropped(leaf: Uuid, ops: seq<Op>): set<Uuid>
    requires Run(leaf, ops).Some?
    decreases |ops|
  {
    if ops == [] then {}
    else
      var n := |ops| - 1;
      var m := Run(leaf, ops[..n]).value;
      var w := At(m, ops[n].id);
      Dropped(leaf, ops[..n]) + if Drops(m, ops[n]) && (w.Linking? || w.Rooting?) then {w.m} else {}
  }

  /** Every leaf has a fence, or its separator is under way or was given up. */
  ghost predicate Accounted(m: Machine, dropped: set<Uuid>)
    requires Leveled(m.t, m.sh)
  {
    forall n :: n in m.sh.leaves ==> LedTo(m.t, m.sh, n) || Underway(m, n) || n in dropped
  }

  /** The walker moves on, and what it carried before it still carries or has given up. */
  lemma PutAccounts(m: Machine, dropped: set<Uuid>, id: nat, w: Walker)
    requires Leveled(m.t, m.sh) && Accounted(m, dropped)
    requires forall n :: Carries(At(m, id), n) ==> Carries(w, n) || LedTo(m.t, m.sh, n) || n in dropped
    ensures Accounted(Put(m, id, w), dropped)
  {
    var m' := Put(m, id, w);
    forall n | n in m'.sh.leaves
      ensures LedTo(m'.t, m'.sh, n) || Underway(m', n) || n in dropped
    {
      if i :| i in m.walkers && Carries(m.walkers[i], n) {
        assert i in m'.walkers;
        if i != id {
          assert Carries(m'.walkers[i], n);
        } else if Carries(w, n) {
          assert Carries(m'.walkers[id], n);
        }
      }
    }
  }

  /** The tree changes: fences stay, and one leaf `a` is new or has its fence from now on. */
  lemma TreeAccounts(m: Machine, m': Machine, dropped: set<Uuid>, a: set<Uuid>)
    requires Leveled(m.t, m.sh) && Leveled(m'.t, m'.sh) && Accounted(m, dropped) && m'.walkers == m.walkers
    requires forall n :: LedTo(m.t, m.sh, n) ==> LedTo(m'.t, m'.sh, n)
    requires forall n :: n in m'.sh.leaves ==> n in m.sh.leaves || n in a
    ensures Accounted(m', dropped + a)
  {
    forall n | n in m'.sh.leaves && n in m.sh.leaves && Underway(m, n)
      ensures Underway(m', n)
    {
      var i :| i in m.walkers && Carries(m.walkers[i], n);
      assert i in m'.walkers && Carries(m'.walkers[i], n);
    }
  }

  /** What was set aside for the walker `id` it now carries. */
  lemma CarrierAccounts(m: Machine, dropped: set<Uuid>, a: Uuid, id: nat, w: Walker)
    requires Leveled(m.t, m.sh) && Accounted(m, dropped + {a}) && Carries(w, a)
    requires forall n :: !Carries(At(m, id), n)
    ensures Accounted(Put(m, id, w), dropped)
  {
    var m' := Put(m, id, w);
    PutAccounts(m, dropped + {a}, id, w);
    assert id in m'.walkers && Carries(m'.walkers[id], a);
    assert Underway(m', a);
  }

  /** The leaf takes the inserter's pair in this step. */
  predicate Lands(m: Machine, id: nat, alloc: Option<Uuid>)
    requires Enabled(m, Move(id, alloc)) && At(m, id).Inserting?
  {
    var w := At(m, id);
    var n := m.t.nodes[w.node];
    n.leaf && Accepts(n, w.k) && !(|LeafInsert(n.ents, w.k, w.v)| == 2 * BALANCE && alloc.None?)
  }

  lemma InsertAccounts(m: Machine, dropped: set<Uuid>, id: nat, alloc: Option<Uuid>)
    requires MInv(m) && Enabled(m, Move(id, alloc)) && At(m, id).Inserting? && Accounted(m, dropped)
    ensures Leveled(InsertStep(m, id, alloc).t, InsertStep(m, id, alloc).sh) && Accounted(InsertStep(m, id, alloc), dropped)
  {
    InsertKeeps(m, id, alloc);
    if Lands(m, id, alloc) {
      var w := At(m, id);
      var j := StandsWhere(m.t, m.sh, w.node, w.k);
      IndexUnique(m.sh.leaves, w.node, j);
      LandingAccounts(m, dropped, id, alloc, j);
    } else {
      PassingAccounts(m, dropped, id, alloc);
    }
  }

  lemma PassingAccounts(m: Machine, dropped: set<Uuid>, id: nat, alloc: Option<Uuid>)
    requires Leveled(m.t, m.sh) && Enabled(m, Move(id, alloc)) && At(m, id).Inserting? && Accounted(m, dropped)
    requires !Lands(m, id, alloc)
    ensures Leveled(InsertStep(m, id, alloc).t, InsertStep(m, id, alloc).sh) && Accounted(InsertStep(m, id, alloc), dropped)
  {
    PutAccounts(m, dropped, id, At(InsertStep(m, id, alloc), id));
  }

  lemma LandingAccounts(m: Machine, dropped: set<Uuid>, id: nat, alloc: Option<Uuid>, j: nat)
    requires Leveled(m.t, m.sh) && Enabled(m, Move(id, alloc)) && At(m, id).Inserting? && Accounted(m, dropped)
    requires Lands(m, id, alloc) && StandsAt(m.t.nodes, m.sh.leaves, At(m, id).node, At(m, id).k, j)
    requires IndexOf(m.sh.leaves, At(m, id).node) == j
    requires Leveled(InsertStep(m, id, alloc).t, InsertStep(m, id, alloc).sh)
    ensures Accounted(InsertStep(m, id, alloc), dropped)
  {
    var w := At(m, id);
    var full := |LeafInsert(m.t.nodes[w.node].ents, w.k, w.v)| == 2 * BALANCE;
    LandsAccounted(m, dropped, id, j, if full then alloc else None);
  }

  lemma LandsAccounted(m: Machine, dropped: set<Uuid>, id: nat, j: nat, split: Option<Uuid>)
    requires Leveled(m.t, m.sh) && At(m, id).Inserting? && Accounted(m, dropped)
    requires var w := At(m, id);
      && j < |m.sh.leaves| && m.sh.leaves[j] == w.node && IndexOf(m.sh.leaves, w.node) == j
      && LeafPut(m.t, m.sh, j, w.k, w.v, split)
    ensures var w := At(m, id);
      var m' := AfterLeaf(m, w, split);
      && Leveled(m'.t, m'.sh)
      && (split.None? ==> Accounted(Put(m', id, Rest), dropped))
      && (split.Some? ==> forall w' :: Carries(w', split.value) ==> Accounted(Put(m', id, w'), dropped))
  {
    var m' := AfterLeaf(m, At(m, id), split);
    var a := if split.Some? then {split.value} else {};
    LeafLeads(m.t, m.sh, j, At(m, id).k, At(m, id).v, split);
    TreeAccounts(m, m', dropped, a);
    NewLeafAccounted(m', dropped, id, split);
  }

  lemma NewLeafAccounted(m: Machine, dropped: set<Uuid>, id: nat, split: Option<Uuid>)
    requires Leveled(m.t, m.sh) && Accounted(m, dropped + if split.Some? then {split.value} else {})
    requires forall n :: !Carries(At(m, id), n)
    ensures split.None? ==> Accounted(Put(m, id, Rest), dropped)
    ensures split.Some? ==> forall w :: Carries(w, split.value) ==> Accounted(Put(m, id, w), dropped)
  {
    if split.None? {
      assert dropped + {} == dropped;
      PutAccounts(m, dropped, id, Rest);
    } else {
      forall w | Carries(w, split.value) ensures Accounted(Put(m, id, w), dropped) {
        CarrierAccounts(m, dropped, split.value, id, w);
      }
    }
  }

  lemma LinkAccounts(m: Machine, dropped: set<Uuid>, id: nat, alloc: Option<Uuid>)
    requires MInv(m) && Enabled(m, Move(id, alloc)) && At(m, id).Linking? && Accounted(m, dropped)
    ensures var m', d := LinkStep(m, id, alloc), if Drops(m, Move(id, alloc)) then {At(m, id).m} else {};
      Leveled(m'.t, m'.sh) && Accounted(m', dropped + d)
  {
    var j := LinkStands(m, id, alloc);
    var d := if Drops(m, Move(id, alloc)) then {At(m, id).m} else {};
    MoreDropped(m, dropped, d);
    LinkMoveAccounts(m, dropped + d, id, alloc, j);
  }

  lemma LinkStands(m: Machine, id: nat, alloc: Option<Uuid>) returns (j: nat)
    requires MInv(m) && Enabled(m, Move(id, alloc)) && At(m, id).Linking?
    ensures Leveled(LinkStep(m, id, alloc).t, LinkStep(m, id, alloc).sh)
    ensures StandsAt(m.t.nodes, m.sh.inners, At(m, id).node, At(m, id).s, j) && IndexOf(m.sh.inners, At(m, id).node) == j
  {
    LinkKeeps(m, id, alloc);
    j :| StandsAt(m.t.nodes, m.sh.inners, At(m, id).node, At(m, id).s, j);
    IndexUnique(m.sh.inners, At(m, id).node, j);
  }

  lemma MoreDropped(m: Machine, dropped: set<Uuid>, d: set<Uuid>)
    requires Leveled(m.t, m.sh) && Accounted(m, dropped)
    ensures Accounted(m, dropped + d)
  {
  }

  lemma LinkMoveAccounts(m: Machine, dropped: set<Uuid>, id: nat, alloc: Option<Uuid>, j: nat)
    requires Leveled(m.t, m.sh) && Enabled(m, Move(id, alloc)) && At(m, id).Linking? && Accounted(m, dropped)
    requires StandsAt(m.t.nodes, m.sh.inners, At(m, id).node, At(m, id).s, j) && IndexOf(m.sh.inners, At(m, id).node) == j
    requires Leveled(LinkStep(m, id, alloc).t, LinkStep(m, id, alloc).sh)
    requires Drops(m, Move(id, alloc)) ==> At(m, id).m in dropped
    ensures Accounted(LinkStep(m, id, alloc), dropped)
  {
    var w := At(m, id);
    var n := m.t.nodes[w.node];
    if !Accepts(n, w.s) || (alloc.None? && |InnerInsert(n.ents, w.s, w.m)| == 2 * BALANCE) {
      PutAccounts(m, dropped, id, At(LinkStep(m, id, alloc), id));
    } else {
      var split := if |InnerInsert(n.ents, w.s, w.m)| == 2 * BALANCE then alloc else None;
      LinkedAccounted(m, dropped, id, j, split);
    }
  }

  lemma LinkedAccounted(m: Machine, dropped: set<Uuid>, id: nat, j: nat, split: Option<Uuid>)
    requires Leveled(m.t, m.sh) && At(m, id).Linking? && Accounted(m, dropped)
    requires var w := At(m, id);
      j < |m.sh.inners| && m.sh.inners[j] == w.node && InnerPut(m.t, m.sh, j, w.s, w.m, split)
    ensures var m' := AfterLink(m, At(m, id), j, split);
      Leveled(m'.t, m'.sh) && Accounted(Put(m', id, Rest), dropped)
  {
    var w := At(m, id);
    var m' := AfterLink(m, w, j, split);
    InnerLeads(m.t, m.sh, j, w.s, w.m, split);
    TreeAccounts(m, m', dropped, {});
    assert dropped + {} == dropped;
    PutAccounts(m', dropped, id, Rest);
  }

  lemma RootAccounts(m: Machine, dropped: set<Uuid>, id: nat, alloc: Option<Uuid>)
    requires MInv(m) && Enabled(m, Move(id, alloc)) && At(m, id).Rooting? && Accounted(m, dropped)
    ensures var m', d := RootStep(m, id, alloc), if Drops(m, Move(id, alloc)) then {At(m, id).m} else {};
      Leveled(m'.t, m'.sh) && Accounted(m', dropped + d)
  {
    RootStepKeeps(m, id, alloc);
    var w := At(m, id);
    if m.t.root == w.rootSeen && alloc.Some? {
      assert m.sh.inners == [];
      RootLeads(m.t, m.sh, w.m, w.s, alloc.value);
      var m' := m.(t := RootTree(m.t, w.m, w.s, alloc.value), sh := m.sh.(inners := [alloc.value]));
      TreeAccounts(m, m', dropped, {});
      PutAccounts(m', dropped + {}, id, Rest);
    } else {
      PutAccounts(m, dropped + {w.m}, id, Rest);
    }
  }

  lemma StepAccounts(m: Machine, dropped: set<Uuid>, op: Op)
    requires MInv(m) && Enabled(m, op) && Accounted(m, dropped)
    ensures var w, m' := At(m, op.id), Step(m, op);
      && Leveled(m'.t, m'.sh)
      && Accounted(m', dropped + if Drops(m, op) && (w.Linking? || w.Rooting?) then {w.m} else {})
  {
    var w := At(m, op.id);
    if op.Move? && w.Inserting? {
      InsertAccounts(m, dropped, op.id, op.alloc);
      assert dropped + {} == dropped;
    } else if op.Move? && w.Linking? {
      LinkAccounts(m, dropped, op.id, op.alloc);
    } else if op.Move? && w.Rooting? {
      RootAccounts(m, dropped, op.id, op.alloc);
    } else {
      OthersAccount(m, dropped, op);
    }
  }

  lemma OthersAccount(m: Machine, dropped: set<Uuid>, op: Op)
    requires Leveled(m.t, m.sh) && Enabled(m, op) && Accounted(m, dropped)
    requires op.Move? ==> !At(m, op.id).Inserting? && !At(m, op.id).Linking? && !At(m, op.id).Rooting?
    ensures var w, m' := At(m, op.id), Step(m, op);
      && Leveled(m'.t, m'.sh)
      && Accounted(m', dropped + if Drops(m, op) && (w.Linking? || w.Rooting?) then {w.m} else {})
  {
    var w, m' := At(m, op.id), Step(m, op);
    var d := dropped + if Drops(m, op) && (w.Linking? || w.Rooting?) then {w.m} else {};
    assert Accounted(m, d);
    PutAccounts(m, d, op.id, At(m', op.id));
    assert m' == Put(m, op.id, At(m', op.id)) || m' == m;
  }

  /**
   After any interleaving, every leaf has a fence that leads to it, unless the separator of the split
   that made it is still under way, or was given up: for want of an address, by an inserter that
   does without, or because somebody else replaced the root first.
   */
  lemma {:induction false} SeparatorsArrive(leaf: Uuid, ops: seq<Op>)
    requires leaf != NIL && Run(leaf, ops).Some?
    ensures Leveled(Run(leaf, ops).value.t, Run(leaf, ops).value.sh)
    ensures Accounted(Run(leaf, ops).value, Dropped(leaf, ops))
    decreases |ops|
  {
    if ops == [] {
      StartInv(leaf);
    } else {
      var n := |ops| - 1;
      RunInv(leaf, ops[..n]);
      SeparatorsArrive(leaf, ops[..n]);
      StepAccounts(Run(leaf, ops[..n]).value, Dropped(leaf, ops[..n]), ops[n]);
    }
  }
}
