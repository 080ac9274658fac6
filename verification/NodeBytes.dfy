/**
 The byte layout of a tree node: a leaf flag, the number of keys, the sibling, and 66 slots of a son
 and a key.  The in-place operations compute the functions of module `BLink`.
 */
module NodeBytes {
  import opened Types
  import opened Bytes
  import opened BLink

  const HEADER: nat := 11
  const SLOT: nat := 16
  const SLOTS: nat := 2 * BALANCE + 2
  const NODE_SIZE: nat := HEADER + SLOT * SLOTS

  type Raw = seq<Byte>

  /* ----- reading ----- */

  function U64(s: seq<Byte>): (v: Uuid)
    requires |s| == 8
  {
    Widths();
    Parse(s)
  }

  predicate IsLeaf(s: Raw)
    requires |s| == NODE_SIZE
  {
    s[0] == 1
  }

  function NoKeys(s: Raw): nat
    requires |s| == NODE_SIZE
  {
    Parse(s[1..3])
  }

  function Sibling(s: Raw): Uuid
    requires |s| == NODE_SIZE
  {
    U64(s[3..11])
  }

  function SonAt(s: Raw, k: nat): Uuid
    requires |s| == NODE_SIZE && k < SLOTS
  {
    U64(s[HEADER + SLOT * k..HEADER + SLOT * k + 8])
  }

  function KeyAt(s: Raw, k: nat): Uuid
    requires |s| == NODE_SIZE && k < SLOTS
  {
    U64(s[HEADER + SLOT * k + 8..HEADER + SLOT * k + 16])
  }

  function SlotAt(s: Raw, k: nat): Entry
    requires |s| == NODE_SIZE && k < SLOTS
  {
    Entry(KeyAt(s, k), SonAt(s, k))
  }

  function Slots(s: Raw, n: nat): (es: seq<Entry>)
    requires |s| == NODE_SIZE && n <= SLOTS
    ensures |es| == n && forall i :: 0 <= i < n ==> es[i] == SlotAt(s, i)
  {
    seq(n, i requires 0 <= i < n => SlotAt(s, i))
  }

  predicate WellFormed(s: Raw) {
    |s| == NODE_SIZE && NoKeys(s) < 2 * BALANCE
  }

  /** The node the bytes stand for. */
  function NodeOf(s: Raw): Node
    requires |s| == NODE_SIZE && NoKeys(s) <= 2 * BALANCE
  {
    Node(IsLeaf(s), Slots(s, NoKeys(s)), Sibling(s))
  }

  /* ----- writing ----- */

  function SetLeaf(s: Raw, leaf: bool): Raw
    requires |s| == NODE_SIZE
  {
    Splice(s, 0, [if leaf then 1 else 0])
  }

  /** The number of keys is stored in 16 bits. */
  function SetNoKeys(s: Raw, n: nat): Raw
    requires |s| == NODE_SIZE
  {
    Splice(s, 1, Put(n, 2))
  }

  function SetSibling(s: Raw, u: Uuid): Raw
    requires |s| == NODE_SIZE
  {
    Splice(s, 3, Put(u, 8))
  }

  function SetSon(s: Raw, u: Uuid, k: nat): Raw
    requires |s| == NODE_SIZE && k < SLOTS
  {
    Splice(s, HEADER + SLOT * k, Put(u, 8))
  }

  function SetKey(s: Raw, u: Uuid, k: nat): Raw
    requires |s| == NODE_SIZE && k < SLOTS
  {
    Splice(s, HEADER + SLOT * k + 8, Put(u, 8))
  }

  /** All slots from `k` on move up by one; the last one drops out. */
  function Shift(s: Raw, k: nat): Raw
    requires |s| == NODE_SIZE && k < SLOTS
  {
    var b := HEADER + SLOT * (k + 1);
    s[..b] + s[b - SLOT..NODE_SIZE - SLOT]
  }

  lemma U64Put(v: Uuid)
    ensures U64(Put(v, 8)) == v
  {
    Widths();
    ParsePut(v, 8);
  }

  /** Writing at `off` leaves a slot alone that does not overlap. */
  lemma SlotBeside(s: Raw, off: nat, bs: seq<Byte>, i: nat)
    requires |s| == NODE_SIZE && off + |bs| <= NODE_SIZE && i < SLOTS
    requires off + |bs| <= HEADER + SLOT * i || HEADER + SLOT * (i + 1) <= off
    ensures SlotAt(Splice(s, off, bs), i) == SlotAt(s, i)
  {
    var o := HEADER + SLOT * i;
    SpliceBeside(s, off, bs, o, o + 8);
    SpliceBeside(s, off, bs, o + 8, o + 16);
  }

  lemma SetKeySlot(s: Raw, u: Uuid, k: nat, i: nat)
    requires |s| == NODE_SIZE && k < SLOTS && i < SLOTS
    ensures SlotAt(SetKey(s, u, k), i) == if i == k then Entry(u, SonAt(s, k)) else SlotAt(s, i)
  {
    var o := HEADER + SLOT * k;
    if i == k {
      U64Put(u);
      SpliceBeside(s, o + 8, Put(u, 8), o, o + 8);
      SpliceWithin(s, o + 8, Put(u, 8), 0, 8);
    } else {
      SlotBeside(s, o + 8, Put(u, 8), i);
    }
  }

  lemma SetSonSlot(s: Raw, u: Uuid, k: nat, i: nat)
    requires |s| == NODE_SIZE && k < SLOTS && i < SLOTS
    ensures SlotAt(SetSon(s, u, k), i) == if i == k then Entry(KeyAt(s, k), u) else SlotAt(s, i)
  {
    var o := HEADER + SLOT * k;
    if i == k {
      U64Put(u);
      SpliceBeside(s, o, Put(u, 8), o + 8, o + 16);
      SpliceWithin(s, o, Put(u, 8), 0, 8);
    } else {
      SlotBeside(s, o, Put(u, 8), i);
    }
  }

  lemma ShiftSlot(s: Raw, k: nat, i: nat)
    requires |s| == NODE_SIZE && k < SLOTS && i < SLOTS
    ensures SlotAt(Shift(s, k), i) == if i <= k then SlotAt(s, i) else SlotAt(s, i - 1)
  {
    var s', b, o := Shift(s, k), HEADER + SLOT * (k + 1), HEADER + SLOT * i;
    assert forall p :: 0 <= p < b ==> s'[p] == s[p];
    assert forall p :: b <= p < NODE_SIZE ==> s'[p] == s[p - SLOT];
    if i <= k {
      assert s'[o..o + 8] == s[o..o + 8] && s'[o + 8..o + 16] == s[o + 8..o + 16];
    } else {
      var q := HEADER + SLOT * (i - 1);
      assert s'[o..o + 8] == s[q..q + 8] && s'[o + 8..o + 16] == s[q + 8..q + 16];
    }
  }

  /** Same leaf flag and sibling, `n` keys. */
  ghost predicate Header(s: Raw, s': Raw, n: nat) {
    && |s| == NODE_SIZE && |s'| == NODE_SIZE
    && IsLeaf(s') == IsLeaf(s) && Sibling(s') == Sibling(s) && NoKeys(s') == n
  }

  /** The header fields read only the first 11 bytes. */
  lemma SameHeader(s: Raw, s': Raw)
    requires |s| == NODE_SIZE && |s'| == NODE_SIZE && s'[..HEADER] == s[..HEADER]
    ensures Header(s, s', NoKeys(s))
  {
    assert s[0] == s[..HEADER][0] && s'[0] == s'[..HEADER][0];
    assert s[1..3] == s[..HEADER][1..3] && s'[1..3] == s'[..HEADER][1..3];
    assert s[3..11] == s[..HEADER][3..11] && s'[3..11] == s'[..HEADER][3..11];
  }

  /** Writing behind the header leaves it alone. */
  lemma HeaderBeside(s: Raw, off: nat, bs: seq<Byte>)
    requires |s| == NODE_SIZE && HEADER <= off && off + |bs| <= NODE_SIZE
    ensures Splice(s, off, bs)[..HEADER] == s[..HEADER]
  {
    var r := Splice(s, off, bs);
    SpliceBeside(s, off, bs, 0, HEADER);
    assert r[..HEADER] == r[0..HEADER] && s[..HEADER] == s[0..HEADER];
  }

  lemma SetNoKeysHeader(s: Raw, n: nat)
    requires |s| == NODE_SIZE && n < 0x1_0000
    ensures Header(s, SetNoKeys(s, n), n)
  {
    Widths();
    ParsePut(n, 2);
    SpliceWithin(s, 1, Put(n, 2), 0, 2);
    SpliceBeside(s, 1, Put(n, 2), 0, 1);
    SpliceBeside(s, 1, Put(n, 2), 3, 11);
    assert s[0] == s[0..1][0] && SetNoKeys(s, n)[0] == SetNoKeys(s, n)[0..1][0];
  }

  lemma SetSiblingHeader(s: Raw, u: Uuid)
    requires |s| == NODE_SIZE
    ensures var s' := SetSibling(s, u); IsLeaf(s') == IsLeaf(s) && Sibling(s') == u && NoKeys(s') == NoKeys(s)
  {
    U64Put(u);
    SpliceWithin(s, 3, Put(u, 8), 0, 8);
    SpliceBeside(s, 3, Put(u, 8), 0, 1);
    SpliceBeside(s, 3, Put(u, 8), 1, 3);
    assert s[0] == s[0..1][0] && SetSibling(s, u)[0] == SetSibling(s, u)[0..1][0];
  }

  /* ----- insertion ----- */

  /** The byte image after a leaf insertion at slot `k`. */
  function LeafInsertRaw(s: Raw, key: Uuid, uuid: Uuid, k: nat): Raw
    requires WellFormed(s) && k <= NoKeys(s)
  {
    SetNoKeys(SetSon(SetKey(Shift(s, k), key, k), uuid, k), NoKeys(s) + 1)
  }

  /** The byte image after an inner insertion at slot `k`. */
  function InnerInsertRaw(s: Raw, key: Uuid, uuid: Uuid, k: nat): Raw
    requires WellFormed(s) && k < NoKeys(s)
  {
    var s1 := Shift(SetKey(s, key, k), k + 1);
    SetNoKeys(SetSon(SetKey(s1, KeyAt(s, k), k + 1), uuid, k + 1), NoKeys(s) + 1)
  }

  lemma LeafInsertHeader(s: Raw, key: Uuid, uuid: Uuid, k: nat)
    requires WellFormed(s) && k <= NoKeys(s)
    ensures Header(s, LeafInsertRaw(s, key, uuid, k), NoKeys(s) + 1)
  {
    var s1 := Shift(s, k);
    var s2 := SetKey(s1, key, k);
    var s3 := SetSon(s2, uuid, k);
    assert s1[..HEADER] == s[..HEADER];
    HeaderBeside(s1, HEADER + SLOT * k + 8, Put(key, 8));
    HeaderBeside(s2, HEADER + SLOT * k, Put(uuid, 8));
    SameHeader(s, s3);
    SetNoKeysHeader(s3, NoKeys(s) + 1);
  }

  lemma LeafInsertSlot(s: Raw, key: Uuid, uuid: Uuid, k: nat, i: nat)
    requires WellFormed(s) && k <= NoKeys(s) && i <= NoKeys(s)
    ensures SlotAt(LeafInsertRaw(s, key, uuid, k), i) ==
            if i < k then SlotAt(s, i) else if i == k then Entry(key, uuid) else SlotAt(s, i - 1)
  {
    var s1 := Shift(s, k);
    var s2 := SetKey(s1, key, k);
    var s3 := SetSon(s2, uuid, k);
    ShiftSlot(s, k, i);
    SetKeySlot(s1, key, k, i);
    SetSonSlot(s2, uuid, k, i);
    SlotBeside(s3, 1, Put(NoKeys(s) + 1, 2), i);
  }

  lemma LeafInsertRefines(s: Raw, key: Uuid, uuid: Uuid)
    requires WellFormed(s)
    ensures var k := Rank(NodeOf(s).ents, key);
      var s' := LeafInsertRaw(s, key, uuid, k);
      && |s'| == NODE_SIZE && NoKeys(s') == NoKeys(s) + 1
      && NodeOf(s') == NodeOf(s).(ents := LeafInsert(NodeOf(s).ents, key, uuid))
  {
    var es := NodeOf(s).ents;
    var k := Rank(es, key);
    LeafInsertHeader(s, key, uuid, k);
    var es', want := Slots(LeafInsertRaw(s, key, uuid, k), NoKeys(s) + 1), LeafInsert(es, key, uuid);
    forall i | 0 <= i < NoKeys(s) + 1
      ensures es'[i] == want[i]
    {
      LeafInsertSlot(s, key, uuid, k, i);
    }
    assert es' == want;
  }

  lemma InnerInsertHeader(s: Raw, key: Uuid, uuid: Uuid, k: nat)
    requires WellFormed(s) && k < NoKeys(s)
    ensures Header(s, InnerInsertRaw(s, key, uuid, k), NoKeys(s) + 1)
  {
    var s0 := SetKey(s, key, k);
    var s1 := Shift(s0, k + 1);
    var s2 := SetKey(s1, KeyAt(s, k), k + 1);
    var s3 := SetSon(s2, uuid, k + 1);
    HeaderBeside(s, HEADER + SLOT * k + 8, Put(key, 8));
    assert s1[..HEADER] == s0[..HEADER];
    HeaderBeside(s1, HEADER + SLOT * (k + 1) + 8, Put(KeyAt(s, k), 8));
    HeaderBeside(s2, HEADER + SLOT * (k + 1), Put(uuid, 8));
    SameHeader(s, s3);
    SetNoKeysHeader(s3, NoKeys(s) + 1);
  }

  lemma InnerInsertSlot(s: Raw, key: Uuid, uuid: Uuid, k: nat, i: nat)
    requires WellFormed(s) && k < NoKeys(s) && i <= NoKeys(s)
    ensures SlotAt(InnerInsertRaw(s, key, uuid, k), i) ==
            if i < k then SlotAt(s, i) else if i == k then Entry(key, SonAt(s, k))
            else if i == k + 1 then Entry(KeyAt(s, k), uuid) else SlotAt(s, i - 1)
  {
    var s0 := SetKey(s, key, k);
    var s1 := Shift(s0, k + 1);
    var s2 := SetKey(s1, KeyAt(s, k), k + 1);
    var s3 := SetSon(s2, uuid, k + 1);
    SetSonSlot(s2, uuid, k + 1, i);
    SlotBeside(s3, 1, Put(NoKeys(s) + 1, 2), i);
    SetKeySlot(s1, KeyAt(s, k), k + 1, i);
    if i != k + 1 {
      InnerShiftSlot(s, key, k, i);
    }
  }

  lemma InnerShiftSlot(s: Raw, key: Uuid, k: nat, i: nat)
    requires |s| == NODE_SIZE && k + 1 < SLOTS && i < SLOTS && i != k + 1
    ensures SlotAt(Shift(SetKey(s, key, k), k + 1), i) ==
            if i < k then SlotAt(s, i) else if i == k then Entry(key, SonAt(s, k)) else SlotAt(s, i - 1)
  {
    ShiftSlot(SetKey(s, key, k), k + 1, i);
    SetKeySlot(s, key, k, if i <= k then i else i - 1);
  }

  lemma InnerInsertRefines(s: Raw, key: Uuid, uuid: Uuid)
    requires WellFormed(s) && Rank(NodeOf(s).ents, key) < NoKeys(s)
    ensures var k := Rank(NodeOf(s).ents, key);
      var s' := InnerInsertRaw(s, key, uuid, k);
      && |s'| == NODE_SIZE && NoKeys(s') == NoKeys(s) + 1
      && NodeOf(s') == NodeOf(s).(ents := InnerInsert(NodeOf(s).ents, key, uuid))
  {
    var es := NodeOf(s).ents;
    var k := Rank(es, key);
    InnerInsertHeader(s, key, uuid, k);
    var es', want := Slots(InnerInsertRaw(s, key, uuid, k), NoKeys(s) + 1), InnerInsert(es, key, uuid);
    forall i | 0 <= i < NoKeys(s) + 1
      ensures es'[i] == want[i]
    {
      InnerInsertSlot(s, key, uuid, k, i);
    }
    assert es' == want;
  }

  /** Byte by byte from the end, as the source does it. */
  method ShiftInPlace(raw: array<Byte>, k: nat)
    requires raw.Length == NODE_SIZE && k < SLOTS
    modifies raw
    ensures raw[..] == Shift(old(raw[..]), k)
  {
    var begin := HEADER + SLOT * (k + 1);
    var i := NODE_SIZE - 1;
    while i >= begin
      invariant begin - 1 <= i < NODE_SIZE
      invariant forall p :: 0 <= p <= i ==> raw[p] == old(raw[p])
      invariant forall p :: i < p < NODE_SIZE ==> raw[p] == old(raw[p - SLOT])
    {
      raw[i] := raw[i - SLOT];
      i := i - 1;
    }
  }

  /** The first slot whose key is not below `key`. */
  method FindSlot(s: Raw, key: Uuid) returns (k: nat)
    requires WellFormed(s)
    ensures k == Rank(NodeOf(s).ents, key)
  {
    var n := NoKeys(s);
    ghost var es := NodeOf(s).ents;
    k := 0;
    while k < n
      invariant k <= n && forall i :: 0 <= i < k ==> es[i].key < key
    {
      if KeyAt(s, k) >= key {
        break;
      }
      k := k + 1;
    }
    RankIs(es, key, k);
  }

  lemma {:induction false} RankIs(es: seq<Entry>, key: Uuid, k: nat)
    requires k <= |es| && (forall i :: 0 <= i < k ==> es[i].key < key) && (k < |es| ==> es[k].key >= key)
    ensures Rank(es, key) == k
  {
  }

  lemma {:induction false} RankAboveIs(es: seq<Entry>, key: Uuid, k: nat)
    requires k <= |es| && (forall i :: 0 <= i < k ==> es[i].key <= key) && (k < |es| ==> es[k].key > key)
    ensures RankAbove(es, key) == k
  {
  }

  method WriteSlot(raw: array<Byte>, key: Uuid, uuid: Uuid, k: nat)
    requires raw.Length == NODE_SIZE && k < SLOTS
    modifies raw
    ensures raw[..] == SetSon(SetKey(old(raw[..]), key, k), uuid, k)
  {
    Write(raw, HEADER + SLOT * k + 8, Put(key, 8));
    Write(raw, HEADER + SLOT * k, Put(uuid, 8));
  }

  method LeafInsertInPlace(raw: array<Byte>, uuid: Uuid, key: Uuid, k: nat)
    requires WellFormed(raw[..]) && k <= NoKeys(raw[..])
    modifies raw
    ensures raw[..] == LeafInsertRaw(old(raw[..]), key, uuid, k)
  {
    var n := NoKeys(raw[..]);
    assert n < 2 * BALANCE && k < SLOTS;
    ShiftInPlace(raw, k);
    ghost var s1 := raw[..];
    WriteSlot(raw, key, uuid, k);
    ghost var s2 := raw[..];
    Write(raw, 1, Put(n + 1, 2));
    assert raw[..] == SetNoKeys(s2, n + 1);
  }

  method InnerInsertInPlace(raw: array<Byte>, uuid: Uuid, key: Uuid, k: nat)
    requires WellFormed(raw[..]) && k < NoKeys(raw[..])
    modifies raw
    ensures raw[..] == InnerInsertRaw(old(raw[..]), key, uuid, k)
  {
    var n := NoKeys(raw[..]);
    var kk := KeyAt(raw[..], k);
    Write(raw, HEADER + SLOT * k + 8, Put(key, 8));
    ShiftInPlace(raw, k + 1);
    WriteSlot(raw, kk, uuid, k + 1);
    Write(raw, 1, Put(n + 1, 2));
  }

  /** The entries of a node that takes the pair. */
  function InsertInto(n: Node, key: Uuid, uuid: Uuid): seq<Entry>
    requires !n.leaf ==> Rank(n.ents, key) < |n.ents|
  {
    if n.leaf then LeafInsert(n.ents, key, uuid) else InnerInsert(n.ents, key, uuid)
  }

  /** An inner node at the end of its level has a fence above every key it is asked to take. */
  predicate HasRoom(n: Node, key: Uuid) {
    !n.leaf && n.sibling == NIL ==> Rank(n.ents, key) < |n.ents|
  }

  /** Inserts in place, unless the key belongs to a node further right. */
  method Insert(raw: array<Byte>, uuid: Uuid, key: Uuid) returns (ok: bool)
    requires WellFormed(raw[..]) && HasRoom(NodeOf(raw[..]), key)
    modifies raw
    ensures ok == Accepts(NodeOf(old(raw[..])), key)
    ensures !ok ==> raw[..] == old(raw[..])
    ensures NoKeys(raw[..]) == NoKeys(old(raw[..])) + (if ok then 1 else 0)
    ensures ok ==> NodeOf(raw[..]) == NodeOf(old(raw[..])).(ents := InsertInto(NodeOf(old(raw[..])), key, uuid))
  {
    ghost var s := raw[..];
    var k := FindSlot(raw[..], key);
    if k == NoKeys(raw[..]) && Sibling(raw[..]) != NIL {
      return false;
    }
    if IsLeaf(raw[..]) {
      LeafInsertRefines(s, key, uuid);
      LeafInsertInPlace(raw, uuid, key, k);
    } else {
      InnerInsertRefines(s, key, uuid);
      InnerInsertInPlace(raw, uuid, key, k);
    }
    return true;
  }

  /* ----- splitting ----- */

  /** The new right node: its slots are the upper half, moved to the front. */
  function UpperHalf(s: Raw, z: Raw): Raw
    requires |s| == NODE_SIZE && |z| == NODE_SIZE
  {
    var b := HEADER + SLOT * BALANCE;
    Splice(SetSibling(SetNoKeys(SetLeaf(z, IsLeaf(s)), BALANCE), Sibling(s)), HEADER, s[b..])
  }

  function LowerHalf(s: Raw, son: Uuid): Raw
    requires |s| == NODE_SIZE
  {
    SetSibling(SetNoKeys(s, BALANCE), son)
  }

  lemma UpperHalfHeader(s: Raw, z: Raw)
    requires |s| == NODE_SIZE && |z| == NODE_SIZE
    ensures Header(s, UpperHalf(s, z), BALANCE)
  {
    var z1 := SetLeaf(z, IsLeaf(s));
    var z2 := SetNoKeys(z1, BALANCE);
    var z3 := SetSibling(z2, Sibling(s));
    SpliceWithin(z, 0, [if IsLeaf(s) then 1 else 0], 0, 1);
    assert z1[0] == z1[0 + 0..0 + 1][0];
    SetNoKeysHeader(z1, BALANCE);
    SetSiblingHeader(z2, Sibling(s));
    HeaderBeside(z3, HEADER, s[HEADER + SLOT * BALANCE..]);
    SameHeader(z3, UpperHalf(s, z));
  }

  lemma UpperHalfSlot(s: Raw, z: Raw, i: nat)
    requires |s| == NODE_SIZE && |z| == NODE_SIZE && i < BALANCE
    ensures SlotAt(UpperHalf(s, z), i) == SlotAt(s, BALANCE + i)
  {
    var b, o := HEADER + SLOT * BALANCE, SLOT * i;
    var z3 := SetSibling(SetNoKeys(SetLeaf(z, IsLeaf(s)), BALANCE), Sibling(s));
    SpliceWithin(z3, HEADER, s[b..], o, o + 8);
    SpliceWithin(z3, HEADER, s[b..], o + 8, o + 16);
    assert s[b..][o..o + 8] == s[b + o..b + o + 8];
    assert s[b..][o + 8..o + 16] == s[b + o + 8..b + o + 16];
  }

  lemma UpperHalfIs(s: Raw, z: Raw)
    requires |s| == NODE_SIZE && |z| == NODE_SIZE && NoKeys(s) == 2 * BALANCE
    ensures var r := UpperHalf(s, z);
      && |r| == NODE_SIZE && NoKeys(r) == BALANCE
      && NodeOf(r) == Node(IsLeaf(s), NodeOf(s).ents[BALANCE..], Sibling(s))
  {
    UpperHalfHeader(s, z);
    forall i | 0 <= i < BALANCE
      ensures SlotAt(UpperHalf(s, z), i) == SlotAt(s, BALANCE + i)
    {
      UpperHalfSlot(s, z, i);
    }
    assert Slots(UpperHalf(s, z), BALANCE) == NodeOf(s).ents[BALANCE..];
  }

  lemma LowerHalfIs(s: Raw, son: Uuid)
    requires |s| == NODE_SIZE && NoKeys(s) == 2 * BALANCE
    ensures var r := LowerHalf(s, son);
      && |r| == NODE_SIZE && NoKeys(r) == BALANCE
      && NodeOf(r) == Node(IsLeaf(s), NodeOf(s).ents[..BALANCE], son)
  {
    var s1 := SetNoKeys(s, BALANCE);
    SetNoKeysHeader(s, BALANCE);
    SetSiblingHeader(s1, son);
    forall i | 0 <= i < BALANCE
      ensures SlotAt(LowerHalf(s, son), i) == SlotAt(s, i)
    {
      SlotBeside(s, 1, Put(BALANCE, 2), i);
      SlotBeside(s1, 3, Put(son, 8), i);
    }
    assert Slots(LowerHalf(s, son), BALANCE) == NodeOf(s).ents[..BALANCE];
  }

  /** What `insertAndSplit` on one node reports. */
  datatype Outcome = GoRight(sibling: Uuid) | Inserted | Split(son: Uuid, key: Uuid) | Failed

  /** Copies the upper half of a full node into a new one. */
  method CopyUpper(raw: array<Byte>) returns (right: array<Byte>)
    requires raw.Length == NODE_SIZE && NoKeys(raw[..]) == 2 * BALANCE
    ensures fresh(right) && WellFormed(right[..])
    ensures NodeOf(right[..]) == Node(IsLeaf(raw[..]), NodeOf(raw[..]).ents[BALANCE..], Sibling(raw[..]))
  {
    right := new Byte[NODE_SIZE](_ => 0);
    ghost var s, z := raw[..], right[..];
    Write(right, 0, [if IsLeaf(raw[..]) then 1 else 0]);
    Write(right, 1, Put(BALANCE, 2));
    Write(right, 3, Put(Sibling(raw[..]), 8));
    Write(right, HEADER, raw[..][HEADER + SLOT * BALANCE..]);
    UpperHalfIs(s, z);
  }

  /** Leaves the lower half in place. */
  method KeepLower(raw: array<Byte>, son: Uuid)
    requires raw.Length == NODE_SIZE && NoKeys(raw[..]) == 2 * BALANCE
    modifies raw
    ensures WellFormed(raw[..])
    ensures NodeOf(raw[..]) == Node(IsLeaf(old(raw[..])), NodeOf(old(raw[..])).ents[..BALANCE], son)
  {
    LowerHalfIs(raw[..], son);
    Write(raw, 1, Put(BALANCE, 2));
    Write(raw, 3, Put(son, 8));
  }

  /** Which way a node step goes. */
  function Verdict(n: Node, uuid: Uuid, key: Uuid, alloc: Option<Uuid>): Outcome
    requires HasRoom(n, key)
  {
    if !Accepts(n, key) then GoRight(n.sibling)
    else if |n.ents| + 1 < 2 * BALANCE then Inserted
    else if alloc.None? then Failed
    else
      var es := InsertInto(n, key, uuid);
      if BALANCE < |es| then Split(alloc.value, es[BALANCE].key) else Failed
  }

  /**
   One node step: insert, and split a full node.  `alloc` is the data manager's answer when the new
   node is stored; without one the node is put back byte for byte.
   */
  method InsertAndSplit(raw: array<Byte>, uuid: Uuid, key: Uuid, alloc: Option<Uuid>)
    returns (r: Outcome, right: array<Byte>)
    requires WellFormed(raw[..]) && HasRoom(NodeOf(raw[..]), key)
    modifies raw
    ensures r == Verdict(NodeOf(old(raw[..])), uuid, key, alloc)
    ensures WellFormed(raw[..])
    ensures r.GoRight? || r.Failed? ==> raw[..] == old(raw[..])
    ensures r.Inserted? ==>
      NodeOf(raw[..]) == NodeOf(old(raw[..])).(ents := InsertInto(NodeOf(old(raw[..])), key, uuid))
    ensures r.Split? ==> fresh(right) && WellFormed(right[..])
    ensures r.Split? ==>
      NodeOf(raw[..]) == Node(NodeOf(old(raw[..])).leaf, InsertInto(NodeOf(old(raw[..])), key, uuid)[..BALANCE], r.son)
    ensures r.Split? ==>
      NodeOf(right[..]) == Node(NodeOf(old(raw[..])).leaf, InsertInto(NodeOf(old(raw[..])), key, uuid)[BALANCE..],
                                NodeOf(old(raw[..])).sibling)
  {
    var oldraw := raw[..];
    right := raw;
    var ok := Insert(raw, uuid, key);
    if !ok {
      var sibling := Sibling(raw[..]);
      SpliceAll(raw[..], oldraw);
      Write(raw, 0, oldraw);
      return GoRight(sibling), right;
    }
    if NoKeys(raw[..]) != 2 * BALANCE {
      return Inserted, right;
    }
    right := CopyUpper(raw);
    if alloc.None? {
      SpliceAll(raw[..], oldraw);
      Write(raw, 0, oldraw);
      return Failed, right;
    }
    KeepLower(raw, alloc.value);
    return Split(alloc.value, KeyAt(right[..], 0)), right;
  }

  /* ----- searching ----- */

  method SearchNextRaw(raw: array<Byte>, key: Uuid) returns (next: Option<Uuid>, sibling: Uuid)
    requires WellFormed(raw[..])
    ensures (next, sibling) == SearchNext(NodeOf(raw[..]), key)
  {
    var n := NoKeys(raw[..]);
    ghost var es := NodeOf(raw[..]).ents;
    var i := 0;
    while i < n
      invariant i <= n && forall j :: 0 <= j < i ==> es[j].key <= key
    {
      if key < KeyAt(raw[..], i) {
        RankAboveIs(es, key, i);
        return Some(SonAt(raw[..], i)), NIL;
      }
      i := i + 1;
    }
    RankAboveIs(es, key, i);
    return None, Sibling(raw[..]);
  }

  method LeafSearchRange(raw: array<Byte>, l: Uuid, r: Uuid) returns (uuids: seq<Uuid>, sibling: Uuid)
    requires WellFormed(raw[..])
    ensures sibling == LeafRange(NodeOf(raw[..]), l, r).1
    ensures |uuids| == |LeafRange(NodeOf(raw[..]), l, r).0|
    ensures forall i :: 0 <= i < |uuids| ==> uuids[i] == LeafRange(NodeOf(raw[..]), l, r).0[i].son
  {
    var s := raw[..];
    var lo := FindSlot(s, l);
    var k;
    uuids, k := CollectUpTo(s, lo, r);
    sibling := if k == NoKeys(s) then Sibling(s) else NIL;
    RangeIs(NodeOf(s), l, r, lo, k, uuids);
  }

  /** The slots read are the range of the node. */
  lemma RangeIs(n: Node, l: Uuid, r: Uuid, lo: nat, k: nat, uuids: seq<Uuid>)
    requires lo == Rank(n.ents, l) && k == lo + RankAbove(n.ents[lo..], r) && |uuids| == k - lo
    requires forall j :: 0 <= j < k - lo ==> uuids[j] == n.ents[lo + j].son
    ensures var (es, sibling) := LeafRange(n, l, r);
            && sibling == (if k == |n.ents| then n.sibling else NIL) && |uuids| == |es|
            && forall i :: 0 <= i < |uuids| ==> uuids[i] == es[i].son
  {
  }

  /** The sons from slot `lo` on, as long as the keys do not exceed `r`. */
  method CollectUpTo(s: Raw, lo: nat, r: Uuid) returns (uuids: seq<Uuid>, k: nat)
    requires WellFormed(s) && lo <= NoKeys(s)
    ensures var es := NodeOf(s).ents;
      && k == lo + RankAbove(es[lo..], r) && |uuids| == k - lo
      && forall j :: 0 <= j < k - lo ==> uuids[j] == es[lo + j].son
  {
    ghost var es := NodeOf(s).ents;
    k := lo;
    uuids := [];
    while k < NoKeys(s)
      invariant lo <= k <= NoKeys(s) && Collects(es, lo, k, r, uuids)
    {
      var e := SlotAt(s, k);
      if e.key > r {
        break;
      }
      uuids := uuids + [e.son];
      k := k + 1;
    }
    CollectedAll(es, lo, k, r, uuids);
  }

  ghost predicate Collects(es: seq<Entry>, lo: nat, k: nat, r: Uuid, uuids: seq<Uuid>) {
    && lo <= k <= |es| && |uuids| == k - lo
    && forall j :: lo <= j < k ==> es[j].key <= r && uuids[j - lo] == es[j].son
  }

  lemma CollectedAll(es: seq<Entry>, lo: nat, k: nat, r: Uuid, uuids: seq<Uuid>)
    requires Collects(es, lo, k, r, uuids) && (k < |es| ==> es[k].key > r)
    ensures k == lo + RankAbove(es[lo..], r)
    ensures forall j :: 0 <= j < k - lo ==> uuids[j] == es[lo + j].son
  {
    var tail := es[lo..];
    assert forall j :: 0 <= j < k - lo ==> tail[j] == es[lo + j];
    RankAboveIs(tail, r, k - lo);
  }
}
