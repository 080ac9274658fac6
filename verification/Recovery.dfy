/** Addresses of data items and the records of the write-ahead log. */
module LogRecords {
  import opened Types
  import opened Bytes

  const MAX_PGNO: nat := 0xFFFF_FFFF
  const MAX_OFFSET: nat := 0xFFFF

  /** A data item's address: page number in the high half, offset in the low 16 bits. */
  function AddressToUuid(pgno: nat, off: nat): Uuid
    requires pgno <= MAX_PGNO && off <= MAX_OFFSET
  {
    pgno * 0x1_0000_0000 + off
  }

  function UuidToAddress(u: Uuid): (nat, nat) {
    (u / 0x1_0000_0000, u % 0x1_0000)
  }

  lemma AddressRoundTrip(pgno: nat, off: nat)
    requires pgno <= MAX_PGNO && off <= MAX_OFFSET
    ensures UuidToAddress(AddressToUuid(pgno, off)) == (pgno, off)
  {
    HighHalf(pgno, off);
    LowHalf(pgno * 0x1_0000, off);
    assert pgno * 0x1_0000_0000 == (pgno * 0x1_0000) * 0x1_0000;
  }

  lemma HighHalf(high: nat, low: nat)
    requires low < 0x1_0000_0000
    ensures (high * 0x1_0000_0000 + low) / 0x1_0000_0000 == high
  {
  }

  lemma LowHalf(high: nat, low: nat)
    requires low < 0x1_0000
    ensures (high * 0x1_0000 + low) % 0x1_0000 == low
  {
  }

  datatype Rec =
    | Insertion(xid: nat, pgno: nat, off: nat, raw: seq<Byte>)
    | Update(xid: nat, pgno: nat, off: nat, before: seq<Byte>, after: seq<Byte>)

  predicate Storable(r: Rec) {
    && r.xid <= INF && r.pgno <= MAX_PGNO && r.off <= MAX_OFFSET
    && (r.Update? ==> |r.before| == |r.after|)
  }

  /** The payload written to the log. */
  function Encode(r: Rec): seq<Byte>
    requires Storable(r)
  {
    match r
    case Insertion(xid, pgno, off, raw) => [0] + Put(xid, 8) + Put(pgno, 4) + Put(off, 2) + raw
    case Update(xid, pgno, off, before, after) => [1] + Put(xid, 8) + Put(AddressToUuid(pgno, off), 8) + before + after
  }

  /** Any payload that starts with 0 is read as an insertion, everything else as an update. */
  function Decode(log: seq<Byte>): Rec
    requires |log| >= 17
  {
    var xid := Parse(log[1..9]);
    if log[0] == 0 then Insertion(xid, Parse(log[9..13]), Parse(log[13..15]), log[15..])
    else
      var (pgno, off) := (Widths(); UuidToAddress(Parse(log[9..17])));
      var n := (|log| - 17) / 2;
      Update(xid, pgno, off, log[17..17 + n], log[17 + n..17 + 2 * n])
  }

  lemma InsertionParts(t: seq<Byte>, x: seq<Byte>, p: seq<Byte>, o: seq<Byte>, raw: seq<Byte>)
    requires |t| == 1 && |x| == 8 && |p| == 4 && |o| == 2
    ensures var log := t + x + p + o + raw;
            log[0] == t[0] && log[1..9] == x && log[9..13] == p && log[13..15] == o && log[15..] == raw
  {
  }

  lemma UpdateParts(t: seq<Byte>, x: seq<Byte>, u: seq<Byte>, a: seq<Byte>, b: seq<Byte>)
    requires |t| == 1 && |x| == 8 && |u| == 8 && |a| == |b|
    ensures var log, n := t + x + u + a + b, |a|;
            && |log| == 17 + 2 * n && log[0] == t[0] && log[1..9] == x && log[9..17] == u
            && log[17..17 + n] == a && log[17 + n..17 + 2 * n] == b
  {
  }

  lemma DecodeInsertion(r: Rec)
    requires r.Insertion? && Storable(r) && |r.raw| >= 2
    ensures |Encode(r)| >= 17 && Decode(Encode(r)) == r
  {
    Widths();
    InsertionParts([0], Put(r.xid, 8), Put(r.pgno, 4), Put(r.off, 2), r.raw);
    ParsePut(r.xid, 8);
    ParsePut(r.pgno, 4);
    ParsePut(r.off, 2);
  }

  lemma DecodeUpdate(r: Rec)
    requires r.Update? && Storable(r)
    ensures |Encode(r)| >= 17 && Decode(Encode(r)) == r
  {
    Widths();
    var u := AddressToUuid(r.pgno, r.off);
    UpdateParts([1], Put(r.xid, 8), Put(u, 8), r.before, r.after);
    ParsePut(r.xid, 8);
    ParsePut(u, 8);
    AddressRoundTrip(r.pgno, r.off);
  }

  /** Recovery reads every record as it was logged. */
  lemma DecodeEncode(r: Rec)
    requires Storable(r) && (r.Insertion? ==> |r.raw| >= 2)
    ensures |Encode(r)| >= 17 && Decode(Encode(r)) == r
  {
    if r.Insertion? {
      DecodeInsertion(r);
    } else {
      DecodeUpdate(r);
    }
  }
}

/** Redo, undo and what they leave on the pages. */
module Recovery {
  import opened Types
  import opened Bytes
  import opened LogRecords

  type Pages = map<nat, seq<Byte>>

  const INVALID: Byte := 1

  /* ----- writes to pages ----- */

  /** The free-space offset in the first two bytes of a page. */
  function Fso(pg: seq<Byte>): nat
    requires |pg| == PAGE_SIZE
  {
    Parse(pg[0..2])
  }

  predicate ValidFso(f: nat) {
    2 <= f <= PAGE_SIZE
  }

  /** `PXRecoverInsert`'s new offset: an offset out of bounds is replaced for the comparison only. */
  function NextFso(current: nat, end: nat): nat {
    var trusted := if ValidFso(current) then current else end;
    if end > trusted then end else current
  }

  /** One page write of recovery; `fso` says whether the free-space offset is looked after. */
  datatype Write = Write(pgno: nat, off: nat, bs: seq<Byte>, fso: bool)

  /** The write lies behind the free-space offset and within a page. */
  predicate Fits(w: Write) {
    2 <= w.off && |w.bs| > 0 && w.off + |w.bs| <= PAGE_SIZE
  }

  function ApplyToPage(pg: seq<Byte>, w: Write): (r: seq<Byte>)
    requires |pg| == PAGE_SIZE && Fits(w)
    ensures |r| == PAGE_SIZE
  {
    var pg1 := Splice(pg, w.off, w.bs);
    if w.fso then Splice(pg1, 0, Put(NextFso(Fso(pg1), w.off + |w.bs|), 2)) else pg1
  }

  ghost predicate Stored(ps: Pages, w: Write) {
    w.pgno in ps && |ps[w.pgno]| == PAGE_SIZE && Fits(w)
  }

  ghost predicate AllPages(ps: Pages) {
    forall p :: p in ps ==> |ps[p]| == PAGE_SIZE
  }

  function Apply(ps: Pages, w: Write): Pages
    requires w.pgno in ps && |ps[w.pgno]| == PAGE_SIZE && Fits(w)
  {
    ps[w.pgno := ApplyToPage(ps[w.pgno], w)]
  }

  ghost predicate AllStored(ps: Pages, ws: seq<Write>) {
    forall i :: 0 <= i < |ws| ==> ws[i].pgno in ps && Fits(ws[i])
  }

  ghost function ApplyAll(ps: Pages, ws: seq<Write>): (r: Pages)
    requires AllPages(ps) && AllStored(ps, ws)
    ensures AllPages(r) && r.Keys == ps.Keys
    decreases |ws|
  {
    if ws == [] then ps
    else
      var n := |ws| - 1;
      Apply(ApplyAll(ps, ws[..n]), ws[n])
  }

  lemma {:induction false} ApplyAppend(ps: Pages, a: seq<Write>, b: seq<Write>)
    requires AllPages(ps) && AllStored(ps, a) && AllStored(ps, b)
    ensures AllStored(ps, a + b) && ApplyAll(ps, a + b) == ApplyAll(ApplyAll(ps, a), b)
    decreases |b|
  {
    if b == [] {
      assert a + b == a;
    } else {
      var n := |b| - 1;
      assert (a + b)[..|a + b| - 1] == a + b[..n];
      ApplyAppend(ps, a, b[..n]);
    }
  }

  /* ----- what a write does to the bytes of an item ----- */

  /** A data item's place. */
  datatype Item = Item(pgno: nat, off: nat, len: nat)

  function Place(w: Write): Item {
    Item(w.pgno, w.off, |w.bs|)
  }

  predicate Apart(a: Item, b: Item) {
    a.pgno != b.pgno || a.off + a.len <= b.off || b.off + b.len <= a.off
  }

  function BytesAt(ps: Pages, it: Item): seq<Byte>
    requires it.pgno in ps && |ps[it.pgno]| == PAGE_SIZE && it.off + it.len <= PAGE_SIZE
  {
    ps[it.pgno][it.off..it.off + it.len]
  }

  lemma WriteHits(ps: Pages, w: Write)
    requires Stored(ps, w)
    ensures BytesAt(Apply(ps, w), Place(w)) == w.bs
  {
    var pg := ps[w.pgno];
    var pg1 := Splice(pg, w.off, w.bs);
    SpliceWithin(pg, w.off, w.bs, 0, |w.bs|);
    if w.fso {
      SpliceBeside(pg1, 0, Put(NextFso(Fso(pg1), w.off + |w.bs|), 2), w.off, w.off + |w.bs|);
    }
  }

  lemma WriteMisses(ps: Pages, w: Write, it: Item)
    requires Stored(ps, w) && it.pgno in ps && |ps[it.pgno]| == PAGE_SIZE
    requires 2 <= it.off && it.off + it.len <= PAGE_SIZE && Apart(Place(w), it)
    ensures BytesAt(Apply(ps, w), it) == BytesAt(ps, it)
  {
    if w.pgno == it.pgno {
      var pg := ps[w.pgno];
      var pg1 := Splice(pg, w.off, w.bs);
      SpliceBeside(pg, w.off, w.bs, it.off, it.off + it.len);
      if w.fso {
        SpliceBeside(pg1, 0, Put(NextFso(Fso(pg1), w.off + |w.bs|), 2), it.off, it.off + it.len);
      }
    }
  }

  /** The bytes of the last write to `it`. */
  function LastTo(ws: seq<Write>, it: Item): Option<seq<Byte>>
    decreases |ws|
  {
    if ws == [] then None
    else if Place(ws[|ws| - 1]) == it then Some(ws[|ws| - 1].bs)
    else LastTo(ws[..|ws| - 1], it)
  }

  lemma {:induction false} LastToAppend(a: seq<Write>, b: seq<Write>, it: Item)
    ensures LastTo(a + b, it) == if LastTo(b, it).Some? then LastTo(b, it) else LastTo(a, it)
    decreases |b|
  {
    if b == [] {
      assert a + b == a;
    } else {
      assert (a + b)[..|a + b| - 1] == a + b[..|b| - 1];
      LastToAppend(a, b[..|b| - 1], it);
    }
  }

  /** If every write hits `it` exactly or misses it, the item holds the last write to it. */
  lemma {:induction false} ItemAfter(ps: Pages, ws: seq<Write>, it: Item)
    requires AllPages(ps) && AllStored(ps, ws) && it.pgno in ps && 2 <= it.off && it.off + it.len <= PAGE_SIZE
    requires forall i :: 0 <= i < |ws| ==> Place(ws[i]) == it || Apart(Place(ws[i]), it)
    ensures BytesAt(ApplyAll(ps, ws), it) ==
            if LastTo(ws, it).Some? then LastTo(ws, it).value else BytesAt(ps, it)
    decreases |ws|
  {
    if ws != [] {
      var n := |ws| - 1;
      ItemAfter(ps, ws[..n], it);
      var ps1 := ApplyAll(ps, ws[..n]);
      if Place(ws[n]) == it {
        WriteHits(ps1, ws[n]);
      } else {
        WriteMisses(ps1, ws[n], it);
      }
    }
  }

  /* ----- the writes of a recovery ----- */

  function RecPlace(r: Rec): Item {
    Item(r.pgno, r.off, if r.Insertion? then |r.raw| else |r.after|)
  }

  /** The bytes a record leaves in its item. */
  function NewBytes(r: Rec): seq<Byte> {
    if r.Insertion? then r.raw else r.after
  }

  function Flagged(raw: seq<Byte>): seq<Byte>
    requires |raw| > 0
  {
    raw[0 := INVALID]
  }

  function Redo(r: Rec): Write {
    Write(r.pgno, r.off, NewBytes(r), r.Insertion?)
  }

  function Undo(r: Rec): Write
    requires r.Insertion? ==> |r.raw| > 0
  {
    if r.Insertion? then Write(r.pgno, r.off, Flagged(r.raw), true)
    else Write(r.pgno, r.off, r.before, false)
  }

  /** Every record lies within its page, behind the free-space offset. */
  ghost predicate Framed(recs: seq<Rec>) {
    forall i :: 0 <= i < |recs| ==>
      Fits(Redo(recs[i])) && (recs[i].Update? ==> |recs[i].before| == |recs[i].after|)
  }

  /** The redo pass: the records of transactions that are not active, in log order. */
  function RedoWrites(recs: seq<Rec>, active: set<nat>): seq<Write>
    decreases |recs|
  {
    if recs == [] then []
    else
      var n := |recs| - 1;
      RedoWrites(recs[..n], active) + if recs[n].xid in active then [] else [Redo(recs[n])]
  }

  /** The undo of one transaction: its records, last one first. */
  ghost function UndoOf(recs: seq<Rec>, x: nat): seq<Write>
    requires Framed(recs)
    decreases |recs|
  {
    if recs == [] then []
    else
      var n := |recs| - 1;
      (if recs[n].xid == x then [Undo(recs[n])] else []) + UndoOf(recs[..n], x)
  }

  /** The undo pass, taking the transactions in the order `xs`. */
  ghost function UndoAll(recs: seq<Rec>, xs: seq<nat>): seq<Write>
    requires Framed(recs)
    decreases |xs|
  {
    if xs == [] then [] else UndoAll(recs, xs[..|xs| - 1]) + UndoOf(recs, xs[|xs| - 1])
  }

  /** `xs` lists the active transactions of the log, each once. */
  ghost predicate Order(recs: seq<Rec>, active: set<nat>, xs: seq<nat>) {
    && (forall i, j :: 0 <= i < j < |xs| ==> xs[i] != xs[j])
    && (forall i :: 0 <= i < |xs| ==> xs[i] in active)
    && (forall i :: 0 <= i < |recs| && recs[i].xid in active ==> recs[i].xid in xs)
  }

  ghost function RecoveryWrites(recs: seq<Rec>, active: set<nat>, xs: seq<nat>): seq<Write>
    requires Framed(recs)
  {
    RedoWrites(recs, active) + UndoAll(recs, xs)
  }

  /* ----- the log ----- */

  /** The item's bytes after the whole log, by its last record. */
  function Image(recs: seq<Rec>, it: Item): Option<seq<Byte>>
    decreases |recs|
  {
    if recs == [] then None
    else if RecPlace(recs[|recs| - 1]) == it then Some(NewBytes(recs[|recs| - 1]))
    else Image(recs[..|recs| - 1], it)
  }

  /** The item's bytes by its last record from a transaction that is not active. */
  function Settled(recs: seq<Rec>, active: set<nat>, it: Item): Option<seq<Byte>>
    decreases |recs|
  {
    if recs == [] then None
    else if RecPlace(recs[|recs| - 1]) == it && recs[|recs| - 1].xid !in active
    then Some(NewBytes(recs[|recs| - 1]))
    else Settled(recs[..|recs| - 1], active, it)
  }

  ghost predicate InsertsAt(recs: seq<Rec>, i: int, it: Item) {
    0 <= i < |recs| && recs[i].Insertion? && RecPlace(recs[i]) == it
  }

  /** Inserted items do not overlap. */
  ghost predicate InsertsApart(recs: seq<Rec>) {
    forall i, j :: 0 <= i < j < |recs| && recs[i].Insertion? && recs[j].Insertion? ==>
      Apart(RecPlace(recs[i]), RecPlace(recs[j]))
  }

  /** An update rewrites a whole item that is there, and its old image is the item's previous image. */
  ghost predicate UpdatesFollow(recs: seq<Rec>) {
    forall j :: 0 <= j < |recs| && recs[j].Update? ==>
      && (exists i :: 0 <= i < j && InsertsAt(recs, i, RecPlace(recs[j])))
      && Image(recs[..j], RecPlace(recs[j])) == Some(recs[j].before)
  }

  ghost predicate WellFormed(recs: seq<Rec>) {
    Framed(recs) && InsertsApart(recs) && UpdatesFollow(recs)
  }

  /** Once an active transaction has written an item, no other transaction writes it. */
  ghost predicate ActiveLast(recs: seq<Rec>, active: set<nat>) {
    forall i, j :: 0 <= i < j < |recs| && RecPlace(recs[i]) == RecPlace(recs[j]) && recs[i].xid in active ==>
      recs[j].xid == recs[i].xid
  }

  lemma PrefixWellFormed(recs: seq<Rec>, n: nat)
    requires WellFormed(recs) && n <= |recs|
    ensures WellFormed(recs[..n])
  {
    var pre := recs[..n];
    forall j | 0 <= j < n && pre[j].Update?
      ensures exists i :: 0 <= i < j && InsertsAt(pre, i, RecPlace(pre[j]))
      ensures Image(pre[..j], RecPlace(pre[j])) == Some(pre[j].before)
    {
      assert pre[..j] == recs[..j];
      var i :| 0 <= i < j && InsertsAt(recs, i, RecPlace(recs[j]));
      assert InsertsAt(pre, i, RecPlace(pre[j]));
    }
  }

  /** Records concern the same item or items that do not overlap. */
  lemma SameOrApart(recs: seq<Rec>, i: nat, j: nat)
    requires WellFormed(recs) && i < |recs| && j < |recs|
    ensures RecPlace(recs[i]) == RecPlace(recs[j]) || Apart(RecPlace(recs[i]), RecPlace(recs[j]))
  {
    var a, b := Inserter(recs, i), Inserter(recs, j);
  }

  ghost function Inserter(recs: seq<Rec>, j: nat): (i: nat)
    requires WellFormed(recs) && j < |recs|
    ensures i <= j && InsertsAt(recs, i, RecPlace(recs[j]))
  {
    if recs[j].Insertion? then j else
      var i :| 0 <= i < j && InsertsAt(recs, i, RecPlace(recs[j]));
      i
  }

  /* ----- which writes there are ----- */

  ghost predicate FromRec(w: Write, recs: seq<Rec>, i: nat) {
    && i < |recs|
    && Place(w) == RecPlace(recs[i]) && w.fso == recs[i].Insertion?
    && Fits(w)
  }

  lemma {:induction false} RedoFrom(recs: seq<Rec>, active: set<nat>, k: nat) returns (i: nat)
    requires Framed(recs) && k < |RedoWrites(recs, active)|
    ensures FromRec(RedoWrites(recs, active)[k], recs, i)
    decreases |recs|
  {
    var n := |recs| - 1;
    var ws := RedoWrites(recs[..n], active);
    if k < |ws| {
      i := RedoFrom(recs[..n], active, k);
    } else {
      i := n;
    }
  }

  lemma {:induction false} UndoOfFrom(recs: seq<Rec>, x: nat, k: nat) returns (i: nat)
    requires Framed(recs) && k < |UndoOf(recs, x)|
    ensures FromRec(UndoOf(recs, x)[k], recs, i) && recs[i].xid == x
    decreases |recs|
  {
    var n := |recs| - 1;
    if recs[n].xid == x {
      if k == 0 {
        i := n;
      } else {
        i := UndoOfFrom(recs[..n], x, k - 1);
      }
    } else {
      i := UndoOfFrom(recs[..n], x, k);
    }
  }

  lemma {:induction false} UndoAllFrom(recs: seq<Rec>, xs: seq<nat>, k: nat) returns (i: nat)
    requires Framed(recs) && k < |UndoAll(recs, xs)|
    ensures FromRec(UndoAll(recs, xs)[k], recs, i) && recs[i].xid in xs
    decreases |xs|
  {
    var n := |xs| - 1;
    var ws := UndoAll(recs, xs[..n]);
    if k < |ws| {
      i := UndoAllFrom(recs, xs[..n], k);
    } else {
      i := UndoOfFrom(recs, xs[n], k - |ws|);
    }
  }

  /** Every write of a recovery goes to the place of some record. */
  lemma WritesFrom(recs: seq<Rec>, active: set<nat>, xs: seq<nat>, k: nat) returns (i: nat)
    requires Framed(recs) && k < |RecoveryWrites(recs, active, xs)|
    ensures FromRec(RecoveryWrites(recs, active, xs)[k], recs, i)
  {
    var m := |RedoWrites(recs, active)|;
    if k < m {
      i := RedoFrom(recs, active, k);
    } else {
      i := UndoAllFrom(recs, xs, k - m);
    }
  }

  ghost predicate HoldsPages(ps: Pages, recs: seq<Rec>) {
    AllPages(ps) && forall i :: 0 <= i < |recs| ==> recs[i].pgno in ps
  }

  lemma WritesStored(ps: Pages, recs: seq<Rec>, active: set<nat>, xs: seq<nat>)
    requires Framed(recs) && HoldsPages(ps, recs)
    ensures AllStored(ps, RecoveryWrites(recs, active, xs))
  {
    var ws := RecoveryWrites(recs, active, xs);
    forall k | 0 <= k < |ws| ensures ws[k].pgno in ps && Fits(ws[k]) {
      var i := WritesFrom(recs, active, xs, k);
    }
  }

  /** The pages after recovery. */
  ghost function Recovered(ps: Pages, recs: seq<Rec>, active: set<nat>, xs: seq<nat>): (r: Pages)
    requires Framed(recs) && HoldsPages(ps, recs)
    ensures AllPages(r) && r.Keys == ps.Keys
  {
    WritesStored(ps, recs, active, xs);
    ApplyAll(ps, RecoveryWrites(recs, active, xs))
  }

  /* ----- the last write to an item ----- */

  lemma {:induction false} RedoLast(recs: seq<Rec>, active: set<nat>, it: Item)
    ensures LastTo(RedoWrites(recs, active), it) == Settled(recs, active, it)
    decreases |recs|
  {
    if recs != [] {
      var n := |recs| - 1;
      RedoLast(recs[..n], active, it);
      var ws := RedoWrites(recs[..n], active);
      if recs[n].xid in active {
        assert ws + [] == ws;
      } else {
        assert (ws + [Redo(recs[n])])[..|ws|] == ws;
      }
    }
  }

  lemma {:induction false} NoLast(ws: seq<Write>, it: Item)
    requires forall k :: 0 <= k < |ws| ==> Place(ws[k]) != it
    ensures LastTo(ws, it) == None
    decreases |ws|
  {
    if ws != [] {
      NoLast(ws[..|ws| - 1], it);
    }
  }

  /** Transaction `x` has a record for the item. */
  ghost predicate Writes(recs: seq<Rec>, x: nat, it: Item) {
    exists i :: 0 <= i < |recs| && recs[i].xid == x && RecPlace(recs[i]) == it
  }

  lemma UndoOfOther(recs: seq<Rec>, x: nat, it: Item)
    requires Framed(recs) && !Writes(recs, x, it)
    ensures LastTo(UndoOf(recs, x), it) == None
  {
    var ws := UndoOf(recs, x);
    forall k | 0 <= k < |ws| ensures Place(ws[k]) != it {
      var i := UndoOfFrom(recs, x, k);
    }
    NoLast(ws, it);
  }

  /** The undo of the item's only writer among `xs` is the last one to touch the item. */
  lemma {:induction false} UndoAllLast(recs: seq<Rec>, xs: seq<nat>, x: nat, it: Item)
    requires Framed(recs) && x in xs
    requires forall y :: y in xs && y != x ==> !Writes(recs, y, it)
    ensures LastTo(UndoAll(recs, xs), it) == LastTo(UndoOf(recs, x), it)
    decreases |xs|
  {
    var n := |xs| - 1;
    var most, one := UndoAll(recs, xs[..n]), UndoOf(recs, xs[n]);
    LastToAppend(most, one, it);
    if xs[n] != x {
      UndoOfOther(recs, xs[n], it);
      UndoAllLast(recs, xs[..n], x, it);
    } else if LastTo(one, it).None? {
      if x in xs[..n] {
        UndoAllLast(recs, xs[..n], x, it);
      } else {
        UndoAllOthers(recs, xs[..n], it);
      }
    }
  }

  lemma {:induction false} UndoAllOthers(recs: seq<Rec>, xs: seq<nat>, it: Item)
    requires Framed(recs) && forall y :: y in xs ==> !Writes(recs, y, it)
    ensures LastTo(UndoAll(recs, xs), it) == None
    decreases |xs|
  {
    if xs != [] {
      var n := |xs| - 1;
      LastToAppend(UndoAll(recs, xs[..n]), UndoOf(recs, xs[n]), it);
      UndoOfOther(recs, xs[n], it);
      UndoAllOthers(recs, xs[..n], it);
    }
  }

  lemma {:induction false} ImageSettled(recs: seq<Rec>, active: set<nat>, it: Item)
    requires forall i :: 0 <= i < |recs| && RecPlace(recs[i]) == it ==> recs[i].xid !in active
    ensures Image(recs, it) == Settled(recs, active, it)
    decreases |recs|
  {
    if recs != [] {
      ImageSettled(recs[..|recs| - 1], active, it);
    }
  }

  /** The flagged bytes of an item that an active transaction inserted. */
  ghost function Withdrawn(recs: seq<Rec>, active: set<nat>, it: Item): Option<seq<Byte>>
    requires Framed(recs)
    decreases |recs|
  {
    if recs == [] then None
    else
      var n := |recs| - 1;
      if InsertsAt(recs, n, it) && recs[n].xid in active then Some(Flagged(recs[n].raw))
      else Withdrawn(recs[..n], active, it)
  }

  /** The bytes recovery owes an item: flagged if an active transaction inserted it, else settled. */
  ghost function Owed(recs: seq<Rec>, active: set<nat>, it: Item): Option<seq<Byte>>
    requires Framed(recs)
  {
    var w := Withdrawn(recs, active, it);
    if w.Some? then w else Settled(recs, active, it)
  }

  lemma {:induction false} NotWithdrawn(recs: seq<Rec>, active: set<nat>, it: Item)
    requires Framed(recs) && forall i :: InsertsAt(recs, i, it) ==> recs[i].xid !in active
    ensures Withdrawn(recs, active, it) == None
    decreases |recs|
  {
    if recs != [] {
      var n := |recs| - 1;
      forall i | InsertsAt(recs[..n], i, it) ensures recs[..n][i].xid !in active {
        assert InsertsAt(recs, i, it);
      }
      NotWithdrawn(recs[..n], active, it);
    }
  }

  /** An item is inserted once. */
  lemma OneInsert(recs: seq<Rec>, i: nat, j: nat, it: Item)
    requires Framed(recs) && InsertsApart(recs) && InsertsAt(recs, i, it) && InsertsAt(recs, j, it)
    ensures i == j
  {
  }

  /** Undoing an active transaction leaves the item what recovery owes it: its first record decides. */
  lemma {:induction false} UndoLast(recs: seq<Rec>, active: set<nat>, x: nat, it: Item)
    requires WellFormed(recs) && ActiveLast(recs, active) && x in active && Writes(recs, x, it)
    ensures LastTo(UndoOf(recs, x), it) == Owed(recs, active, it)
    decreases |recs|
  {
    var n := |recs| - 1;
    var pre := recs[..n];
    PrefixWellFormed(recs, n);
    PrefixActiveLast(recs, active, n);
    UndoOfStep(recs, x, it);
    WritesStep(recs, x, it);
    if Writes(pre, x, it) {
      UndoLast(pre, active, x, it);
      UndoTouches(pre, x, it);
      OwedLater(recs, active, x, it);
    } else {
      UndoOfOther(pre, x, it);
      FirstOwed(recs, active, it);
    }
  }

  lemma PrefixActiveLast(recs: seq<Rec>, active: set<nat>, n: nat)
    requires ActiveLast(recs, active) && n <= |recs|
    ensures ActiveLast(recs[..n], active)
  {
  }

  lemma WritesStep(recs: seq<Rec>, x: nat, it: Item)
    requires Writes(recs, x, it)
    ensures recs != []
    ensures Writes(recs[..|recs| - 1], x, it) || (recs[|recs| - 1].xid == x && RecPlace(recs[|recs| - 1]) == it)
  {
    var i :| 0 <= i < |recs| && recs[i].xid == x && RecPlace(recs[i]) == it;
    if i < |recs| - 1 {
      assert recs[..|recs| - 1][i] == recs[i];
    }
  }

  lemma UndoOfStep(recs: seq<Rec>, x: nat, it: Item)
    requires Framed(recs) && recs != [] && Framed(recs[..|recs| - 1])
    ensures var r, earlier := recs[|recs| - 1], LastTo(UndoOf(recs[..|recs| - 1], x), it);
            LastTo(UndoOf(recs, x), it) ==
            if earlier.Some? then earlier
            else if r.xid == x && RecPlace(r) == it then Some(Undo(r).bs) else None
  {
    var n := |recs| - 1;
    var head := if recs[n].xid == x then [Undo(recs[n])] else [];
    LastToAppend(head, UndoOf(recs[..n], x), it);
    assert head != [] ==> LastTo(head[..0], it) == None;
  }

  /** Later records of the same active transaction do not change what is owed. */
  lemma OwedLater(recs: seq<Rec>, active: set<nat>, x: nat, it: Item)
    requires WellFormed(recs) && ActiveLast(recs, active) && x in active && recs != []
    requires Framed(recs[..|recs| - 1]) && Writes(recs[..|recs| - 1], x, it)
    ensures Owed(recs, active, it) == Owed(recs[..|recs| - 1], active, it)
  {
    var n := |recs| - 1;
    var pre := recs[..n];
    var k :| 0 <= k < n && pre[k].xid == x && RecPlace(pre[k]) == it;
    var a := Inserter(recs, k);
    forall i | InsertsAt(recs, i, it) ensures i == a {
      OneInsert(recs, i, a, it);
    }
    if RecPlace(recs[n]) == it {
      assert recs[k].xid in active && recs[n].xid == x;
    }
  }

  /** The first record of an active transaction for an item holds what is owed. */
  lemma FirstOwed(recs: seq<Rec>, active: set<nat>, it: Item)
    requires WellFormed(recs) && ActiveLast(recs, active) && recs != []
    requires RecPlace(recs[|recs| - 1]) == it && recs[|recs| - 1].xid in active
    requires !Writes(recs[..|recs| - 1], recs[|recs| - 1].xid, it)
    ensures Owed(recs, active, it) == Some(Undo(recs[|recs| - 1]).bs)
  {
    var n := |recs| - 1;
    var r, pre := recs[n], recs[..n];
    forall i | 0 <= i < n && RecPlace(pre[i]) == it ensures pre[i].xid !in active {
      assert pre[i] == recs[i];
    }
    if r.Insertion? {
      assert InsertsAt(recs, n, it);
    } else {
      forall i | InsertsAt(pre, i, it) ensures pre[i].xid !in active {
      }
      NotWithdrawn(pre, active, it);
      ImageSettled(pre, active, it);
    }
  }

  /* ----- the main results ----- */

  /**
   * Every logged item ends up with the bytes it is owed, whatever was on the pages and in
   * whatever order the active transactions are undone.
   */
  lemma RecoveredItem(ps: Pages, recs: seq<Rec>, active: set<nat>, xs: seq<nat>, i: nat)
    requires WellFormed(recs) && ActiveLast(recs, active) && HoldsPages(ps, recs) && Order(recs, active, xs)
    requires i < |recs|
    ensures var it := RecPlace(recs[i]);
            Some(BytesAt(Recovered(ps, recs, active, xs), it)) == Owed(recs, active, it)
  {
    var it := RecPlace(recs[i]);
    var ws := RecoveryWrites(recs, active, xs);
    WritesStored(ps, recs, active, xs);
    forall k | 0 <= k < |ws| ensures Place(ws[k]) == it || Apart(Place(ws[k]), it) {
      var j := WritesFrom(recs, active, xs, k);
      SameOrApart(recs, j, i);
    }
    ItemAfter(ps, ws, it);
    LastToAppend(RedoWrites(recs, active), UndoAll(recs, xs), it);
    RedoLast(recs, active, it);
    LastWriteIsOwed(recs, active, xs, i);
  }

  lemma LastWriteIsOwed(recs: seq<Rec>, active: set<nat>, xs: seq<nat>, i: nat)
    requires WellFormed(recs) && ActiveLast(recs, active) && Order(recs, active, xs) && i < |recs|
    ensures var it := RecPlace(recs[i]);
            var undone, owed := LastTo(UndoAll(recs, xs), it), Owed(recs, active, it);
            owed.Some? && owed == if undone.Some? then undone else Settled(recs, active, it)
  {
    var it := RecPlace(recs[i]);
    if x :| x in active && Writes(recs, x, it) {
      forall y | y in xs && y != x ensures !Writes(recs, y, it) {
        OneActiveWriter(recs, active, x, y, it);
      }
      UndoAllLast(recs, xs, x, it);
      UndoLast(recs, active, x, it);
      UndoTouches(recs, x, it);
    } else {
      assert forall x :: x in active ==> !Writes(recs, x, it);
      UndoAllOthers(recs, xs, it);
      NotWithdrawn(recs, active, it);
      SettledSome(recs, active, i);
    }
  }

  lemma OneActiveWriter(recs: seq<Rec>, active: set<nat>, x: nat, y: nat, it: Item)
    requires ActiveLast(recs, active) && x in active && y in active && x != y && Writes(recs, x, it)
    ensures !Writes(recs, y, it)
  {
    var i :| 0 <= i < |recs| && recs[i].xid == x && RecPlace(recs[i]) == it;
    forall j | 0 <= j < |recs| && recs[j].xid == y ensures RecPlace(recs[j]) != it {
      assert i < j || j < i;
    }
  }

  lemma {:induction false} UndoTouches(recs: seq<Rec>, x: nat, it: Item)
    requires Framed(recs) && Writes(recs, x, it)
    ensures LastTo(UndoOf(recs, x), it).Some?
    decreases |recs|
  {
    var n := |recs| - 1;
    UndoOfStep(recs, x, it);
    if Writes(recs[..n], x, it) {
      UndoTouches(recs[..n], x, it);
    }
  }

  lemma {:induction false} SettledSome(recs: seq<Rec>, active: set<nat>, i: nat)
    requires i < |recs| && recs[i].xid !in active
    ensures Settled(recs, active, RecPlace(recs[i])).Some?
    decreases |recs|
  {
    if i < |recs| - 1 {
      SettledSome(recs[..|recs| - 1], active, i);
    }
  }

  /** Bytes outside every item and outside the free-space offsets are left alone. */
  lemma RecoveredElsewhere(ps: Pages, recs: seq<Rec>, active: set<nat>, xs: seq<nat>, it: Item)
    requires WellFormed(recs) && HoldsPages(ps, recs)
    requires it.pgno in ps && 2 <= it.off && it.off + it.len <= PAGE_SIZE
    requires forall i :: 0 <= i < |recs| ==> RecPlace(recs[i]) != it && Apart(RecPlace(recs[i]), it)
    ensures BytesAt(Recovered(ps, recs, active, xs), it) == BytesAt(ps, it)
  {
    var ws := RecoveryWrites(recs, active, xs);
    WritesStored(ps, recs, active, xs);
    forall k | 0 <= k < |ws| ensures Place(ws[k]) != it && Apart(Place(ws[k]), it) {
      var j := WritesFrom(recs, active, xs, k);
    }
    NoLast(ws, it);
    ItemAfter(ps, ws, it);
  }

  /* ----- free-space offsets ----- */

  lemma WriteFso(ps: Pages, w: Write, p: nat)
    requires Stored(ps, w) && AllPages(ps) && p in ps
    ensures Fso(Apply(ps, w)[p]) ==
            if w.pgno == p && w.fso then NextFso(Fso(ps[p]), w.off + |w.bs|) else Fso(ps[p])
  {
    if w.pgno == p {
      var pg := ps[p];
      var pg1 := Splice(pg, w.off, w.bs);
      SpliceBeside(pg, w.off, w.bs, 0, 2);
      if w.fso {
        var f := NextFso(Fso(pg1), w.off + |w.bs|);
        Widths();
        ParsePut(f, 2);
        SpliceWithin(pg1, 0, Put(f, 2), 0, 2);
        assert Put(f, 2)[0..2] == Put(f, 2);
      }
    }
  }

  predicate Raises(w: Write, p: nat) {
    w.pgno == p && w.fso
  }

  /** A valid offset becomes the maximum of itself and the ends of the writes; any other stays as it is. */
  lemma {:induction false} FsoAfter(ps: Pages, ws: seq<Write>, p: nat)
    requires AllPages(ps) && AllStored(ps, ws) && p in ps
    ensures var was, now := Fso(ps[p]), Fso(ApplyAll(ps, ws)[p]);
            if ValidFso(was) then
              && ValidFso(now) && was <= now
              && (forall k :: 0 <= k < |ws| && Raises(ws[k], p) ==> ws[k].off + |ws[k].bs| <= now)
              && (now == was || exists k :: 0 <= k < |ws| && Raises(ws[k], p) && ws[k].off + |ws[k].bs| == now)
            else now == was
    decreases |ws|
  {
    if ws != [] {
      var n := |ws| - 1;
      FsoAfter(ps, ws[..n], p);
      WriteFso(ApplyAll(ps, ws[..n]), ws[n], p);
      var was, mid, now := Fso(ps[p]), Fso(ApplyAll(ps, ws[..n])[p]), Fso(ApplyAll(ps, ws)[p]);
      if ValidFso(was) {
        if now != was && now == mid {
          var k :| 0 <= k < n && Raises(ws[..n][k], p) && ws[..n][k].off + |ws[..n][k].bs| == now;
          assert Raises(ws[k], p);
        } else if now != was {
          assert Raises(ws[n], p) && ws[n].off + |ws[n].bs| == now;
        }
        forall k | 0 <= k < |ws| && Raises(ws[k], p) ensures ws[k].off + |ws[k].bs| <= now {
          if k < n {
            assert ws[..n][k] == ws[k];
          }
        }
      }
    }
  }

  /** Every record is written: redone if its transaction is not active, undone otherwise. */
  lemma {:induction false} RedoReaches(recs: seq<Rec>, active: set<nat>, i: nat) returns (k: nat)
    requires Framed(recs) && i < |recs| && recs[i].xid !in active
    ensures k < |RedoWrites(recs, active)| && RedoWrites(recs, active)[k] == Redo(recs[i])
    decreases |recs|
  {
    var n := |recs| - 1;
    if i == n {
      k := |RedoWrites(recs[..n], active)|;
    } else {
      k := RedoReaches(recs[..n], active, i);
    }
  }

  lemma {:induction false} UndoReaches(recs: seq<Rec>, i: nat) returns (k: nat)
    requires Framed(recs) && i < |recs|
    ensures k < |UndoOf(recs, recs[i].xid)| && UndoOf(recs, recs[i].xid)[k] == Undo(recs[i])
    decreases |recs|
  {
    var n := |recs| - 1;
    if i == n {
      k := 0;
    } else {
      k := UndoReaches(recs[..n], i);
      if recs[n].xid == recs[i].xid {
        k := k + 1;
      }
    }
  }

  lemma {:induction false} UndoAllReaches(recs: seq<Rec>, xs: seq<nat>, i: nat) returns (k: nat)
    requires Framed(recs) && i < |recs| && recs[i].xid in xs
    ensures k < |UndoAll(recs, xs)| && UndoAll(recs, xs)[k] == Undo(recs[i])
    decreases |xs|
  {
    var n := |xs| - 1;
    if recs[i].xid == xs[n] {
      k := UndoReaches(recs, i);
      k := k + |UndoAll(recs, xs[..n])|;
    } else {
      k := UndoAllReaches(recs, xs[..n], i);
    }
  }

  /** The end of some item inserted into page `p`. */
  ghost predicate EndsAt(recs: seq<Rec>, i: int, p: nat, end: int) {
    0 <= i < |recs| && recs[i].Insertion? && recs[i].pgno == p && recs[i].off + |recs[i].raw| == end
  }

  /** Every insertion is among the writes, redone or undone. */
  lemma EndIsWritten(recs: seq<Rec>, active: set<nat>, xs: seq<nat>, i: nat) returns (k: nat)
    requires Framed(recs) && Order(recs, active, xs) && i < |recs| && recs[i].Insertion?
    ensures var ws := RecoveryWrites(recs, active, xs);
            k < |ws| && ws[k].pgno == recs[i].pgno && ws[k].fso && ws[k].off + |ws[k].bs| == recs[i].off + |recs[i].raw|
  {
    if recs[i].xid in active {
      k := UndoAllReaches(recs, xs, i);
      k := k + |RedoWrites(recs, active)|;
    } else {
      k := RedoReaches(recs, active, i);
    }
  }

  /**
   * A page's free-space offset becomes the maximum of the disk value and the logged ends, whatever
   * the statuses and the order, exactly if the disk value is within bounds; otherwise nothing repairs it.
   */
  lemma RecoveredFso(ps: Pages, recs: seq<Rec>, active: set<nat>, xs: seq<nat>, p: nat)
    requires Framed(recs) && HoldsPages(ps, recs) && Order(recs, active, xs) && p in ps
    ensures var was, now := Fso(ps[p]), Fso(Recovered(ps, recs, active, xs)[p]);
            if ValidFso(was) then
              && was <= now
              && (forall i, end :: EndsAt(recs, i, p, end) ==> end <= now)
              && (now == was || exists i :: EndsAt(recs, i, p, now))
            else now == was
  {
    var ws := RecoveryWrites(recs, active, xs);
    WritesStored(ps, recs, active, xs);
    FsoAfter(ps, ws, p);
    var was, now := Fso(ps[p]), Fso(Recovered(ps, recs, active, xs)[p]);
    if ValidFso(was) {
      forall i, end | EndsAt(recs, i, p, end) ensures end <= now {
        var k := EndIsWritten(recs, active, xs, i);
        assert Raises(ws[k], p);
      }
      if now != was {
        var k :| 0 <= k < |ws| && Raises(ws[k], p) && ws[k].off + |ws[k].bs| == now;
        var i := WritesFrom(recs, active, xs, k);
        assert EndsAt(recs, i, p, now);
      }
    }
  }

  /**
   * A crash during recovery is harmless: starting over from any pages the interrupted recovery
   * left behind, with the same statuses, gives the same items.
   */
  lemma RestartedRecovery(ps: Pages, qs: Pages, recs: seq<Rec>, active: set<nat>, xs: seq<nat>, ys: seq<nat>, i: nat)
    requires WellFormed(recs) && ActiveLast(recs, active) && HoldsPages(ps, recs) && HoldsPages(qs, recs)
    requires Order(recs, active, xs) && Order(recs, active, ys) && i < |recs|
    ensures BytesAt(Recovered(qs, recs, active, ys), RecPlace(recs[i])) ==
            BytesAt(Recovered(ps, recs, active, xs), RecPlace(recs[i]))
  {
    RecoveredItem(ps, recs, active, xs, i);
    RecoveredItem(qs, recs, active, ys, i);
  }

  /* ----- recovering a second time ----- */

  /** The two sets of active transactions agree on the writers of the item. */
  ghost predicate SameActive(recs: seq<Rec>, active: set<nat>, later: set<nat>, it: Item) {
    forall i :: 0 <= i < |recs| && RecPlace(recs[i]) == it ==> (recs[i].xid in active <==> recs[i].xid in later)
  }

  lemma {:induction false} SameOwed(recs: seq<Rec>, active: set<nat>, later: set<nat>, it: Item)
    requires Framed(recs) && SameActive(recs, active, later, it)
    ensures Settled(recs, later, it) == Settled(recs, active, it) && Withdrawn(recs, later, it) == Withdrawn(recs, active, it)
    decreases |recs|
  {
    if recs != [] {
      SameOwed(recs[..|recs| - 1], active, later, it);
    }
  }

  /** What the item is owed when some of the active transactions have been marked aborted. */
  lemma LaterOwed(recs: seq<Rec>, active: set<nat>, later: set<nat>, i: nat)
    requires Framed(recs) && ActiveLast(recs, active) && later <= active && i < |recs| && recs[i].xid in active
    ensures var it := RecPlace(recs[i]);
            Owed(recs, later, it) == if recs[i].xid in later then Owed(recs, active, it) else Image(recs, it)
  {
    var it, x := RecPlace(recs[i]), recs[i].xid;
    assert Writes(recs, x, it);
    forall j | 0 <= j < |recs| && RecPlace(recs[j]) == it && recs[j].xid in active ensures recs[j].xid == x {
      assert i < j || j < i || i == j;
    }
    if x in later {
      SameOwed(recs, active, later, it);
    } else {
      NotWithdrawn(recs, later, it);
      ImageSettled(recs, later, it);
    }
  }

  lemma FewerActive(recs: seq<Rec>, active: set<nat>, later: set<nat>)
    requires ActiveLast(recs, active) && later <= active
    ensures ActiveLast(recs, later)
  {
  }

  /**
   * Undone transactions are marked aborted, and the log stays.  At the next recovery an item is owed
   * what it was owed before if its active writer is still active; otherwise it gets the last image
   * that writer logged, as if it had not been undone.
   */
  lemma SecondRecovery(ps: Pages, recs: seq<Rec>, active: set<nat>, xs: seq<nat>, later: set<nat>, ys: seq<nat>, i: nat)
    requires WellFormed(recs) && ActiveLast(recs, active) && HoldsPages(ps, recs) && Order(recs, active, xs)
    requires later <= active && Order(recs, later, ys) && i < |recs| && recs[i].xid in active
    ensures var it := RecPlace(recs[i]);
            var once := Recovered(ps, recs, active, xs);
            && HoldsPages(once, recs)
            && Some(BytesAt(once, it)) == Owed(recs, active, it)
            && Some(BytesAt(Recovered(once, recs, later, ys), it)) ==
               if recs[i].xid in later then Owed(recs, active, it) else Image(recs, it)
  {
    var once := Recovered(ps, recs, active, xs);
    RecoveredItem(ps, recs, active, xs, i);
    FewerActive(recs, active, later);
    RecoveredItem(once, recs, later, ys, i);
    LaterOwed(recs, active, later, i);
  }

  lemma {:induction false} WithdrawnBy(recs: seq<Rec>, active: set<nat>, i: nat)
    requires WellFormed(recs) && i < |recs| && recs[i].Insertion? && recs[i].xid in active
    ensures Withdrawn(recs, active, RecPlace(recs[i])) == Some(Flagged(recs[i].raw))
    decreases |recs|
  {
    var n, it := |recs| - 1, RecPlace(recs[i]);
    assert InsertsAt(recs, i, it);
    if i < n {
      if InsertsAt(recs, n, it) {
        OneInsert(recs, i, n, it);
      }
      PrefixWellFormed(recs, n);
      WithdrawnBy(recs[..n], active, i);
    }
  }

  /** An item that recovery flagged comes back at the next one if and only if its inserter is no longer active. */
  lemma FlaggedInsertComesBackIff(ps: Pages, recs: seq<Rec>, active: set<nat>, xs: seq<nat>, later: set<nat>, ys: seq<nat>, i: nat)
    requires WellFormed(recs) && ActiveLast(recs, active) && HoldsPages(ps, recs) && Order(recs, active, xs)
    requires later <= active && Order(recs, later, ys) && i < |recs| && recs[i].Insertion? && recs[i].xid in active
    requires forall j :: 0 <= j < |recs| ==> |NewBytes(recs[j])| > 0 && NewBytes(recs[j])[0] != INVALID
    ensures var it := RecPlace(recs[i]);
            var once := Recovered(ps, recs, active, xs);
            && BytesAt(once, it) == Flagged(recs[i].raw)
            && HoldsPages(once, recs)
            && (BytesAt(Recovered(once, recs, later, ys), it)[0] != INVALID <==> recs[i].xid !in later)
  {
    SecondRecovery(ps, recs, active, xs, later, ys, i);
    WithdrawnBy(recs, active, i);
    LastImage(recs, i);
  }

  lemma {:induction false} LastImage(recs: seq<Rec>, i: nat)
    requires i < |recs|
    ensures exists j :: 0 <= j < |recs| && RecPlace(recs[j]) == RecPlace(recs[i]) && Image(recs, RecPlace(recs[i])) == Some(NewBytes(recs[j]))
    decreases |recs|
  {
    var n, it := |recs| - 1, RecPlace(recs[i]);
    if RecPlace(recs[n]) != it {
      LastImage(recs[..n], i);
      var j :| 0 <= j < n && RecPlace(recs[..n][j]) == it && Image(recs[..n], it) == Some(NewBytes(recs[..n][j]));
      assert recs[j] == recs[..n][j];
    }
  }

  /**
   * The counterpart for updates: an item that only its updater made active goes back to its settled
   * image, and at the next recovery forward again to the updater's last image, if that one is marked aborted.
   */
  lemma UndoneUpdateIsRedone(ps: Pages, recs: seq<Rec>, active: set<nat>, xs: seq<nat>, later: set<nat>, ys: seq<nat>, i: nat)
    requires WellFormed(recs) && ActiveLast(recs, active) && HoldsPages(ps, recs) && Order(recs, active, xs)
    requires later <= active && Order(recs, later, ys) && i < |recs| && recs[i].xid in active
    requires forall j :: InsertsAt(recs, j, RecPlace(recs[i])) ==> recs[j].xid !in active
    ensures var it := RecPlace(recs[i]);
            var once := Recovered(ps, recs, active, xs);
            && HoldsPages(once, recs)
            && Some(BytesAt(once, it)) == Settled(recs, active, it)
            && Some(BytesAt(Recovered(once, recs, later, ys), it)) ==
               if recs[i].xid in later then Settled(recs, active, it) else Image(recs, it)
  {
    SecondRecovery(ps, recs, active, xs, later, ys, i);
    NotWithdrawn(recs, active, RecPlace(recs[i]));
  }
}
