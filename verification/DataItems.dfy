/** Data items and the pages that hold them. */
module DataItems {
  import opened Types
  import opened Bytes
  import opened LogRecords
  import opened Recovery

  /** The stored form of `data`: a valid flag of 0, the low 16 bits of the size, the data. */
  function Wrap(data: seq<Byte>): seq<Byte> {
    [0] + Put(|data|, 2) + data
  }

  /** `ParseDataitem`: the stored form found at `off`, cut off at the end of the page. */
  function RawAt(pg: seq<Byte>, off: nat): seq<Byte>
    requires |pg| == PAGE_SIZE && off + 3 <= PAGE_SIZE
  {
    var size := Parse(pg[off + 1..off + 3]);
    if off + 3 + size > PAGE_SIZE then pg[off..] else pg[off..off + 3 + size]
  }

  /** `Read`'s answer: the data, or nothing for an item flagged invalid. */
  function ReadAt(pg: seq<Byte>, off: nat): Option<seq<Byte>>
    requires |pg| == PAGE_SIZE && off + 3 <= PAGE_SIZE
  {
    var raw := RawAt(pg, off);
    if raw[0] != 0 then None else Some(raw[3..])
  }

  /** A wrapped item is read back. */
  lemma ReadWrap(pg: seq<Byte>, off: nat, data: seq<Byte>)
    requires |pg| == PAGE_SIZE && off + 3 + |data| <= PAGE_SIZE
    requires pg[off..off + 3 + |data|] == Wrap(data)
    ensures RawAt(pg, off) == Wrap(data) && ReadAt(pg, off) == Some(data)
  {
    var raw := Wrap(data);
    Widths();
    ParsePut(|data|, 2);
    SliceOfSlice(pg, off, off + 3 + |data|, 1, 3);
    assert raw[1..3] == Put(|data|, 2);
    assert raw[3..] == data;
  }

  /** An item undone by recovery reads as nothing. */
  lemma ReadFlagged(pg: seq<Byte>, off: nat, data: seq<Byte>)
    requires |pg| == PAGE_SIZE && off + 3 + |data| <= PAGE_SIZE
    requires pg[off..off + 3 + |data|] == Flagged(Wrap(data))
    ensures ReadAt(pg, off) == None
  {
    assert pg[off] == pg[off..off + 3 + |data|][0];
  }

  /* ----- pages ----- */

  /** An empty data page. */
  function InitPage(): (pg: seq<Byte>)
    ensures |pg| == PAGE_SIZE
  {
    Put(2, 2) + seq(8190, i => 0)
  }

  lemma InitFso()
    ensures Fso(InitPage()) == 2
  {
    Widths();
    ParsePut(2, 2);
    assert InitPage()[0..2] == Put(2, 2);
  }

  /** `PXInsert`: the bytes go to the free-space offset, which moves behind them. */
  function PxInsert(pg: seq<Byte>, raw: seq<Byte>): (r: seq<Byte>)
    requires |pg| == PAGE_SIZE && Fso(pg) + |raw| <= PAGE_SIZE
    ensures |r| == PAGE_SIZE
  {
    var f := Fso(pg);
    Splice(Splice(pg, f, raw), 0, Put(f + |raw|, 2))
  }

  lemma PxInsertBytes(pg: seq<Byte>, raw: seq<Byte>)
    requires |pg| == PAGE_SIZE && 2 <= Fso(pg) && Fso(pg) + |raw| <= PAGE_SIZE
    ensures var f, r := Fso(pg), PxInsert(pg, raw);
            && Fso(r) == f + |raw|
            && r[f..f + |raw|] == raw
            && forall k :: 2 <= k < PAGE_SIZE && !(f <= k < f + |raw|) ==> r[k] == pg[k]
  {
    var f := Fso(pg);
    var mid, r := Splice(pg, f, raw), PxInsert(pg, raw);
    Widths();
    ParsePut(f + |raw|, 2);
    SpliceWithin(mid, 0, Put(f + |raw|, 2), 0, 2);
    assert Put(f + |raw|, 2)[0..2] == Put(f + |raw|, 2);
    SpliceWithin(pg, f, raw, 0, |raw|);
    SpliceBeside(mid, 0, Put(f + |raw|, 2), f, f + |raw|);
  }

  /** The copy is cut off at the end of the page, while the offset moves by the full length. */
  function PxInsertCut(pg: seq<Byte>, raw: seq<Byte>): (r: seq<Byte>)
    requires |pg| == PAGE_SIZE && Fso(pg) <= PAGE_SIZE
    ensures |r| == PAGE_SIZE
  {
    var f := Fso(pg);
    var n := if f + |raw| <= PAGE_SIZE then |raw| else PAGE_SIZE - f;
    Splice(Splice(pg, f, raw[..n]), 0, Put(f + |raw|, 2))
  }

  /** The insertion reads back if and only if the page had the room. */
  lemma InsertReadsBackIff(pg: seq<Byte>, data: seq<Byte>)
    requires |pg| == PAGE_SIZE && 2 <= Fso(pg) && Fso(pg) + 3 <= PAGE_SIZE && 3 + |data| <= PAGE_SIZE
    ensures ReadAt(PxInsertCut(pg, Wrap(data)), Fso(pg)) == Some(data) <==> Fso(pg) + |Wrap(data)| <= PAGE_SIZE
  {
    var raw, f := Wrap(data), Fso(pg);
    var r := PxInsertCut(pg, raw);
    if f + |raw| <= PAGE_SIZE {
      assert raw[..|raw|] == raw;
      PxInsertBytes(pg, raw);
      ReadWrap(r, f, data);
    } else {
      assert |RawAt(r, f)| <= PAGE_SIZE - f;
    }
  }

  /* ----- a page by the log ----- */

  /** What the whole log makes of an empty page. */
  function Replay(log: seq<Rec>, p: nat): (pg: seq<Byte>)
    ensures |pg| == PAGE_SIZE
    decreases |log|
  {
    if log == [] then InitPage()
    else
      var r := log[|log| - 1];
      var pg := Replay(log[..|log| - 1], p);
      if r.pgno == p && Fits(Redo(r)) then ApplyToPage(pg, Redo(r)) else pg
  }

  lemma ReplaySnoc(log: seq<Rec>, r: Rec, p: nat)
    ensures Replay(log + [r], p) ==
            if r.pgno == p && Fits(Redo(r)) then ApplyToPage(Replay(log, p), Redo(r)) else Replay(log, p)
  {
    assert (log + [r])[..|log|] == log;
  }

  lemma {:induction false} ReplayFso(log: seq<Rec>, p: nat)
    ensures ValidFso(Fso(Replay(log, p)))
    decreases |log|
  {
    if log == [] {
      InitFso();
    } else {
      var r, pre := log[|log| - 1], log[..|log| - 1];
      ReplayFso(pre, p);
      if r.pgno == p && Fits(Redo(r)) {
        WriteFso(map[p := Replay(pre, p)], Redo(r), p);
      }
    }
  }

  /** Logging an insertion at the free-space offset is inserting. */
  lemma ReplayInsertion(log: seq<Rec>, r: Rec)
    requires r.Insertion? && Fits(Redo(r)) && r.off == Fso(Replay(log, r.pgno))
    ensures Replay(log + [r], r.pgno) == PxInsert(Replay(log, r.pgno), r.raw)
  {
    ReplaySnoc(log, r, r.pgno);
    SpliceBeside(Replay(log, r.pgno), r.off, r.raw, 0, 2);
  }

  lemma ReplayUpdate(log: seq<Rec>, r: Rec)
    requires r.Update? && Fits(Redo(r))
    ensures Replay(log + [r], r.pgno) == Splice(Replay(log, r.pgno), r.off, r.after)
  {
    ReplaySnoc(log, r, r.pgno);
  }

  /** An item of the log holds its last image. */
  lemma {:induction false} ReplayItem(log: seq<Rec>, it: Item)
    requires Framed(log) && 2 <= it.off && it.off + it.len <= PAGE_SIZE && Image(log, it).Some?
    requires forall i :: 0 <= i < |log| ==> RecPlace(log[i]) == it || Apart(RecPlace(log[i]), it)
    ensures Replay(log, it.pgno)[it.off..it.off + it.len] == Image(log, it).value
    decreases |log|
  {
    var n := |log| - 1;
    var r, pg := log[n], Replay(log[..n], it.pgno);
    assert Fits(Redo(r));
    var ps := map[it.pgno := pg];
    if RecPlace(r) == it {
      WriteHits(ps, Redo(r));
    } else {
      ReplayItem(log[..n], it);
      if r.pgno == it.pgno {
        WriteMisses(ps, Redo(r), it);
      }
    }
  }
}
