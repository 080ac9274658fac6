/** The recovery procedure itself: a scan for the page count, the redo pass and the undo pass. */
module RecoveryPass {
  import opened Types
  import opened Bytes
  import opened LogRecords
  import opened Recovery

  /** Payloads long enough for either kind of record. */
  ghost predicate Readable(log: seq<seq<Byte>>) {
    forall i :: 0 <= i < |log| ==> |log[i]| >= 17
  }

  /** The records of a log. */
  ghost function Records(log: seq<seq<Byte>>): (recs: seq<Rec>)
    requires Readable(log)
    ensures |recs| == |log| && forall i :: 0 <= i < |log| ==> recs[i] == Decode(log[i])
  {
    seq(|log|, i requires 0 <= i < |log| => Decode(log[i]))
  }

  function MaxPgno(recs: seq<Rec>): nat {
    if recs == [] then 0
    else
      var m := MaxPgno(recs[..|recs| - 1]);
      if recs[|recs| - 1].pgno > m then recs[|recs| - 1].pgno else m
  }

  lemma {:induction false} MaxPgnoBounds(recs: seq<Rec>)
    ensures forall i :: 0 <= i < |recs| ==> recs[i].pgno <= MaxPgno(recs)
    ensures MaxPgno(recs) == 0 || exists i :: 0 <= i < |recs| && recs[i].pgno == MaxPgno(recs)
    decreases |recs|
  {
    if recs != [] {
      var n := |recs| - 1;
      var pre := recs[..n];
      MaxPgnoBounds(pre);
      forall i | 0 <= i < |recs| ensures recs[i].pgno <= MaxPgno(recs) {
        assert i < n ==> pre[i] == recs[i];
      }
      if MaxPgno(recs) != recs[n].pgno && MaxPgno(recs) != 0 {
        var i :| 0 <= i < n && pre[i].pgno == MaxPgno(pre);
        assert recs[i].pgno == MaxPgno(recs);
      }
    }
  }

  function ZeroPage(): (pg: seq<Byte>)
    ensures |pg| == PAGE_SIZE
  {
    seq(PAGE_SIZE, i => 0)
  }

  /** The database file cut, or filled up with zeros, to `n` pages. */
  function Resized(ps: Pages, n: nat): Pages {
    map p: nat | 1 <= p <= n :: if p in ps then ps[p] else ZeroPage()
  }

  /** The number of pages recovery leaves: up to the last page the log names, and at least one. */
  ghost function PageCount(recs: seq<Rec>): nat {
    if MaxPgno(recs) == 0 then 1 else MaxPgno(recs)
  }

  lemma ResizedHolds(ps: Pages, recs: seq<Rec>)
    requires AllPages(ps) && forall i :: 0 <= i < |recs| ==> recs[i].pgno >= 1
    ensures HoldsPages(Resized(ps, PageCount(recs)), recs)
  {
    MaxPgnoBounds(recs);
  }

  /** The records of one transaction, in log order. */
  function RecsOf(recs: seq<Rec>, x: nat): seq<Rec>
    decreases |recs|
  {
    if recs == [] then []
    else
      var n := |recs| - 1;
      RecsOf(recs[..n], x) + if recs[n].xid == x then [recs[n]] else []
  }

  ghost function UndoList(rs: seq<Rec>): seq<Write>
    requires Framed(rs)
    decreases |rs|
  {
    if rs == [] then [] else [Undo(rs[|rs| - 1])] + UndoList(rs[..|rs| - 1])
  }

  lemma {:induction false} RecsOfFrom(recs: seq<Rec>, x: nat, k: nat) returns (i: nat)
    requires k < |RecsOf(recs, x)|
    ensures i < |recs| && recs[i] == RecsOf(recs, x)[k]
    decreases |recs|
  {
    var n := |recs| - 1;
    if k < |RecsOf(recs[..n], x)| {
      i := RecsOfFrom(recs[..n], x, k);
    } else {
      i := n;
    }
  }

  lemma RecsOfFramed(recs: seq<Rec>, x: nat)
    requires Framed(recs)
    ensures Framed(RecsOf(recs, x))
  {
    var rs := RecsOf(recs, x);
    forall k | 0 <= k < |rs|
      ensures Fits(Redo(rs[k])) && (rs[k].Update? ==> |rs[k].before| == |rs[k].after|)
    {
      var i := RecsOfFrom(recs, x, k);
    }
  }

  lemma RecsOfHeld(ps: Pages, recs: seq<Rec>, x: nat)
    requires HoldsPages(ps, recs)
    ensures HoldsPages(ps, RecsOf(recs, x))
  {
    var rs := RecsOf(recs, x);
    forall k | 0 <= k < |rs| ensures rs[k].pgno in ps {
      var i := RecsOfFrom(recs, x, k);
    }
  }

  lemma UndoListSnoc(rs: seq<Rec>, r: Rec)
    requires Framed(rs + [r]) && Framed(rs) && Fits(Redo(r))
    ensures UndoList(rs + [r]) == [Undo(r)] + UndoList(rs)
  {
    assert (rs + [r])[..|rs|] == rs;
  }

  /** The undo of a transaction is the undo of its collected records, backwards. */
  lemma {:induction false} UndoListOf(recs: seq<Rec>, x: nat)
    requires Framed(recs)
    ensures Framed(RecsOf(recs, x)) && UndoList(RecsOf(recs, x)) == UndoOf(recs, x)
    decreases |recs|
  {
    RecsOfFramed(recs, x);
    if recs != [] {
      var n := |recs| - 1;
      UndoListOf(recs[..n], x);
      var rs := RecsOf(recs[..n], x);
      if recs[n].xid == x {
        UndoListSnoc(rs, recs[n]);
      } else {
        assert RecsOf(recs, x) == rs;
      }
    }
  }

  lemma {:induction false} UndoListStored(ps: Pages, rs: seq<Rec>)
    requires Framed(rs) && HoldsPages(ps, rs)
    ensures AllStored(ps, UndoList(rs))
    decreases |rs|
  {
    if rs != [] {
      UndoListStored(ps, rs[..|rs| - 1]);
      assert Fits(Redo(rs[|rs| - 1]));
    }
  }

  lemma ApplyFirst(ps: Pages, w: Write, ws: seq<Write>)
    requires AllPages(ps) && Stored(ps, w) && AllStored(ps, ws)
    ensures AllStored(ps, [w] + ws) && AllPages(Apply(ps, w)) && AllStored(Apply(ps, w), ws)
    ensures ApplyAll(ps, [w] + ws) == ApplyAll(Apply(ps, w), ws)
  {
    ApplyAppend(ps, [w], ws);
    assert ApplyAll(ps, [w][..0]) == ps;
    assert [w][0] == w;
  }

  lemma ApplyLast(ps: Pages, ws: seq<Write>, w: Write)
    requires AllPages(ps) && AllStored(ps, ws) && w.pgno in ps && Fits(w)
    ensures AllStored(ps, ws + [w])
    ensures Stored(ApplyAll(ps, ws), w) && ApplyAll(ps, ws + [w]) == Apply(ApplyAll(ps, ws), w)
  {
    assert (ws + [w])[..|ws|] == ws;
  }

  lemma RedoNext(recs: seq<Rec>, i: nat, active: set<nat>)
    requires i < |recs|
    ensures RedoWrites(recs[..i + 1], active) ==
            RedoWrites(recs[..i], active) + if recs[i].xid in active then [] else [Redo(recs[i])]
  {
    assert recs[..i + 1][..i] == recs[..i];
  }

  /** One step of the backwards walk. */
  lemma UndoNext(ps: Pages, rs: seq<Rec>, i: nat)
    requires i < |rs| && Framed(rs) && HoldsPages(ps, rs)
    ensures Framed(rs[..i + 1]) && AllStored(ps, UndoList(rs[..i + 1]))
    ensures Framed(rs[..i]) && Stored(ps, Undo(rs[i])) && AllPages(Apply(ps, Undo(rs[i])))
    ensures AllStored(Apply(ps, Undo(rs[i])), UndoList(rs[..i]))
    ensures ApplyAll(ps, UndoList(rs[..i + 1])) == ApplyAll(Apply(ps, Undo(rs[i])), UndoList(rs[..i]))
  {
    assert Fits(Redo(rs[i]));
    assert rs[..i + 1] == rs[..i] + [rs[i]];
    UndoListSnoc(rs[..i], rs[i]);
    UndoListStored(ps, rs[..i]);
    ApplyFirst(ps, Undo(rs[i]), UndoList(rs[..i]));
  }

  /** One more transaction undone. */
  lemma UndoSnoc(ps: Pages, recs: seq<Rec>, xs: seq<nat>, x: nat)
    requires Framed(recs) && HoldsPages(ps, recs) && AllStored(ps, UndoAll(recs, xs))
    ensures AllStored(ApplyAll(ps, UndoAll(recs, xs)), UndoOf(recs, x))
    ensures AllStored(ps, UndoAll(recs, xs + [x]))
    ensures ApplyAll(ps, UndoAll(recs, xs + [x])) == ApplyAll(ApplyAll(ps, UndoAll(recs, xs)), UndoOf(recs, x))
  {
    var ws := UndoOf(recs, x);
    forall k | 0 <= k < |ws| ensures ws[k].pgno in ps && Fits(ws[k]) {
      var i := UndoOfFrom(recs, x, k);
    }
    assert (xs + [x])[..|xs|] == xs;
    ApplyAppend(ps, UndoAll(recs, xs), ws);
  }

  /** `logs` are the payloads of transaction `x`. */
  ghost predicate Gathers(logs: seq<seq<Byte>>, recs: seq<Rec>, x: nat) {
    Readable(logs) && Records(logs) == RecsOf(recs, x)
  }

  /** `logCache`: the payloads of every active transaction of the log, in log order. */
  ghost predicate Collected(cache: map<nat, seq<seq<Byte>>>, recs: seq<Rec>, active: set<nat>) {
    && (forall x :: x in cache <==> x in active && RecsOf(recs, x) != [])
    && (forall x :: x in cache ==> Gathers(cache[x], recs, x))
  }

  lemma RecsOfNext(recs: seq<Rec>, i: nat, x: nat)
    requires i < |recs|
    ensures RecsOf(recs[..i + 1], x) == RecsOf(recs[..i], x) + if recs[i].xid == x then [recs[i]] else []
  {
    assert recs[..i + 1][..i] == recs[..i];
  }

  lemma GathersNext(logs: seq<seq<Byte>>, log: seq<Byte>, recs: seq<Rec>, i: nat)
    requires i < |recs| && |log| >= 17 && recs[i] == Decode(log) && Gathers(logs, recs[..i], recs[i].xid)
    ensures Gathers(logs + [log], recs[..i + 1], recs[i].xid)
  {
    RecsOfNext(recs, i, recs[i].xid);
    assert Records(logs + [log]) == Records(logs) + [recs[i]];
  }

  lemma CollectedNext(cache: map<nat, seq<seq<Byte>>>, next: map<nat, seq<seq<Byte>>>, log: seq<Byte>,
                      recs: seq<Rec>, i: nat, active: set<nat>)
    requires i < |recs| && |log| >= 17 && recs[i] == Decode(log) && Collected(cache, recs[..i], active)
    requires var x := recs[i].xid;
             var logs := if x in cache then cache[x] else [];
             next == if x in active then cache[x := logs + [log]] else cache
    ensures Collected(next, recs[..i + 1], active)
  {
    forall x | x in active ensures x in next <==> RecsOf(recs[..i + 1], x) != [] {
      RecsOfNext(recs, i, x);
    }
    forall x | x in next ensures Gathers(next[x], recs[..i + 1], x) {
      if x == recs[i].xid {
        GathersNext(if x in cache then cache[x] else [], log, recs, i);
      } else {
        RecsOfNext(recs, i, x);
      }
    }
  }

  method CollectActive(log: seq<seq<Byte>>, active: set<nat>) returns (cache: map<nat, seq<seq<Byte>>>)
    requires Readable(log)
    ensures Collected(cache, Records(log), active)
  {
    ghost var recs := Records(log);
    cache := map[];
    var i := 0;
    while i < |log|
      invariant 0 <= i <= |log|
      invariant Collected(cache, recs[..i], active)
    {
      var xid := Decode(log[i]).xid;
      ghost var was := cache;
      if xid in active {
        var logs := if xid in cache then cache[xid] else [];
        cache := cache[xid := logs + [log[i]]];
      }
      CollectedNext(was, cache, log[i], recs, i, active);
      i := i + 1;
    }
    assert recs[..i] == recs;
  }

  /** Exactly the transactions of the log have collected records. */
  lemma {:induction false} InLog(recs: seq<Rec>, i: nat)
    requires i < |recs|
    ensures RecsOf(recs, recs[i].xid) != []
    decreases |recs|
  {
    if i < |recs| - 1 {
      InLog(recs[..|recs| - 1], i);
    }
  }

  /** `xs` is what has been picked from `all`, each member once, with `todo` left. */
  ghost predicate Picked(all: set<nat>, todo: set<nat>, done: set<nat>, xs: seq<nat>) {
    && todo !! done && todo + done == all
    && (forall x :: x in done <==> x in xs)
    && (forall i, j :: 0 <= i < j < |xs| ==> xs[i] != xs[j])
  }

  lemma Pick(all: set<nat>, todo: set<nat>, done: set<nat>, xs: seq<nat>, x: nat)
    requires Picked(all, todo, done, xs) && x in todo
    ensures Picked(all, todo - {x}, done + {x}, xs + [x])
  {
  }

  lemma OrderFrom(cache: map<nat, seq<seq<Byte>>>, recs: seq<Rec>, active: set<nat>, xs: seq<nat>)
    requires Collected(cache, recs, active) && Picked(cache.Keys, {}, cache.Keys, xs)
    ensures Order(recs, active, xs)
  {
    forall i | 0 <= i < |recs| && recs[i].xid in active ensures recs[i].xid in xs {
      InLog(recs, i);
      assert recs[i].xid in cache.Keys;
    }
    forall i | 0 <= i < |xs| ensures xs[i] in active {
      assert xs[i] in cache.Keys;
    }
  }

  /** The transactions `xs` have been undone. */
  ghost predicate Undone(ps: Pages, now: Pages, recs: seq<Rec>, xs: seq<nat>) {
    && Framed(recs) && HoldsPages(ps, recs) && AllStored(ps, UndoAll(recs, xs))
    && now == ApplyAll(ps, UndoAll(recs, xs))
  }

  class PageCache {
    var pages: Pages
    var noPages: nat

    ghost predicate Valid()
      reads this
    {
      AllPages(pages) && forall p :: p in pages <==> 1 <= p <= noPages
    }

    /** `TruncateByPgno`. */
    method Resize(n: nat)
      requires Valid()
      modifies this
      ensures Valid() && noPages == n && pages == Resized(old(pages), n)
    {
      pages := Resized(pages, n);
      noPages := n;
    }

    /** `PXRecoverUpdate` on a cached page. */
    method RecoverUpdate(pgno: nat, off: nat, raw: seq<Byte>)
      requires Valid() && Stored(pages, Write(pgno, off, raw, false))
      modifies this
      ensures Valid() && noPages == old(noPages)
      ensures pages == Apply(old(pages), Write(pgno, off, raw, false))
    {
      pages := pages[pgno := Splice(pages[pgno], off, raw)];
    }

    /** `PXRecoverInsert` on a cached page. */
    method RecoverInsert(pgno: nat, off: nat, raw: seq<Byte>)
      requires Valid() && Stored(pages, Write(pgno, off, raw, true))
      modifies this
      ensures Valid() && noPages == old(noPages)
      ensures pages == Apply(old(pages), Write(pgno, off, raw, true))
    {
      var pg := Splice(pages[pgno], off, raw);
      var logged := off + |raw|;
      var current := Fso(pg);
      if current < 2 || current > PAGE_SIZE {
        current := logged;
      }
      if logged > current {
        pg := Splice(pg, 0, Put(logged, 2));
      } else {
        PutParse(pg[0..2]);
        assert Splice(pg, 0, pg[0..2]) == pg;
      }
      pages := pages[pgno := pg];
    }

    /** Redo of one payload. */
    method RedoLog(log: seq<Byte>)
      requires |log| >= 17 && Valid() && Stored(pages, Redo(Decode(log)))
      modifies this
      ensures Valid() && noPages == old(noPages) && pages == Apply(old(pages), Redo(Decode(log)))
    {
      match Decode(log) {
        case Insertion(_, pgno, off, raw) => RecoverInsert(pgno, off, raw);
        case Update(_, pgno, off, _, after) => RecoverUpdate(pgno, off, after);
      }
    }

    /** Undo of one payload: an insertion is put back flagged, an update is put back to its old image. */
    method UndoLog(log: seq<Byte>)
      requires |log| >= 17 && Valid() && (Decode(log).Insertion? ==> |Decode(log).raw| > 0)
      requires Stored(pages, Undo(Decode(log)))
      modifies this
      ensures Valid() && noPages == old(noPages) && pages == Apply(old(pages), Undo(Decode(log)))
    {
      match Decode(log) {
        case Insertion(_, pgno, off, raw) => RecoverInsert(pgno, off, raw[0 := INVALID]);
        case Update(_, pgno, off, before, _) => RecoverUpdate(pgno, off, before);
      }
    }

    method RedoTransactions(log: seq<seq<Byte>>, active: set<nat>)
      requires Valid() && Readable(log) && Framed(Records(log)) && HoldsPages(pages, Records(log))
      modifies this
      ensures Valid() && noPages == old(noPages)
      ensures AllStored(old(pages), RedoWrites(Records(log), active))
      ensures pages == ApplyAll(old(pages), RedoWrites(Records(log), active))
    {
      ghost var recs, ps := Records(log), pages;
      var i := 0;
      while i < |log|
        invariant 0 <= i <= |log|
        invariant Valid() && noPages == old(noPages) && pages.Keys == ps.Keys
        invariant AllStored(ps, RedoWrites(recs[..i], active))
        invariant pages == ApplyAll(ps, RedoWrites(recs[..i], active))
      {
        var r := Decode(log[i]);
        ghost var ws := RedoWrites(recs[..i], active);
        RedoNext(recs, i, active);
        if r.xid !in active {
          assert Fits(Redo(recs[i])) && recs[i].pgno in ps;
          ApplyLast(ps, ws, Redo(r));
          RedoLog(log[i]);
        } else {
          assert ws + [] == ws;
        }
        i := i + 1;
      }
      assert recs[..i] == recs;
    }

    /** Undo of one transaction's payloads, last one first. */
    method UndoLogs(logs: seq<seq<Byte>>)
      requires Valid() && Readable(logs) && Framed(Records(logs)) && HoldsPages(pages, Records(logs))
      modifies this
      ensures Valid() && noPages == old(noPages)
      ensures AllStored(old(pages), UndoList(Records(logs)))
      ensures pages == ApplyAll(old(pages), UndoList(Records(logs)))
    {
      ghost var rs, ps := Records(logs), pages;
      UndoListStored(ps, rs);
      var i := |logs|;
      assert rs[..i] == rs;
      while i > 0
        invariant 0 <= i <= |logs|
        invariant Valid() && noPages == old(noPages) && pages.Keys == ps.Keys
        invariant Framed(rs[..i]) && AllStored(pages, UndoList(rs[..i]))
        invariant ApplyAll(pages, UndoList(rs[..i])) == ApplyAll(ps, UndoList(rs))
      {
        i := i - 1;
        UndoNext(pages, rs, i);
        UndoLog(logs[i]);
      }
    }

    /** The active transactions' payloads are collected, then undone in whatever order the map yields them. */
    method UndoTransactions(log: seq<seq<Byte>>, active: set<nat>) returns (aborted: set<nat>, ghost xs: seq<nat>)
      requires Valid() && Readable(log) && Framed(Records(log)) && HoldsPages(pages, Records(log))
      modifies this
      ensures Valid() && noPages == old(noPages)
      ensures Order(Records(log), active, xs) && (forall x :: x in aborted <==> x in xs)
      ensures Undone(old(pages), pages, Records(log), xs)
    {
      ghost var recs, ps := Records(log), pages;
      var cache := CollectActive(log, active);
      var todo := cache.Keys;
      aborted, xs := {}, [];
      while todo != {}
        invariant Valid() && noPages == old(noPages)
        invariant Picked(cache.Keys, todo, aborted, xs)
        invariant Undone(ps, pages, recs, xs)
        decreases |todo|
      {
        var x :| x in todo;
        UndoOne(cache[x], recs, xs, x, ps);
        Pick(cache.Keys, todo, aborted, xs, x);
        todo, aborted, xs := todo - {x}, aborted + {x}, xs + [x];
      }
      assert aborted == cache.Keys;
      OrderFrom(cache, recs, active, xs);
    }

    /** One transaction's turn in the undo pass. */
    method UndoOne(logs: seq<seq<Byte>>, ghost recs: seq<Rec>, ghost xs: seq<nat>, x: nat, ghost ps: Pages)
      requires Valid() && Gathers(logs, recs, x) && Undone(ps, pages, recs, xs)
      modifies this
      ensures Valid() && noPages == old(noPages) && Undone(ps, pages, recs, xs + [x])
    {
      UndoListOf(recs, x);
      RecsOfHeld(pages, recs, x);
      UndoSnoc(ps, recs, xs, x);
      UndoLogs(logs);
    }

    /** The whole recovery: from the statuses and the log, whatever the pages held. */
    method Recover(log: seq<seq<Byte>>, active: set<nat>) returns (aborted: set<nat>, ghost xs: seq<nat>)
      requires Valid() && Readable(log) && Framed(Records(log))
      requires forall i :: 0 <= i < |log| ==> Records(log)[i].pgno >= 1
      modifies this
      ensures Valid() && noPages == PageCount(Records(log))
      ensures Order(Records(log), active, xs) && (forall x :: x in aborted <==> x in xs)
      ensures HoldsPages(Resized(old(pages), noPages), Records(log))
      ensures pages == Recovered(Resized(old(pages), noPages), Records(log), active, xs)
    {
      ghost var recs := Records(log);
      var maxPgno, i := 0, 0;
      while i < |log|
        invariant 0 <= i <= |log| && maxPgno == MaxPgno(recs[..i]) && pages == old(pages) && Valid()
      {
        assert recs[..i + 1][..i] == recs[..i];
        var pgno := Decode(log[i]).pgno;
        if pgno > maxPgno {
          maxPgno := pgno;
        }
        i := i + 1;
      }
      assert recs[..i] == recs;
      if maxPgno == 0 {
        maxPgno := 1;
      }
      ResizedHolds(pages, recs);
      Resize(maxPgno);
      ghost var ps := pages;
      RedoTransactions(log, active);
      aborted, xs := UndoTransactions(log, active);
      WritesStored(ps, recs, active, xs);
      ApplyAppend(ps, RedoWrites(recs, active), UndoAll(recs, xs));
    }
  }
}
