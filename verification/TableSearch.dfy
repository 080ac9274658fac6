/** A table's two ways to find the rows of a WHERE clause: through an index, and by scanning all rows. */
module TableSearch {
  import opened Types
  import opened Bytes
  import opened Fields
  import opened WhereClauses
  import opened BLink
  import opened BLinkTree
  import opened BPlusTree

  /** The row's key in the index on `f`. */
  function KeyOf(row: Row, f: Field): Uuid {
    if f.name in row && row[f.name].Num? && row[f.name].n <= INF then row[f.name].n else 0
  }

  /** Every row holds a number of the field's type, below the reserved key. */
  ghost predicate AllKeyed(fields: seq<Field>, rows: map<Uuid, Row>, f: Field) {
    forall u :: u in rows ==> Keyed(fields, rows[u], f, KeyOf(rows[u], f)) && KeyOf(rows[u], f) < INF
  }

  /** The index on `f` has each row once, under its key. */
  ghost predicate IndexOf(content: seq<Entry>, rows: map<Uuid, Row>, f: Field) {
    forall e: Entry :: multiset(content)[e] == if e.son in rows && KeyOf(rows[e.son], f) == e.key then 1 else 0
  }

  /** The hidden row index has each row once, under its own UUID. */
  ghost predicate RowIndexOf(content: seq<Entry>, rows: map<Uuid, Row>) {
    forall e: Entry :: multiset(content)[e] == if e.son in rows && e.key == e.son then 1 else 0
  }

  /* ----- one interval ----- */

  lemma {:induction false} SonsCount(got: seq<Entry>, u: Uuid, k: Uuid)
    requires forall i :: 0 <= i < |got| && got[i].son == u ==> got[i].key == k
    ensures multiset(Sons(got))[u] == multiset(got)[Entry(k, u)]
  {
    if got != [] {
      var n := |got| - 1;
      SonsCount(got[..n], u, k);
      assert got == got[..n] + [got[n]];
      assert Sons(got) == Sons(got[..n]) + [got[n].son];
    }
  }

  /** A search of an interval gives only rows whose key is in it, each at most once, and all of them if it is complete. */
  lemma IntervalRows(content: seq<Entry>, rows: map<Uuid, Row>, f: Field, got: seq<Entry>, i: Interval, u: Uuid)
    requires IndexOf(content, rows, f) && InRange(got, i.l, i.r) && multiset(got) <= multiset(content)
    ensures multiset(Sons(got))[u] <= if u in rows && Within(KeyOf(rows[u], f), i) then 1 else 0
    ensures Complete(content, got, i.l, i.r) ==>
              multiset(Sons(got))[u] == if u in rows && Within(KeyOf(rows[u], f), i) then 1 else 0
  {
    var k := if u in rows then KeyOf(rows[u], f) else 0;
    forall j | 0 <= j < |got| && got[j].son == u ensures got[j].key == k && u in rows {
      assert got[j] in multiset(got);
      assert multiset(content)[got[j]] > 0;
    }
    SonsCount(got, u, k);
    if !(u in rows && Within(k, i)) {
      forall j | 0 <= j < |got| ensures got[j] != Entry(k, u) {
      }
      assert Entry(k, u) !in multiset(got);
    }
  }

  /* ----- the index ----- */

  datatype Found = Rows(uuids: seq<Uuid>) | BadClause | SearchFailed

  /** At most one row has the key at which an interval starts. */
  ghost predicate CleanStart(content: seq<Entry>, i: Interval) {
    i.l <= i.r ==> AtMostOnce(content, i.l)
  }

  function Counts(k: Uuid, ivs: seq<Interval>): nat {
    if ivs == [] then 0 else Counts(k, ivs[..|ivs| - 1]) + if Within(k, ivs[|ivs| - 1]) then 1 else 0
  }

  lemma {:induction false} CountsSome(k: Uuid, ivs: seq<Interval>)
    ensures Counts(k, ivs) > 0 <==> InSome(k, ivs)
    decreases |ivs|
  {
    if ivs != [] {
      var n := |ivs| - 1;
      CountsSome(k, ivs[..n]);
      if InSome(k, ivs[..n]) {
        var j :| 0 <= j < n && Within(k, ivs[..n][j]);
        assert Within(k, ivs[j]);
      }
      if InSome(k, ivs) && !Within(k, ivs[n]) {
        var j :| 0 <= j < |ivs| && Within(k, ivs[j]);
        assert Within(k, ivs[..n][j]);
      }
    }
  }

  /** Each row is found as often as intervals hold its key: twice, if both sides of an "or" do. */
  ghost predicate FindsAsCounted(uuids: seq<Uuid>, rows: map<Uuid, Row>, f: Field, ivs: seq<Interval>) {
    forall u :: multiset(uuids)[u] == if u in rows then Counts(KeyOf(rows[u], f), ivs) else 0
  }

  /** No row is found more often than that. */
  ghost predicate FindsOnly(uuids: seq<Uuid>, rows: map<Uuid, Row>, f: Field, ivs: seq<Interval>) {
    forall u :: multiset(uuids)[u] <= if u in rows then Counts(KeyOf(rows[u], f), ivs) else 0
  }

  ghost predicate CleanStarts(content: seq<Entry>, ivs: seq<Interval>) {
    forall n :: 0 <= n < |ivs| ==> CleanStart(content, ivs[n])
  }

  lemma FoundMore(content: seq<Entry>, rows: map<Uuid, Row>, f: Field, soFar: seq<Uuid>, ivs: seq<Interval>, got: seq<Entry>, i: Interval)
    requires IndexOf(content, rows, f) && InRange(got, i.l, i.r) && multiset(got) <= multiset(content)
    requires FindsOnly(soFar, rows, f, ivs)
    ensures FindsOnly(soFar + Sons(got), rows, f, ivs + [i])
    ensures FindsAsCounted(soFar, rows, f, ivs) && Complete(content, got, i.l, i.r) ==>
              FindsAsCounted(soFar + Sons(got), rows, f, ivs + [i])
  {
    forall u
      ensures multiset(soFar + Sons(got))[u] <= if u in rows then Counts(KeyOf(rows[u], f), ivs + [i]) else 0
      ensures FindsAsCounted(soFar, rows, f, ivs) && Complete(content, got, i.l, i.r) ==>
                multiset(soFar + Sons(got))[u] == if u in rows then Counts(KeyOf(rows[u], f), ivs + [i]) else 0
    {
      IntervalRows(content, rows, f, got, i, u);
      assert (ivs + [i])[..|ivs|] == ivs;
    }
  }

  /** The search of one interval, appended to what earlier intervals gave. */
  method SearchInterval(bt: Index, ghost rows: map<Uuid, Row>, f: Field, i: Interval, soFar: seq<Uuid>, ghost ivs: seq<Interval>)
    returns (r: Found)
    requires bt.Valid() && IndexOf(bt.Content(), rows, f) && FindsOnly(soFar, rows, f, ivs)
    ensures !r.BadClause? && (i.l < INF ==> r.Rows?)
    ensures r.Rows? ==> FindsOnly(r.uuids, rows, f, ivs + [i])
    ensures r.Rows? && FindsAsCounted(soFar, rows, f, ivs) && CleanStart(bt.Content(), i) ==>
              FindsAsCounted(r.uuids, rows, f, ivs + [i])
  {
    ghost var got;
    ghost var at;
    var found;
    found, got, at := bt.SearchRange(i.l, i.r);
    if found.None? {
      return SearchFailed;
    }
    FoundMore(bt.Content(), rows, f, soFar, ivs, got, i);
    return Rows(soFar + found.value);
  }

  /**
   * `parseWhere` over an indexed field: one search, and for "or" a second one appended to it.
   * Nothing outside the intervals is found, and everything inside if no two rows share a left bound.
   */
  method SearchIndex(bt: Index, ghost rows: map<Uuid, Row>, f: Field, w: Where, hash: seq<Byte> -> Uuid) returns (r: Found)
    requires bt.Valid() && IndexOf(bt.Content(), rows, f)
    ensures r.BadClause? <==> !CalWhere(f.ftype, w, hash).Intervals?
    ensures r.SearchFailed? ==> exists n :: 0 <= n < |CalWhere(f.ftype, w, hash).ivs| && CalWhere(f.ftype, w, hash).ivs[n].l == INF
    ensures r.Rows? ==> FindsOnly(r.uuids, rows, f, CalWhere(f.ftype, w, hash).ivs)
    ensures r.Rows? && CleanStarts(bt.Content(), CalWhere(f.ftype, w, hash).ivs) ==>
              FindsAsCounted(r.uuids, rows, f, CalWhere(f.ftype, w, hash).ivs)
  {
    var c := CalWhere(f.ftype, w, hash);
    if !c.Intervals? {
      return BadClause;
    }
    r := SearchInterval(bt, rows, f, c.ivs[0], [], []);
    if r.SearchFailed? {
      assert c.ivs[0].l == INF;
      return;
    }
    assert [] + [c.ivs[0]] == [c.ivs[0]];
    if |c.ivs| == 2 {
      assert [c.ivs[0]] + [c.ivs[1]] == c.ivs;
      r := SearchInterval(bt, rows, f, c.ivs[1], r.uuids, [c.ivs[0]]);
      if r.SearchFailed? {
        assert c.ivs[1].l == INF;
      }
    } else {
      assert [c.ivs[0]] == c.ivs;
    }
  }

  /* ----- the full scan ----- */

  function Kept(all: seq<Uuid>, rows: map<Uuid, Row>, visible: set<Uuid>, fields: seq<Field>, w: Where): seq<Uuid> {
    if all == [] then []
    else
      var u := all[|all| - 1];
      Kept(all[..|all| - 1], rows, visible, fields, w) +
      if u in visible && u in rows && Evaluate(fields, rows[u], w) then [u] else []
  }

  lemma {:induction false} KeptCount(all: seq<Uuid>, rows: map<Uuid, Row>, visible: set<Uuid>, fields: seq<Field>, w: Where, u: Uuid)
    ensures multiset(Kept(all, rows, visible, fields, w))[u] ==
            if u in visible && u in rows && Evaluate(fields, rows[u], w) then multiset(all)[u] else 0
  {
    if all != [] {
      var n := |all| - 1;
      KeptCount(all[..n], rows, visible, fields, w, u);
      assert all == all[..n] + [all[n]];
    }
  }

  /** The filter loop over the UUIDs of all rows. */
  method FilterRows(all: seq<Uuid>, rows: map<Uuid, Row>, visible: set<Uuid>, fields: seq<Field>, w: Where) returns (result: seq<Uuid>)
    ensures result == Kept(all, rows, visible, fields, w)
  {
    result := [];
    var i := 0;
    while i < |all|
      invariant 0 <= i <= |all|
      invariant result == Kept(all[..i], rows, visible, fields, w)
    {
      assert all[..i + 1][..i] == all[..i];
      var u := all[i];
      if u in visible && u in rows && Evaluate(fields, rows[u], w) {
        result := result + [u];
      }
      i := i + 1;
    }
    assert all[..i] == all;
  }

  /** `fullScanFilter`: every row of the hidden index that is visible and satisfies the clause, once. */
  method FullScan(rowIndex: Index, rows: map<Uuid, Row>, visible: set<Uuid>, fields: seq<Field>, w: Where) returns (result: seq<Uuid>)
    requires rowIndex.Valid() && RowIndexOf(rowIndex.Content(), rows)
    ensures ScansRight(result, rows, visible, fields, w)
  {
    ghost var got;
    ghost var at;
    var found;
    RowsOnce(rowIndex.Content(), rows);
    found, got, at := rowIndex.SearchRange(0, INF);
    result := FilterRows(found.value, rows, visible, fields, w);
    ScanCounts(rowIndex.Content(), rows, visible, fields, w, got);
  }

  /** The visible rows that satisfy the clause, each once. */
  ghost predicate ScansRight(result: seq<Uuid>, rows: map<Uuid, Row>, visible: set<Uuid>, fields: seq<Field>, w: Where) {
    forall u :: multiset(result)[u] == if u in visible && u in rows && Evaluate(fields, rows[u], w) then 1 else 0
  }

  lemma ScanCounts(content: seq<Entry>, rows: map<Uuid, Row>, visible: set<Uuid>, fields: seq<Field>, w: Where, got: seq<Entry>)
    requires RowIndexOf(content, rows) && multiset(got) <= multiset(content) && Complete(content, got, 0, INF)
    ensures ScansRight(Kept(Sons(got), rows, visible, fields, w), rows, visible, fields, w)
  {
    var result := Kept(Sons(got), rows, visible, fields, w);
    forall u ensures multiset(result)[u] == if u in visible && u in rows && Evaluate(fields, rows[u], w) then 1 else 0 {
      KeptCount(Sons(got), rows, visible, fields, w, u);
      AllRows(content, rows, got, u);
    }
  }

  lemma RowsOnce(content: seq<Entry>, rows: map<Uuid, Row>)
    requires RowIndexOf(content, rows)
    ensures AtMostOnce(content, 0)
  {
    forall i, j | 0 <= i < j < |content| ensures content[i].key != 0 || content[j].key != 0 {
      var e := content[i];
      assert e in multiset(content) && content[j] in multiset(content);
      assert content == content[..j] + [content[j]] + content[j + 1..];
      assert content[..j][i] == e;
      assert e in multiset(content[..j]);
    }
  }

  lemma AllRows(content: seq<Entry>, rows: map<Uuid, Row>, got: seq<Entry>, u: Uuid)
    requires RowIndexOf(content, rows) && multiset(got) <= multiset(content) && Complete(content, got, 0, INF)
    ensures multiset(Sons(got))[u] == if u in rows then 1 else 0
  {
    forall j | 0 <= j < |got| && got[j].son == u ensures got[j].key == u {
      assert got[j] in multiset(got);
      assert multiset(content)[got[j]] > 0;
    }
    SonsCount(got, u, u);
  }

  /* ----- both ways agree ----- */

  /** What the index finds, seen by a transaction, is the set of rows the full scan finds. */
  lemma IndexAgreesWithScan(fields: seq<Field>, rows: map<Uuid, Row>, visible: set<Uuid>, f: Field, w: Where,
                            hash: seq<Byte> -> Uuid, indexed: seq<Uuid>, scanned: seq<Uuid>)
    requires AllKeyed(fields, rows, f) && w.exp1.field == f.name && Ranged(w.exp1.op)
    requires w.logic != "" ==> Ranged(w.exp2.op) && w.exp2.field == f.name
    requires CalWhere(f.ftype, w, hash).Intervals? && FindsAsCounted(indexed, rows, f, CalWhere(f.ftype, w, hash).ivs)
    requires ScansRight(scanned, rows, visible, fields, w)
    ensures forall u :: u in indexed && u in visible <==> u in scanned
  {
    var ivs := CalWhere(f.ftype, w, hash).ivs;
    forall u ensures u in indexed && u in visible <==> u in scanned {
      assert u in indexed <==> multiset(indexed)[u] > 0;
      assert u in scanned <==> multiset(scanned)[u] > 0;
      if u in rows {
        CountsSome(KeyOf(rows[u], f), ivs);
        OneFieldPreserved(fields, rows[u], f, KeyOf(rows[u], f), w, hash);
      }
    }
  }

  /** Unlike the scan, the index reports a row twice exactly if both conditions of an "or" hold. */
  lemma OrReportsTwiceIff(fields: seq<Field>, rows: map<Uuid, Row>, f: Field, w: Where, hash: seq<Byte> -> Uuid,
                          indexed: seq<Uuid>, u: Uuid)
    requires AllKeyed(fields, rows, f) && w.exp1.field == f.name && Ranged(w.exp1.op)
    requires w.logic == "or" && Ranged(w.exp2.op) && w.exp2.field == f.name && u in rows
    requires CalWhere(f.ftype, w, hash).Intervals? && FindsAsCounted(indexed, rows, f, CalWhere(f.ftype, w, hash).ivs)
    ensures multiset(indexed)[u] == 2 <==> Matches(fields, rows[u], w.exp1) && Matches(fields, rows[u], w.exp2)
  {
    var ivs, k := CalWhere(f.ftype, w, hash).ivs, KeyOf(rows[u], f);
    ExpPreserved(fields, rows[u], f, k, w.exp1, hash);
    ExpPreserved(fields, rows[u], f, k, w.exp2, hash);
    assert ivs[..1] == [ivs[0]] && ivs[..1][..0] == [];
    assert Counts(k, ivs) == Counts(k, ivs[..1]) + if Within(k, ivs[1]) then 1 else 0;
    assert Counts(k, ivs[..1]) == Counts(k, []) + if Within(k, ivs[0]) then 1 else 0;
  }
}
