/** The stored form of a table row: its fields' values one after the other. */
module RowCodec {
  import opened Types
  import opened Bytes
  import opened Fields

  /** A length-prefixed string. */
  function VarStrToRaw(s: seq<Byte>): seq<Byte> {
    Put(|s|, 4) + s
  }

  /** The string in front, and the bytes it takes; `None` where the original reads past the end. */
  function ParseVarStr(raw: seq<Byte>): Option<(seq<Byte>, nat)> {
    if |raw| < 4 then None
    else
      var size := 4 + Parse(raw[..4]);
      if size > |raw| then None else Some((raw[4..size], size))
  }

  function ValueToRaw(ft: FType, v: Value): seq<Byte>
    requires Fits(ft, v)
  {
    match ft
    case Uint32 => Put(v.n, 4)
    case Uint64 => Put(v.n, 8)
    case Text => VarStrToRaw(v.s)
  }

  function ParseValue(ft: FType, raw: seq<Byte>): Option<(Value, nat)> {
    match ft
    case Uint32 => if |raw| < 4 then None else Some((Num(Parse(raw[..4])), 4))
    case Uint64 => if |raw| < 8 then None else Some((Num(Parse(raw[..8])), 8))
    case Text => match ParseVarStr(raw) case None => None case Some((s, n)) => Some((Str(s), n))
  }

  /** A value is read back whatever follows it. */
  lemma ValueRoundTrip(ft: FType, v: Value, tail: seq<Byte>)
    requires Fits(ft, v)
    ensures ParseValue(ft, ValueToRaw(ft, v) + tail) == Some((v, |ValueToRaw(ft, v)|))
  {
    Widths();
    var raw := ValueToRaw(ft, v) + tail;
    match ft {
      case Uint32 =>
        ParsePut(v.n, 4);
        assert raw[..4] == Put(v.n, 4);
      case Uint64 =>
        ParsePut(v.n, 8);
        assert raw[..8] == Put(v.n, 8);
      case Text =>
        ParsePut(|v.s|, 4);
        assert raw[..4] == Put(|v.s|, 4);
        assert raw[4..4 + |v.s|] == v.s;
    }
  }

  /** What was read is what writing the value again would give. */
  lemma ValueIsRead(ft: FType, raw: seq<Byte>)
    requires ParseValue(ft, raw).Some?
    ensures var (v, n) := ParseValue(ft, raw).value; Fits(ft, v) && n <= |raw| && ValueToRaw(ft, v) == raw[..n]
  {
    Widths();
    match ft {
      case Uint32 => PutParse(raw[..4]);
      case Uint64 => PutParse(raw[..8]);
      case Text =>
        PutParse(raw[..4]);
        var size := 4 + Parse(raw[..4]);
        assert raw[..size] == raw[..4] + raw[4..size];
    }
  }

  /* ----- rows ----- */

  predicate Distinct(fields: seq<Field>) {
    forall i, j :: 0 <= i < j < |fields| ==> fields[i].name != fields[j].name
  }

  function Names(fields: seq<Field>): set<string> {
    set i | 0 <= i < |fields| :: fields[i].name
  }

  /** The row has a value of the right type for every field. */
  predicate Typed(fields: seq<Field>, row: Row) {
    forall i :: 0 <= i < |fields| ==> fields[i].name in row && Fits(fields[i].ftype, row[fields[i].name])
  }

  function EntryToRaw(fields: seq<Field>, row: Row): seq<Byte>
    requires Typed(fields, row)
    decreases |fields|
  {
    if fields == [] then []
    else
      var n := |fields| - 1;
      EntryToRaw(fields[..n], row) + ValueToRaw(fields[n].ftype, row[fields[n].name])
  }

  /** The row in front, and the bytes it takes; a later field of the same name replaces an earlier one. */
  function ParseEntry(fields: seq<Field>, raw: seq<Byte>): Option<(Row, nat)>
    decreases |fields|
  {
    if fields == [] then Some((map[], 0))
    else
      var n := |fields| - 1;
      match ParseEntry(fields[..n], raw)
      case None => None
      case Some(read) => NextField(fields[n], raw, read)
  }

  function NextField(f: Field, raw: seq<Byte>, read: (Row, nat)): Option<(Row, nat)> {
    var (row, pos) := read;
    if pos > |raw| then None
    else
      match ParseValue(f.ftype, raw[pos..])
      case None => None
      case Some((v, shift)) => Some((row[f.name := v], pos + shift))
  }

  function Restricted(row: Row, names: set<string>): Row {
    map k | k in row && k in names :: row[k]
  }

  lemma FieldReads(f: Field, v: Value, raw: seq<Byte>, read: (Row, nat))
    requires Fits(f.ftype, v) && read.1 + |ValueToRaw(f.ftype, v)| <= |raw|
    requires raw[read.1..read.1 + |ValueToRaw(f.ftype, v)|] == ValueToRaw(f.ftype, v)
    ensures NextField(f, raw, read) == Some((read.0[f.name := v], read.1 + |ValueToRaw(f.ftype, v)|))
  {
    var mine, pos := ValueToRaw(f.ftype, v), read.1;
    Front(raw, pos, mine);
    ValueRoundTrip(f.ftype, v, raw[pos + |mine|..]);
  }

  lemma Front(raw: seq<Byte>, pos: nat, mine: seq<Byte>)
    requires pos + |mine| <= |raw| && raw[pos..pos + |mine|] == mine
    ensures raw[pos..] == mine + raw[pos + |mine|..]
  {
  }

  lemma RestrictedSnoc(fields: seq<Field>, row: Row)
    requires fields != [] && Typed(fields, row)
    ensures var f := fields[|fields| - 1];
            Restricted(row, Names(fields)) == Restricted(row, Names(fields[..|fields| - 1]))[f.name := row[f.name]]
  {
    NamesSnoc(fields);
  }

  lemma Split(raw: seq<Byte>, front: seq<Byte>, mine: seq<Byte>)
    requires front + mine <= raw
    ensures front <= raw && |front| + |mine| <= |raw| && raw[|front|..|front| + |mine|] == mine
  {
    assert raw[..|front| + |mine|] == front + mine;
    assert raw[..|front|] == (front + mine)[..|front|] == front;
  }

  /** A row is read back from the front of any bytes that begin with its stored form. */
  lemma {:induction false} RowReads(fields: seq<Field>, row: Row, raw: seq<Byte>)
    requires Typed(fields, row) && EntryToRaw(fields, row) <= raw
    ensures ParseEntry(fields, raw) == Some((Restricted(row, Names(fields)), |EntryToRaw(fields, row)|))
    decreases |fields|
  {
    if fields == [] {
      assert Restricted(row, Names(fields)) == map[];
    } else {
      var pre, f := fields[..|fields| - 1], fields[|fields| - 1];
      Split(raw, EntryToRaw(pre, row), ValueToRaw(f.ftype, row[f.name]));
      RowReads(pre, row, raw);
      LastFieldReads(fields, row, raw);
    }
  }

  lemma LastFieldReads(fields: seq<Field>, row: Row, raw: seq<Byte>)
    requires fields != [] && Typed(fields, row) && EntryToRaw(fields, row) <= raw
    requires var pre := fields[..|fields| - 1];
             ParseEntry(pre, raw) == Some((Restricted(row, Names(pre)), |EntryToRaw(pre, row)|))
    ensures ParseEntry(fields, raw) == Some((Restricted(row, Names(fields)), |EntryToRaw(fields, row)|))
  {
    var pre, f := fields[..|fields| - 1], fields[|fields| - 1];
    var front, mine := EntryToRaw(pre, row), ValueToRaw(f.ftype, row[f.name]);
    Split(raw, front, mine);
    var read := (Restricted(row, Names(pre)), |front|);
    FieldReads(f, row[f.name], raw, read);
    RestrictedSnoc(fields, row);
    LastField(fields, raw, read);
  }

  lemma LastField(fields: seq<Field>, raw: seq<Byte>, read: (Row, nat))
    requires fields != [] && ParseEntry(fields[..|fields| - 1], raw) == Some(read)
    ensures ParseEntry(fields, raw) == NextField(fields[|fields| - 1], raw, read)
  {
  }

  lemma NamesSnoc(fields: seq<Field>)
    requires fields != []
    ensures Names(fields) == Names(fields[..|fields| - 1]) + {fields[|fields| - 1].name}
  {
    var n := |fields| - 1;
    forall k | k in Names(fields) ensures k in Names(fields[..n]) + {fields[n].name} {
      var i :| 0 <= i < |fields| && fields[i].name == k;
      assert i < n ==> fields[..n][i].name == k;
    }
    forall k | k in Names(fields[..n]) ensures k in Names(fields) {
      var i :| 0 <= i < n && fields[..n][i].name == k;
      assert fields[i].name == k;
    }
  }

  lemma RowRoundTrip(fields: seq<Field>, row: Row)
    requires Typed(fields, row) && row.Keys == Names(fields)
    ensures ParseEntry(fields, EntryToRaw(fields, row)) == Some((row, |EntryToRaw(fields, row)|))
  {
    RowReads(fields, row, EntryToRaw(fields, row));
    assert Restricted(row, Names(fields)) == row;
  }

  lemma FieldIsRead(f: Field, raw: seq<Byte>, read: (Row, nat))
    requires NextField(f, raw, read).Some?
    ensures var (row, n) := NextField(f, raw, read).value;
            && read.1 <= n <= |raw| && f.name in row && row == read.0[f.name := row[f.name]]
            && Fits(f.ftype, row[f.name]) && ValueToRaw(f.ftype, row[f.name]) == raw[read.1..n]
  {
    ValueIsRead(f.ftype, raw[read.1..]);
    var (v, shift) := ParseValue(f.ftype, raw[read.1..]).value;
    assert raw[read.1..][..shift] == raw[read.1..read.1 + shift];
  }

  /** A value for one more field. */
  lemma TypedSnoc(fields: seq<Field>, row0: Row, v: Value)
    requires fields != [] && Distinct(fields) && Typed(fields[..|fields| - 1], row0) && row0.Keys == Names(fields[..|fields| - 1])
    requires Fits(fields[|fields| - 1].ftype, v)
    ensures var n := |fields| - 1;
            var row := row0[fields[n].name := v];
            && row.Keys == Names(fields) && Typed(fields, row)
            && EntryToRaw(fields, row) == EntryToRaw(fields[..n], row0) + ValueToRaw(fields[n].ftype, v)
  {
    var n := |fields| - 1;
    var pre, row := fields[..n], row0[fields[n].name := v];
    NamesSnoc(fields);
    OtherNames(fields, row0, v);
    SameFront(pre, row0, row);
  }

  lemma OtherNames(fields: seq<Field>, row0: Row, v: Value)
    requires fields != [] && Distinct(fields) && Typed(fields[..|fields| - 1], row0) && Fits(fields[|fields| - 1].ftype, v)
    ensures var n := |fields| - 1;
            var row := row0[fields[n].name := v];
            && Typed(fields, row) && Typed(fields[..n], row)
            && forall i :: 0 <= i < n ==> row0[fields[..n][i].name] == row[fields[..n][i].name]
  {
    var n := |fields| - 1;
    var pre, row := fields[..n], row0[fields[n].name := v];
    forall i | 0 <= i < n ensures pre[i] == fields[i] && pre[i].name in row && row[pre[i].name] == row0[pre[i].name] {
    }
  }

  lemma Joint(raw: seq<Byte>, a: nat, b: nat)
    requires a <= b <= |raw|
    ensures raw[..b] == raw[..a] + raw[a..b]
  {
  }

  /** Whatever bytes are read as a row, the row's stored form is those bytes. */
  lemma {:induction false} RowIsRead(fields: seq<Field>, raw: seq<Byte>)
    requires Distinct(fields) && ParseEntry(fields, raw).Some?
    ensures var (row, n) := ParseEntry(fields, raw).value;
            && row.Keys == Names(fields) && Typed(fields, row) && n <= |raw|
            && EntryToRaw(fields, row) == raw[..n]
    decreases |fields|
  {
    if fields != [] {
      var pre, f := fields[..|fields| - 1], fields[|fields| - 1];
      RowIsRead(pre, raw);
      var read := ParseEntry(pre, raw).value;
      FieldIsRead(f, raw, read);
      var (row, n) := ParseEntry(fields, raw).value;
      TypedSnoc(fields, read.0, row[f.name]);
      Joint(raw, read.1, n);
    }
  }

  lemma {:induction false} SameFront(fields: seq<Field>, a: Row, b: Row)
    requires Typed(fields, a) && Typed(fields, b)
    requires forall i :: 0 <= i < |fields| ==> a[fields[i].name] == b[fields[i].name]
    ensures EntryToRaw(fields, a) == EntryToRaw(fields, b)
    decreases |fields|
  {
    if fields != [] {
      SameFront(fields[..|fields| - 1], a, b);
    }
  }

  lemma EntryNext(fields: seq<Field>, i: nat, row: Row)
    requires Typed(fields, row) && i < |fields|
    ensures Typed(fields[..i], row) && Typed(fields[..i + 1], row)
    ensures EntryToRaw(fields[..i + 1], row) == EntryToRaw(fields[..i], row) + ValueToRaw(fields[i].ftype, row[fields[i].name])
  {
    assert fields[..i + 1][..i] == fields[..i];
  }

  /** `entryToRaw`: the fields' values are appended in turn. */
  method WriteEntry(fields: seq<Field>, row: Row) returns (raw: seq<Byte>)
    requires Typed(fields, row)
    ensures raw == EntryToRaw(fields, row)
  {
    raw := [];
    var i := 0;
    while i < |fields|
      invariant 0 <= i <= |fields|
      invariant Typed(fields[..i], row) && raw == EntryToRaw(fields[..i], row)
    {
      EntryNext(fields, i, row);
      raw := raw + ValueToRaw(fields[i].ftype, row[fields[i].name]);
      i := i + 1;
    }
    assert fields[..i] == fields;
  }

  /** `parseEntry`: the fields' values are read in turn, each behind the one before. */
  method ReadEntry(fields: seq<Field>, raw: seq<Byte>) returns (row: Option<Row>)
    ensures row == match ParseEntry(fields, raw) case None => None case Some((r, _)) => Some(r)
  {
    var e: Row := map[];
    var pos, i := 0, 0;
    while i < |fields|
      invariant 0 <= i <= |fields|
      invariant ParseEntry(fields[..i], raw) == Some((e, pos))
    {
      assert fields[..i + 1][..i] == fields[..i];
      var next := NextField(fields[i], raw, (e, pos));
      if next.None? {
        NoEntry(fields, raw, i + 1);
        return None;
      }
      e, pos := next.value.0, next.value.1;
      i := i + 1;
    }
    assert fields[..i] == fields;
    row := Some(e);
  }

  lemma {:induction false} NoEntry(fields: seq<Field>, raw: seq<Byte>, n: nat)
    requires n <= |fields| && ParseEntry(fields[..n], raw).None?
    ensures ParseEntry(fields, raw).None?
    decreases |fields|
  {
    if n < |fields| {
      assert fields[..|fields| - 1][..n] == fields[..n];
      NoEntry(fields[..|fields| - 1], raw, n);
    } else {
      assert fields[..n] == fields;
    }
  }
}
