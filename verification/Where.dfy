/** Field values, their keys in an index, and their order. */
module Fields {
  import opened Types
  import opened Bytes

  datatype FType = Uint32 | Uint64 | Text

  /** A field value; strings are their bytes. */
  datatype Value = Num(n: nat) | Str(s: seq<Byte>)

  datatype Field = Field(name: string, ftype: FType)

  /** A row: its values by field name. */
  type Row = map<string, Value>

  function Max(ft: FType): nat {
    if ft == Uint32 then 0xFFFF_FFFF else 0xFFFF_FFFF_FFFF_FFFF
  }

  /** A value of the field's type. */
  predicate Fits(ft: FType, v: Value) {
    if ft == Text then v.Str? && |v.s| <= 0xFFFF_FFFF else v.Num? && v.n <= Max(ft)
  }

  predicate IsDigit(b: Byte) {
    48 <= b <= 57
  }

  /** The number a string of decimal digits stands for. */
  function Decimal(s: seq<Byte>): Option<nat> {
    if s == [] || !IsDigit(s[|s| - 1]) then None
    else if |s| == 1 then Some(s[0] - 48)
    else
      match Decimal(s[..|s| - 1])
      case None => None
      case Some(n) => Some(10 * n + (s[|s| - 1] - 48))
  }

  /** `StrToValue`: numbers are decimal and must fit their type, strings are taken as they are. */
  function StrToValue(ft: FType, s: seq<Byte>): (v: Option<Value>)
    ensures v.Some? && ft != Text ==> Fits(ft, v.value)
  {
    if ft == Text then Some(Str(s))
    else
      match Decimal(s)
      case None => None
      case Some(n) => if n <= Max(ft) then Some(Num(n)) else None
  }

  predicate Below(a: seq<Byte>, b: seq<Byte>) {
    b != [] && (a == [] || a[0] < b[0] || (a[0] == b[0] && Below(a[1..], b[1..])))
  }

  /** `valueCompare`. */
  function Compare(a: Value, b: Value): int {
    match (a, b)
    case (Num(m), Num(n)) => (if m < n then -1 else if m > n then 1 else 0)
    case (Str(s), Str(t)) => (if Below(s, t) then -1 else if Below(t, s) then 1 else 0)
    case _ => 0
  }

  /** Two strings compare by their first difference, and a proper prefix stands before its string. */
  lemma {:induction false} BelowIff(a: seq<Byte>, b: seq<Byte>)
    ensures Below(a, b) <==>
      exists i :: 0 <= i <= |a| && i < |b| && a[..i] == b[..i] && (i == |a| || a[i] < b[i])
    decreases |b|
  {
    if b != [] && a != [] && a[0] == b[0] {
      BelowIff(a[1..], b[1..]);
      if Below(a, b) {
        var i :| 0 <= i <= |a[1..]| && i < |b[1..]| && a[1..][..i] == b[1..][..i] && (i == |a[1..]| || a[1..][i] < b[1..][i]);
        assert a[..i + 1] == [a[0]] + a[1..][..i] && b[..i + 1] == [b[0]] + b[1..][..i];
      }
      if i :| 0 <= i <= |a| && i < |b| && a[..i] == b[..i] && (i == |a| || a[i] < b[i]) {
        assert i > 0;
        assert a[1..][..i - 1] == a[..i][1..] && b[1..][..i - 1] == b[..i][1..];
      }
    } else if b != [] && (a == [] || a[0] < b[0]) {
      assert a[..0] == b[..0];
    } else if b != [] {
      forall i | 0 < i <= |a| && i < |b| ensures a[..i] != b[..i] {
        assert a[..i][0] == a[0] && b[..i][0] == b[0];
      }
    }
  }

  lemma {:induction false} OneOfThree(a: seq<Byte>, b: seq<Byte>)
    ensures if a == b then !Below(a, b) && !Below(b, a) else Below(a, b) <==> !Below(b, a)
    decreases |a|
  {
    if a != [] && b != [] {
      OneOfThree(a[1..], b[1..]);
      assert a == [a[0]] + a[1..] && b == [b[0]] + b[1..];
    }
  }

  lemma {:induction false} BelowThrough(a: seq<Byte>, b: seq<Byte>, c: seq<Byte>)
    requires Below(a, b) && Below(b, c)
    ensures Below(a, c)
    decreases |a|
  {
    if a != [] && a[0] == b[0] == c[0] {
      BelowThrough(a[1..], b[1..], c[1..]);
    }
  }

  /** Two values of one kind. */
  predicate Alike(a: Value, b: Value) {
    a.Num? <==> b.Num?
  }

  /** Values of one kind are totally ordered: numbers as numbers, strings by their first difference. */
  lemma CompareIsOrder(a: Value, b: Value, c: Value)
    requires Alike(a, b) && Alike(b, c)
    ensures Compare(a, b) == 0 <==> a == b
    ensures Compare(a, b) == -Compare(b, a)
    ensures Compare(a, b) < 0 && Compare(b, c) < 0 ==> Compare(a, c) < 0
    ensures a.Num? ==> (Compare(a, b) < 0 <==> a.n < b.n)
    ensures a.Str? ==> (Compare(a, b) < 0 <==> Below(a.s, b.s))
  {
    if a.Str? {
      OneOfThree(a.s, b.s);
      OneOfThree(b.s, c.s);
      OneOfThree(a.s, c.s);
      if Below(a.s, b.s) && Below(b.s, c.s) {
        BelowThrough(a.s, b.s, c.s);
      }
    }
  }

  /** A value's index key: a number itself, and `hash` of a string. */
  function ValueToUuid(v: Value, hash: seq<Byte> -> Uuid): Uuid {
    match v
    case Num(n) => if n <= INF then n else 0
    case Str(s) => hash(s)
  }
}

/** WHERE clauses: their meaning on a row, and the key intervals they are compiled to. */
module WhereClauses {
  import opened Types
  import opened Bytes
  import opened Fields

  datatype Exp = Exp(field: string, op: string, value: seq<Byte>)

  datatype Where = Where(exp1: Exp, logic: string, exp2: Exp)

  /** The first field of that name. */
  function FieldNamed(fields: seq<Field>, name: string): Option<Field> {
    if fields == [] then None
    else if fields[0].name == name then Some(fields[0])
    else FieldNamed(fields[1..], name)
  }

  /* ----- the meaning ----- */

  predicate Holds(op: string, cmp: int) {
    if op == "=" then cmp == 0
    else if op == "!=" then cmp != 0
    else if op == "<" then cmp < 0
    else if op == "<=" then cmp <= 0
    else if op == ">" then cmp > 0
    else if op == ">=" then cmp >= 0
    else false
  }

  /** `matchSingleExp`. */
  predicate Matches(fields: seq<Field>, row: Row, e: Exp) {
    && e.field in row
    && match FieldNamed(fields, e.field)
       case None => false
       case Some(f) =>
         match StrToValue(f.ftype, e.value)
         case None => false
         case Some(target) => Holds(e.op, Compare(row[e.field], target))
  }

  /** The condition can be tested on the row: its field is there, and its value is one of the field's kind. */
  predicate Testable(fields: seq<Field>, row: Row, e: Exp) {
    && e.field in row
    && match FieldNamed(fields, e.field)
       case None => false
       case Some(f) =>
         match StrToValue(f.ftype, e.value)
         case None => false
         case Some(target) => Alike(row[e.field], target)
  }

  function Target(fields: seq<Field>, e: Exp): Value
    requires FieldNamed(fields, e.field).Some? && StrToValue(FieldNamed(fields, e.field).value.ftype, e.value).Some?
  {
    StrToValue(FieldNamed(fields, e.field).value.ftype, e.value).value
  }

  /** The six operators on a row: less, equal and greater exclude each other, and the others are their complements. */
  lemma OperatorsAre(fields: seq<Field>, row: Row, e: Exp)
    requires Testable(fields, row, e)
    ensures var t, v := Target(fields, e), row[e.field];
      && (Matches(fields, row, e.(op := "=")) <==> v == t)
      && (Matches(fields, row, e.(op := "<")) <==> if v.Num? then v.n < t.n else Below(v.s, t.s))
      && (Matches(fields, row, e.(op := ">")) <==> if v.Num? then v.n > t.n else Below(t.s, v.s))
      && (Matches(fields, row, e.(op := "!=")) <==> v != t)
      && (Matches(fields, row, e.(op := ">=")) <==> !Matches(fields, row, e.(op := "<")))
      && (Matches(fields, row, e.(op := "<=")) <==> !Matches(fields, row, e.(op := ">")))
      && (Matches(fields, row, e) ==> e.op in {"=", "<", ">", "!=", "<=", ">="})
  {
    var t, v := Target(fields, e), row[e.field];
    CompareIsOrder(v, t, v);
    CompareIsOrder(t, v, t);
  }

  /** `evaluateWhere`. */
  predicate Evaluate(fields: seq<Field>, row: Row, w: Where) {
    var ok1 := Matches(fields, row, w.exp1);
    if w.logic == "" then ok1
    else if w.logic == "and" then ok1 && Matches(fields, row, w.exp2)
    else ok1 || Matches(fields, row, w.exp2)
  }

  /* ----- the compilation ----- */

  datatype Interval = Interval(l: Uuid, r: Uuid)

  predicate Within(k: Uuid, i: Interval) {
    i.l <= k <= i.r
  }

  /** `CalExp`; `None` is a value that is not of the field's type.  Other operators give [0, 0]. */
  function CalExp(ft: FType, e: Exp, hash: seq<Byte> -> Uuid): Option<Interval> {
    if e.op != "<" && e.op != "=" && e.op != ">" then Some(Interval(0, 0))
    else
      match StrToValue(ft, e.value)
      case None => None
      case Some(v) =>
        var u := ValueToUuid(v, hash);
        if e.op == "<" then Some(if u > 0 then Interval(0, u - 1) else Interval(1, 0))
        else if e.op == "=" then Some(Interval(u, u))
        else
          var left := (u + 1) % 0x1_0000_0000_0000_0000;
          Some(if left == 0 then Interval(1, 0) else Interval(left, INF))
  }

  function Meet(a: Interval, b: Interval): Interval {
    Interval(if b.l > a.l then b.l else a.l, if b.r < a.r then b.r else a.r)
  }

  datatype Compiled = Intervals(ivs: seq<Interval>) | BadValue | BadLogic

  /** `calWhere`: both conditions are compiled for the first one's field. */
  function CalWhere(ft: FType, w: Where, hash: seq<Byte> -> Uuid): Compiled {
    if w.logic != "" && w.logic != "or" && w.logic != "and" then BadLogic
    else
      match CalExp(ft, w.exp1, hash)
      case None => BadValue
      case Some(i) =>
        if w.logic == "" then Intervals([i])
        else
          match CalExp(ft, w.exp2, hash)
          case None => BadValue
          case Some(j) => if w.logic == "or" then Intervals([i, j]) else Intervals([Meet(i, j)])
  }

  predicate InSome(k: Uuid, ivs: seq<Interval>) {
    exists n :: 0 <= n < |ivs| && Within(k, ivs[n])
  }

  /* ----- the compilation preserves the meaning ----- */

  predicate Ranged(op: string) {
    op == "<" || op == "=" || op == ">"
  }

  /** A row whose field `f` holds the number `k`. */
  predicate Keyed(fields: seq<Field>, row: Row, f: Field, k: nat) {
    && FieldNamed(fields, f.name) == Some(f) && f.ftype != Text
    && f.name in row && row[f.name] == Num(k) && k <= Max(f.ftype)
  }

  /** One condition: a key is in the interval exactly if the row matches, also for empty intervals. */
  lemma ExpPreserved(fields: seq<Field>, row: Row, f: Field, k: Uuid, e: Exp, hash: seq<Byte> -> Uuid)
    requires Keyed(fields, row, f, k) && e.field == f.name && Ranged(e.op)
    requires CalExp(f.ftype, e, hash).Some?
    ensures Within(k, CalExp(f.ftype, e, hash).value) <==> Matches(fields, row, e)
  {
  }

  function Renamed(w: Where): Where {
    Where(w.exp1, w.logic, Exp(w.exp1.field, w.exp2.op, w.exp2.value))
  }

  /**
   * A whole clause: the intervals mean the clause with both conditions read as conditions on the
   * first one's field.
   */
  lemma WherePreserved(fields: seq<Field>, row: Row, f: Field, k: Uuid, w: Where, hash: seq<Byte> -> Uuid)
    requires Keyed(fields, row, f, k) && w.exp1.field == f.name && Ranged(w.exp1.op) && (w.logic != "" ==> Ranged(w.exp2.op))
    requires CalWhere(f.ftype, w, hash).Intervals?
    ensures InSome(k, CalWhere(f.ftype, w, hash).ivs) <==> Evaluate(fields, row, Renamed(w))
  {
    var ivs := CalWhere(f.ftype, w, hash).ivs;
    ExpPreserved(fields, row, f, k, w.exp1, hash);
    if w.logic != "" {
      ExpPreserved(fields, row, f, k, Renamed(w).exp2, hash);
    }
    if w.logic == "or" {
      assert Within(k, ivs[0]) || Within(k, ivs[1]) ==> InSome(k, ivs);
    } else {
      assert Within(k, ivs[0]) ==> InSome(k, ivs);
    }
  }

  /** On one field the compiled clause is the clause. */
  lemma OneFieldPreserved(fields: seq<Field>, row: Row, f: Field, k: Uuid, w: Where, hash: seq<Byte> -> Uuid)
    requires Keyed(fields, row, f, k) && w.exp1.field == f.name && Ranged(w.exp1.op)
    requires w.logic != "" ==> Ranged(w.exp2.op) && w.exp2.field == f.name
    requires CalWhere(f.ftype, w, hash).Intervals?
    ensures InSome(k, CalWhere(f.ftype, w, hash).ivs) <==> Evaluate(fields, row, w)
  {
    WherePreserved(fields, row, f, k, w, hash);
  }

  function OneField(f: Field): seq<Field> {
    [f]
  }

  function OneValue(f: Field, k: nat): Row {
    map[f.name := Num(k)]
  }

  /** The condition is compiled right for every row. */
  ghost predicate CompiledRight(f: Field, e: Exp, hash: seq<Byte> -> Uuid)
    requires CalExp(f.ftype, e, hash).Some?
  {
    forall k: Uuid :: k <= Max(f.ftype) ==>
      (Within(k, CalExp(f.ftype, e, hash).value) <==> Matches(OneField(f), OneValue(f, k), e))
  }

  /**
   * Which conditions on a number are compiled right: those with <, = or >, and of the others just
   * "at most 0", because every other operator is compiled to the interval [0, 0], whatever its value.
   */
  lemma CompiledRightIff(f: Field, e: Exp, hash: seq<Byte> -> Uuid)
    requires f.ftype != Text && e.field == f.name && CalExp(f.ftype, e, hash).Some?
    ensures CompiledRight(f, e, hash) <==>
              Ranged(e.op) || (e.op == "<=" && StrToValue(f.ftype, e.value) == Some(Num(0)))
  {
    assert FieldNamed(OneField(f), f.name) == Some(f);
    if Ranged(e.op) {
      RangedRight(f, e, hash);
    } else if StrToValue(f.ftype, e.value).Some? {
      OtherRightIff(f, e, hash);
    } else {
      assert Within(0, Interval(0, 0)) && !Matches(OneField(f), OneValue(f, 0), e);
    }
  }

  lemma RangedRight(f: Field, e: Exp, hash: seq<Byte> -> Uuid)
    requires f.ftype != Text && e.field == f.name && Ranged(e.op) && CalExp(f.ftype, e, hash).Some?
    ensures CompiledRight(f, e, hash)
  {
    forall k: Uuid | k <= Max(f.ftype)
      ensures Within(k, CalExp(f.ftype, e, hash).value) <==> Matches(OneField(f), OneValue(f, k), e)
    {
      ExpPreserved(OneField(f), OneValue(f, k), f, k, e, hash);
    }
  }

  lemma OtherRightIff(f: Field, e: Exp, hash: seq<Byte> -> Uuid)
    requires f.ftype != Text && e.field == f.name && !Ranged(e.op) && StrToValue(f.ftype, e.value).Some?
    ensures CompiledRight(f, e, hash) <==> e.op == "<=" && StrToValue(f.ftype, e.value) == Some(Num(0))
  {
    var fs, i, v := OneField(f), Interval(0, 0), StrToValue(f.ftype, e.value).value.n;
    var r0, r1, r2, rv := OneValue(f, 0), OneValue(f, 1), OneValue(f, 2), OneValue(f, v);
    assert Within(0, i) && !Within(1, i) && !Within(2, i) && (Within(v, i) <==> v == 0);
    assert Matches(fs, r0, e) <==> Holds(e.op, Compare(Num(0), Num(v)));
    assert Matches(fs, r1, e) <==> Holds(e.op, Compare(Num(1), Num(v)));
    assert Matches(fs, r2, e) <==> Holds(e.op, Compare(Num(2), Num(v)));
    assert Matches(fs, rv, e) <==> Holds(e.op, Compare(Num(v), Num(v)));
  }

  /* ----- two fields ----- */

  /** A row with a value for each of two fields. */
  function TwoValues(a: Field, ka: nat, b: Field, kb: nat): Row {
    map[a.name := Num(ka), b.name := Num(kb)]
  }

  /** The second condition is on another number. */
  predicate OnTwoFields(fields: seq<Field>, a: Field, b: Field, w: Where) {
    && a.name != b.name && a.ftype != Text && b.ftype != Text
    && FieldNamed(fields, a.name) == Some(a) && FieldNamed(fields, b.name) == Some(b)
    && w.exp1.field == a.name && w.exp2.field == b.name && Ranged(w.exp1.op) && Ranged(w.exp2.op)
    && StrToValue(a.ftype, w.exp1.value).Some? && StrToValue(a.ftype, w.exp2.value).Some? && StrToValue(b.ftype, w.exp2.value).Some?
  }

  /** No value of the field satisfies the condition: below 0, or above the largest value. */
  predicate Unsatisfiable(f: Field, e: Exp) {
    || (e.op == "<" && StrToValue(f.ftype, e.value) == Some(Num(0)))
    || (e.op == ">" && StrToValue(f.ftype, e.value) == Some(Num(Max(f.ftype))))
  }

  /** The clause is compiled right for all rows. */
  ghost predicate TwoFieldsRight(fields: seq<Field>, a: Field, b: Field, w: Where, hash: seq<Byte> -> Uuid)
    requires CalWhere(a.ftype, w, hash).Intervals?
  {
    forall ka: Uuid, kb: Uuid :: ka <= Max(a.ftype) && kb <= Max(b.ftype) ==>
      (InSome(ka, CalWhere(a.ftype, w, hash).ivs) <==> Evaluate(fields, TwoValues(a, ka, b, kb), w))
  }

  /** The values of the field that lie in the interval. */
  predicate NoneWithin(f: Field, i: Interval) {
    i.l > i.r || i.l > Max(f.ftype)
  }

  lemma NoneWithinIff(f: Field, i: Interval)
    ensures NoneWithin(f, i) <==> forall k: Uuid :: k <= Max(f.ftype) ==> !Within(k, i)
  {
    if !NoneWithin(f, i) {
      assert Within(i.l, i);
    }
  }

  lemma UnsatisfiableIff(f: Field, e: Exp, hash: seq<Byte> -> Uuid)
    requires f.ftype != Text && Ranged(e.op) && StrToValue(f.ftype, e.value).Some?
    ensures CalExp(f.ftype, e, hash).Some?
    ensures Unsatisfiable(f, e) <==> NoneWithin(f, CalExp(f.ftype, e, hash).value)
  {
  }

  /** A range condition never holds for every value. */
  lemma SomeOutside(f: Field, e: Exp, hash: seq<Byte> -> Uuid) returns (k: Uuid)
    requires f.ftype != Text && Ranged(e.op) && StrToValue(f.ftype, e.value).Some?
    ensures k <= Max(f.ftype) && CalExp(f.ftype, e, hash).Some? && !Within(k, CalExp(f.ftype, e, hash).value)
  {
    var v := StrToValue(f.ftype, e.value).value.n;
    if e.op == "=" {
      k := if v == 0 then 1 else 0;
    } else {
      k := v;
    }
  }

  /** What the clause says of a row with these two values. */
  lemma TwoFieldsMean(fields: seq<Field>, a: Field, b: Field, w: Where, hash: seq<Byte> -> Uuid, ka: Uuid, kb: Uuid)
    requires OnTwoFields(fields, a, b, w) && ka <= Max(a.ftype) && kb <= Max(b.ftype)
    ensures CalExp(a.ftype, w.exp1, hash).Some? && CalExp(b.ftype, w.exp2, hash).Some?
    ensures Matches(fields, TwoValues(a, ka, b, kb), w.exp1) <==> Within(ka, CalExp(a.ftype, w.exp1, hash).value)
    ensures Matches(fields, TwoValues(a, ka, b, kb), w.exp2) <==> Within(kb, CalExp(b.ftype, w.exp2, hash).value)
  {
    var row := TwoValues(a, ka, b, kb);
    ExpPreserved(fields, row, a, ka, w.exp1, hash);
    ExpPreserved(fields, row, b, kb, w.exp2, hash);
  }

  lemma OneInterval(k: Uuid, i: Interval)
    ensures InSome(k, [i]) <==> Within(k, i)
  {
    assert [i][0] == i;
  }

  lemma TwoIntervals(k: Uuid, i: Interval, j: Interval)
    ensures InSome(k, [i, j]) <==> Within(k, i) || Within(k, j)
  {
    assert [i, j][0] == i && [i, j][1] == j;
  }

  /**
   * An "and" over two fields is compiled right if and only if the first condition cannot hold, or
   * the second cannot hold on its own field and no value of the first field satisfies both.
   */
  lemma AndOfTwoFieldsRightIff(fields: seq<Field>, a: Field, b: Field, w: Where, hash: seq<Byte> -> Uuid)
    requires OnTwoFields(fields, a, b, w) && w.logic == "and"
    ensures CalExp(a.ftype, w.exp1, hash).Some? && CalExp(a.ftype, w.exp2, hash).Some? && CalWhere(a.ftype, w, hash).Intervals?
    ensures TwoFieldsRight(fields, a, b, w, hash) <==>
              || Unsatisfiable(a, w.exp1)
              || (Unsatisfiable(b, w.exp2) && NoneWithin(a, Meet(CalExp(a.ftype, w.exp1, hash).value, CalExp(a.ftype, w.exp2, hash).value)))
  {
    UnsatisfiableIff(a, w.exp1, hash);
    UnsatisfiableIff(b, w.exp2, hash);
    UnsatisfiableIff(a, w.exp2, hash);
    var i, j, l := CalExp(a.ftype, w.exp1, hash).value, CalExp(a.ftype, w.exp2, hash).value, CalExp(b.ftype, w.exp2, hash).value;
    var m := Meet(i, j);
    assert CalWhere(a.ftype, w, hash).ivs == [m];
    NoneWithinIff(a, i);
    NoneWithinIff(a, m);
    NoneWithinIff(b, l);
    forall ka: Uuid, kb: Uuid | ka <= Max(a.ftype) && kb <= Max(b.ftype)
      ensures InSome(ka, [m]) <==> Within(ka, i) && Within(ka, j)
      ensures Evaluate(fields, TwoValues(a, ka, b, kb), w) <==> Within(ka, i) && Within(kb, l)
    {
      OneInterval(ka, m);
      TwoFieldsMean(fields, a, b, w, hash, ka, kb);
    }
    var out := SomeOutside(b, w.exp2, hash);
    AndRight(fields, a, b, w, hash, i, j, l, out);
  }

  lemma AndRight(fields: seq<Field>, a: Field, b: Field, w: Where, hash: seq<Byte> -> Uuid, i: Interval, j: Interval, l: Interval, out: Uuid)
    requires CalWhere(a.ftype, w, hash) == Intervals([Meet(i, j)]) && out <= Max(b.ftype) && !Within(out, l)
    requires forall ka: Uuid, kb: Uuid :: ka <= Max(a.ftype) && kb <= Max(b.ftype) ==>
               && (InSome(ka, [Meet(i, j)]) <==> Within(ka, i) && Within(ka, j))
               && (Evaluate(fields, TwoValues(a, ka, b, kb), w) <==> Within(ka, i) && Within(kb, l))
    ensures TwoFieldsRight(fields, a, b, w, hash) <==>
              || (forall ka: Uuid :: ka <= Max(a.ftype) ==> !Within(ka, i))
              || ((forall kb: Uuid :: kb <= Max(b.ftype) ==> !Within(kb, l))
                  && forall ka: Uuid :: ka <= Max(a.ftype) ==> !Within(ka, Meet(i, j)))
  {
    var ivs := CalWhere(a.ftype, w, hash).ivs;
    if TwoFieldsRight(fields, a, b, w, hash) {
      forall ka: Uuid | ka <= Max(a.ftype) ensures !Within(ka, Meet(i, j)) {
        assert InSome(ka, ivs) <==> Evaluate(fields, TwoValues(a, ka, b, out), w);
      }
      if ka: Uuid :| ka <= Max(a.ftype) && Within(ka, i) {
        forall kb: Uuid | kb <= Max(b.ftype) ensures !Within(kb, l) {
          assert InSome(ka, ivs) <==> Evaluate(fields, TwoValues(a, ka, b, kb), w);
        }
      }
    }
  }

  /** An "or" over two fields is compiled right if and only if the second condition cannot hold on its own field and adds nothing on the first. */
  lemma OrOfTwoFieldsRightIff(fields: seq<Field>, a: Field, b: Field, w: Where, hash: seq<Byte> -> Uuid)
    requires OnTwoFields(fields, a, b, w) && w.logic == "or"
    ensures CalExp(a.ftype, w.exp1, hash).Some? && CalExp(a.ftype, w.exp2, hash).Some? && CalWhere(a.ftype, w, hash).Intervals?
    ensures var i, j := CalExp(a.ftype, w.exp1, hash).value, CalExp(a.ftype, w.exp2, hash).value;
            TwoFieldsRight(fields, a, b, w, hash) <==>
            Unsatisfiable(b, w.exp2) && forall ka: Uuid :: ka <= Max(a.ftype) && Within(ka, j) ==> Within(ka, i)
  {
    UnsatisfiableIff(a, w.exp1, hash);
    UnsatisfiableIff(b, w.exp2, hash);
    UnsatisfiableIff(a, w.exp2, hash);
    var i, j, l := CalExp(a.ftype, w.exp1, hash).value, CalExp(a.ftype, w.exp2, hash).value, CalExp(b.ftype, w.exp2, hash).value;
    assert CalWhere(a.ftype, w, hash).ivs == [i, j];
    NoneWithinIff(b, l);
    forall ka: Uuid, kb: Uuid | ka <= Max(a.ftype) && kb <= Max(b.ftype)
      ensures InSome(ka, [i, j]) <==> Within(ka, i) || Within(ka, j)
      ensures Evaluate(fields, TwoValues(a, ka, b, kb), w) <==> Within(ka, i) || Within(kb, l)
    {
      TwoIntervals(ka, i, j);
      TwoFieldsMean(fields, a, b, w, hash, ka, kb);
    }
    var outA := SomeOutside(a, w.exp1, hash);
    var outB := SomeOutside(b, w.exp2, hash);
    OrRight(fields, a, b, w, hash, i, j, l, outA, outB);
  }

  lemma OrRight(fields: seq<Field>, a: Field, b: Field, w: Where, hash: seq<Byte> -> Uuid, i: Interval, j: Interval, l: Interval,
                outA: Uuid, outB: Uuid)
    requires CalWhere(a.ftype, w, hash) == Intervals([i, j])
    requires outA <= Max(a.ftype) && !Within(outA, i) && outB <= Max(b.ftype) && !Within(outB, l)
    requires forall ka: Uuid, kb: Uuid :: ka <= Max(a.ftype) && kb <= Max(b.ftype) ==>
               && (InSome(ka, [i, j]) <==> Within(ka, i) || Within(ka, j))
               && (Evaluate(fields, TwoValues(a, ka, b, kb), w) <==> Within(ka, i) || Within(kb, l))
    ensures TwoFieldsRight(fields, a, b, w, hash) <==>
              && (forall kb: Uuid :: kb <= Max(b.ftype) ==> !Within(kb, l))
              && forall ka: Uuid :: ka <= Max(a.ftype) && Within(ka, j) ==> Within(ka, i)
  {
    var ivs := CalWhere(a.ftype, w, hash).ivs;
    if TwoFieldsRight(fields, a, b, w, hash) {
      forall ka: Uuid | ka <= Max(a.ftype) && Within(ka, j) ensures Within(ka, i) {
        assert InSome(ka, ivs) <==> Evaluate(fields, TwoValues(a, ka, b, outB), w);
      }
      forall kb: Uuid | kb <= Max(b.ftype) ensures !Within(kb, l) {
        assert InSome(outA, ivs) <==> Evaluate(fields, TwoValues(a, outA, b, kb), w);
        assert InSome(outA, ivs) <==> Evaluate(fields, TwoValues(a, outA, b, outB), w);
      }
    }
  }

  /** A second condition on another field is compared with the first field: here, a row is missed. */
  lemma OtherFieldIsMisread(hash: seq<Byte> -> Uuid)
    ensures var a, b := Field("a", Uint64), Field("b", Uint64);
            var w := Where(Exp("a", "<", [53]), "and", Exp("b", ">", [55]));
            var row := map["a" := Num(1), "b" := Num(9)];
            && Evaluate([a, b], row, w)
            && CalWhere(a.ftype, w, hash).Intervals? && !InSome(1, CalWhere(a.ftype, w, hash).ivs)
  {
    var a, b := Field("a", Uint64), Field("b", Uint64);
    assert Decimal([53]) == Some(5) && Decimal([55]) == Some(7);
    assert FieldNamed([a, b], "a") == Some(a);
    assert [a, b][1..] == [b];
    assert FieldNamed([a, b], "b") == FieldNamed([b], "b") == Some(b);
  }
}
