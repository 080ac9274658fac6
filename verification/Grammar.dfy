/** The grammar as a writer of statements, and the proof that the parser reads them back. */
module Grammar {
  import opened Types
  import opened Lexer
  import opened Tokener
  import opened Statements
  import opened Parser

  /** A letter, then letters and digits. */
  predicate IsIdent(t: string) {
    IsWord(t) && IsLetter(t[0])
  }

  /** Neither empty nor a symbol of the language. */
  predicate IsValue(t: string) {
    t != "" && !IsSymbolToken(t)
  }

  predicate AllIdents(ns: seq<string>) {
    forall i :: 0 <= i < |ns| ==> IsIdent(ns[i])
  }

  predicate AllValues(vs: seq<string>) {
    forall i :: 0 <= i < |vs| ==> IsValue(vs[i])
  }

  /* ----- the statements of the language ----- */

  predicate ExpOk(e: Exp) {
    IsIdent(e.field) && IsCmpOp(e.op) && IsValue(e.value)
  }

  predicate WhereOk(w: Where) {
    && ExpOk(w.exp1)
    && match w.exp2
       case None => w.logic == ""
       case Some(e) => IsLogicOp(w.logic) && ExpOk(e)
  }

  predicate AggOk(a: Aggregate) {
    IsAggFunc(a.func) && (IsIdent(a.field) || (a.field == "*" && a.func == "count"))
  }

  const MAX_INT: int := 0x7FFF_FFFF_FFFF_FFFF

  predicate Counted(n: int) {
    0 <= n <= MAX_INT
  }

  predicate ReadOk(s: Statement)
    requires s.Read?
  {
    && IsIdent(s.table)
    && ((s.fields == ["*"] && s.aggs == []) || (AllIdents(s.fields) && (forall i :: 0 <= i < |s.fields| ==> !IsAggFunc(s.fields[i]))))
    && (forall i :: 0 <= i < |s.aggs| ==> AggOk(s.aggs[i]))
    && |s.fields| + |s.aggs| > 0
    && (s.cond.Some? ==> WhereOk(s.cond.value))
    && (s.orderBy == "" || IsIdent(s.orderBy)) && (s.desc ==> s.orderBy != "")
    && Counted(s.limit) && Counted(s.offset)
    && (s.cond.Some? && s.cond.value.exp2.Some? ==> s.orderBy == "" && s.limit == 0 && s.offset == 0)
  }

  /** The statements that can be written in the grammar. */
  predicate InLanguage(s: Statement) {
    match s
    case Begin(_) => true
    case Commit => true
    case Abort => true
    case Show => true
    case Drop(table) => IsIdent(table)
    case Create(table, names, types, index) =>
      && IsIdent(table) && |names| == |types| > 0 && AllIdents(names) && AllIdents(index)
      && forall i :: 0 <= i < |types| ==> IsType(types[i])
    case Insert(table, values, rows) =>
      && IsIdent(table)
      && if rows == [] then values != [] && AllValues(values)
         else values == [] && forall i :: 0 <= i < |rows| ==> AllValues(rows[i])
    case Read(_, _, _, _, _, _, _, _) => ReadOk(s)
    case Delete(table, w) => IsIdent(table) && WhereOk(w)
    case Update(table, field, value, cond) =>
      IsIdent(table) && IsIdent(field) && IsValue(value) && (cond.Some? ==> WhereOk(cond.value))
  }

  /* ----- writing them, in front of the tokens `k` ----- */

  /**
   * The grammar's choices: the default isolation level written out, a comma before the index clause, an
   * index clause without names, bulk rows without commas, `select` for `read`, `asc` and a limit of 0 written out.
   */
  datatype Style = Style(level: bool, comma: bool, emptyList: bool, bare: bool, select: bool, asc: bool, zero: bool)

  /** The parser takes this for the end: the end, or a quoted empty token. */
  predicate Stops(k: Tokens) {
    Head(k) == Token("")
  }

  function WriteOp(op: string, k: Tokens): Tokens {
    if |op| == 2 then Tok(op[..1], Tok("=", k)) else Tok(op, k)
  }

  function WriteExp(e: Exp, k: Tokens): Tokens {
    Tok(e.field, WriteOp(e.op, Tok(e.value, k)))
  }

  function WriteWhere(w: Where, k: Tokens): Tokens {
    Tok("where", WriteExp(w.exp1, if w.exp2.Some? then Tok(w.logic, WriteExp(w.exp2.value, k)) else k))
  }

  function WriteMaybe(w: Option<Where>, k: Tokens): Tokens {
    if w.Some? then WriteWhere(w.value, k) else k
  }

  function WriteAll(ts: seq<string>, k: Tokens): Tokens {
    if ts == [] then k else Tok(ts[0], WriteAll(ts[1..], k))
  }

  function WriteFields(names: seq<string>, types: seq<string>, k: Tokens): Tokens
    requires |names| == |types|
  {
    if names == [] then k
    else
      Tok(names[0], Tok(types[0],
        if |names| == 1 then k else Tok(",", WriteFields(names[1..], types[1..], k))))
  }

  /** The values of a row, with commas between them or without, and the closing brace. */
  function WriteRow(vs: seq<string>, bare: bool, k: Tokens): Tokens {
    if vs == [] then Tok("}", k)
    else
      var more := WriteRow(vs[1..], bare, k);
      Tok(vs[0], if |vs| == 1 || bare then more else Tok(",", more))
  }

  function WriteRows(rows: seq<seq<string>>, bare: bool, k: Tokens): Tokens {
    if rows == [] then k
    else Tok("{", WriteRow(rows[0], bare, if |rows| == 1 then k else Tok(",", WriteRows(rows[1..], bare, k))))
  }

  /** The index clause; without names it may be left out, and a comma may stand before it. */
  function WriteIndex(index: seq<string>, st: Style, k: Tokens): Tokens {
    if index == [] && !st.emptyList then k
    else
      var list := Tok("(", Tok("index", WriteAll(index, Tok(")", k))));
      if st.comma then Tok(",", list) else list
  }

  function WriteItem(i: Item, k: Tokens): Tokens {
    match i
    case Field(n) => Tok(n, k)
    case Agg(a) => Tok(a.func, Tok("(", Tok(a.field, Tok(")", k))))
  }

  function WriteItems(items: seq<Item>, k: Tokens): Tokens {
    if items == [] then k
    else WriteItem(items[0], if |items| == 1 then k else Tok(",", WriteItems(items[1..], k)))
  }

  function FieldItems(fs: seq<string>): seq<Item> {
    seq(|fs|, i requires 0 <= i < |fs| => Field(fs[i]))
  }

  function AggItems(aggs: seq<Aggregate>): seq<Item> {
    seq(|aggs|, i requires 0 <= i < |aggs| => Agg(aggs[i]))
  }

  function ToStr(n: nat): (s: string)
    ensures s != "" && forall i :: 0 <= i < |s| ==> IsDigit(s[i])
  {
    if n < 10 then [('0' as int + n) as char] else ToStr(n / 10) + [('0' as int + n % 10) as char]
  }

  function WriteOrder(orderBy: string, desc: bool, asc: bool, k: Tokens): Tokens {
    if orderBy == "" then k
    else Tok("order", Tok("by", Tok(orderBy, if desc then Tok("desc", k) else if asc then Tok("asc", k) else k)))
  }

  function WriteLimit(limit: int, offset: int, zero: bool, k: Tokens): Tokens {
    if limit <= 0 && offset <= 0 && !zero then k
    else
      Tok("limit", Tok(ToStr(if limit > 0 then limit else 0),
        if offset > 0 then Tok("offset", Tok(ToStr(offset), k)) else k))
  }

  predicate TwoConditions(cond: Option<Where>) {
    cond.Some? && cond.value.exp2.Some?
  }

  /** What stands behind the condition of a read statement; behind two conditions nothing may. */
  function Tail(s: Statement, st: Style, k: Tokens): Tokens
    requires s.Read?
  {
    if TwoConditions(s.cond) then k
    else WriteOrder(s.orderBy, s.desc, st.asc, WriteLimit(s.limit, s.offset, st.zero, k))
  }

  function Write(s: Statement, st: Style, k: Tokens): Tokens
    requires InLanguage(s)
  {
    match s
    case Begin(rr) =>
      Tok("begin",
        if rr then Tok("isolation", Tok("level", Tok("repeatable", Tok("read", k))))
        else if st.level then Tok("isolation", Tok("level", Tok("read", Tok("committed", k))))
        else k)
    case Commit => Tok("commit", k)
    case Abort => Tok("abort", k)
    case Show => Tok("show", k)
    case Drop(table) => Tok("drop", Tok("table", Tok(table, k)))
    case Create(table, names, types, index) =>
      Tok("create", Tok("table", Tok(table, WriteFields(names, types, WriteIndex(index, st, k)))))
    case Insert(table, values, rows) =>
      Tok("insert", Tok("into", Tok(table, Tok("values", if rows == [] then WriteAll(values, k) else WriteRows(rows, st.bare, k)))))
    case Read(table, fields, aggs, cond, _, _, _, _) =>
      Tok(if st.select then "select" else "read",
        WriteItems(FieldItems(fields) + AggItems(aggs), Tok("from", Tok(table, WriteMaybe(cond, Tail(s, st, k))))))
    case Delete(table, w) => Tok("delete", Tok("from", Tok(table, WriteWhere(w, k))))
    case Update(table, field, value, cond) =>
      Tok("update", Tok(table, Tok("set", Tok(field, Tok("=", Tok(value, WriteMaybe(cond, k)))))))
  }

  /* ----- reading them back ----- */

  lemma OpBack(op: string, k: Tokens)
    requires IsCmpOp(op) && k.Tok? && k.head != "="
    ensures CmpOp(WriteOp(op, k)) == Ok((op, k))
  {
    if op == "!=" {
      assert op[..1] == "!" && "!" + "=" == op;
    } else if op == "<=" {
      assert op[..1] == "<" && "<" + "=" == op;
    } else if op == ">=" {
      assert op[..1] == ">" && ">" + "=" == op;
    }
  }

  lemma ValueIsNot(v: string, s: char)
    requires IsValue(v) && IsSymbol(s)
    ensures v != [s]
  {
  }

  lemma IdentIsNot(t: string, s: char)
    requires IsIdent(t) && IsSymbol(s)
    ensures t != [s] && t != "" && IsName(t)
  {
    assert t[0] != s;
  }

  lemma ExpBack(e: Exp, k: Tokens)
    requires ExpOk(e)
    ensures SingleExp(WriteExp(e, k)) == Ok((e, k))
  {
    IdentIsNot(e.field, '=');
    ValueIsNot(e.value, '=');
    OpBack(e.op, Tok(e.value, k));
  }

  /** What may follow the conditions: after two of them nothing, after one no logic operator. */
  predicate MayFollow(w: Where, k: Tokens) {
    match Head(k)
    case Token(t) => if w.exp2.Some? then t == "" else !IsLogicOp(t)
    case Invalid => false
  }

  lemma WhereBack(w: Where, k: Tokens)
    requires WhereOk(w) && MayFollow(w, k)
    ensures Condition(WriteWhere(w, k)) == Ok((w, k))
  {
    if w.exp2.Some? {
      ExpBack(w.exp1, Tok(w.logic, WriteExp(w.exp2.value, k)));
      ExpBack(w.exp2.value, k);
    } else {
      ExpBack(w.exp1, k);
    }
  }

  lemma {:induction false} IndexBack(ns: seq<string>, k: Tokens)
    requires AllIdents(ns)
    ensures IndexList(WriteAll(ns, Tok(")", k))) == Ok((ns, k))
  {
    if ns != [] {
      IdentIsNot(ns[0], ')');
      IndexBack(ns[1..], k);
      assert [ns[0]] + ns[1..] == ns;
    }
  }

  /** What may stand behind the fields: the end, or an index clause. */
  predicate FieldsMayEnd(k: Tokens) {
    || Stops(k) || (k.Tok? && k.head == "(")
    || (k.Tok? && k.head == "," && k.tail.Tok? && k.tail.head == "(")
  }

  /** The tokens behind the parenthesis of an index clause. */
  function AfterFields(k: Tokens): (bool, Tokens) {
    if Stops(k) then (false, k)
    else if k.Tok? && k.head == "(" then (true, k.tail)
    else (true, Rest(Rest(k)))
  }

  lemma LastFieldBack(name: string, ftype: string, k: Tokens)
    requires IsIdent(name) && IsType(ftype) && FieldsMayEnd(k)
    ensures var (index, rest) := AfterFields(k);
            FieldList(Tok(name, Tok(ftype, k))) == Ok(([name], [ftype], index, rest))
  {
    IdentIsNot(name, '(');
    if k.Tok? && k.head == "," {
      assert FieldList(k.tail) == Ok(([], [], true, k.tail.tail));
      assert [name] + [] == [name] && [ftype] + [] == [ftype];
    }
  }

  lemma {:induction false} FieldsBack(names: seq<string>, types: seq<string>, k: Tokens)
    requires |names| == |types| > 0 && AllIdents(names) && forall i :: 0 <= i < |types| ==> IsType(types[i])
    requires FieldsMayEnd(k)
    ensures var (index, rest) := AfterFields(k);
            FieldList(WriteFields(names, types, k)) == Ok((names, types, index, rest))
  {
    if |names| == 1 {
      LastFieldBack(names[0], types[0], k);
      assert names == [names[0]] && types == [types[0]];
    } else {
      IdentIsNot(names[0], '(');
      FieldsBack(names[1..], types[1..], k);
      assert [names[0]] + names[1..] == names && [types[0]] + types[1..] == types;
    }
  }

  lemma {:induction false} ValuesBack(vs: seq<string>, k: Tokens)
    requires AllValues(vs) && Stops(k)
    ensures ValueList(WriteAll(vs, k)) == Ok((vs, k))
  {
    if vs != [] {
      ValuesBack(vs[1..], k);
      assert [vs[0]] + vs[1..] == vs;
    }
  }

  lemma {:induction false} RowBack(vs: seq<string>, bare: bool, k: Tokens)
    requires AllValues(vs)
    ensures RowValues(WriteRow(vs, bare, k)) == Ok((vs, k))
  {
    if vs != [] {
      ValueIsNot(vs[0], '}');
      ValueIsNot(vs[0], ',');
      RowBack(vs[1..], bare, k);
      assert [vs[0]] + vs[1..] == vs;
    }
  }

  /** Any number of rows. */
  lemma {:induction false} RowsBack(rows: seq<seq<string>>, bare: bool, k: Tokens)
    requires rows != [] && (forall i :: 0 <= i < |rows| ==> AllValues(rows[i])) && Stops(k)
    ensures WriteRows(rows, bare, k).Tok? && RowList(WriteRows(rows, bare, k).tail) == Ok((rows, k))
  {
    if |rows| == 1 {
      RowBack(rows[0], bare, k);
      assert rows == [rows[0]];
    } else {
      RowsBack(rows[1..], bare, k);
      RowBack(rows[0], bare, Tok(",", WriteRows(rows[1..], bare, k)));
      assert [rows[0]] + rows[1..] == rows;
    }
  }

  predicate ItemOk(i: Item) {
    match i
    case Field(n) => IsIdent(n) && !IsAggFunc(n)
    case Agg(a) => AggOk(a)
  }

  lemma ItemBack(i: Item, k: Tokens)
    requires ItemOk(i)
    ensures ReadItem(WriteItem(i, k)) == Ok((i, k))
  {
    match i {
      case Field(n) => IdentIsNot(n, ',');
      case Agg(a) =>
        if a.field != "*" {
          IdentIsNot(a.field, ')');
        }
    }
  }

  lemma {:induction false} ItemsBack(items: seq<Item>, k: Tokens)
    requires items != [] && forall i :: 0 <= i < |items| ==> ItemOk(items[i])
    requires k.Tok? && k.head != ","
    ensures ItemList(WriteItems(items, k)) == Ok((items, k))
  {
    if |items| == 1 {
      ItemBack(items[0], k);
      assert items == [items[0]];
    } else {
      ItemBack(items[0], Tok(",", WriteItems(items[1..], k)));
      ItemsBack(items[1..], k);
      assert [items[0]] + items[1..] == items;
    }
  }

  /** Fields and aggregates are told apart again. */
  lemma {:induction false} ItemsSplit(fields: seq<string>, aggs: seq<Aggregate>)
    ensures FieldsOf(FieldItems(fields) + AggItems(aggs)) == fields
    ensures AggsOf(FieldItems(fields) + AggItems(aggs)) == aggs
    decreases |fields|, |aggs|
  {
    var items := FieldItems(fields) + AggItems(aggs);
    if fields != [] {
      assert items[1..] == FieldItems(fields[1..]) + AggItems(aggs);
      ItemsSplit(fields[1..], aggs);
    } else if aggs != [] {
      assert items[1..] == FieldItems([]) + AggItems(aggs[1..]);
      ItemsSplit([], aggs[1..]);
    }
  }

  lemma {:induction false} NumberBack(n: nat)
    requires n <= MAX_INT
    ensures StrToInt(ToStr(n)) == Some(n)
  {
    var s := ToStr(n);
    if n < 10 {
      assert s[..0] == "";
      assert StrToInt("") == Some(0);
    } else {
      NumberBack(n / 10);
      assert s[..|s| - 1] == ToStr(n / 10);
    }
  }

  lemma OrderBack(orderBy: string, desc: bool, asc: bool, k: Tokens)
    requires (orderBy == "" || IsIdent(orderBy)) && (desc ==> orderBy != "")
    requires Stops(k) || (k.Tok? && k.head == "limit")
    ensures OrderClause(WriteOrder(orderBy, desc, asc, k)) == Ok((orderBy, desc, k))
  {
    if orderBy != "" {
      IdentIsNot(orderBy, ',');
    }
  }

  predicate WritesLimit(s: Statement, st: Style) {
    s.Read? && !TwoConditions(s.cond) && (s.limit > 0 || s.offset > 0 || st.zero)
  }

  /** How the text may go on: it stops, or it breaks off behind a limit. */
  predicate MayEnd(s: Statement, st: Style, k: Tokens) {
    Stops(k) || (k == Broken && WritesLimit(s, st))
  }

  lemma LimitBack(limit: int, offset: int, zero: bool, k: Tokens)
    requires Counted(limit) && Counted(offset) && (Stops(k) || (k == Broken && (limit > 0 || offset > 0 || zero)))
    ensures LimitClause(WriteLimit(limit, offset, zero, k)) == Ok((limit, offset, k))
  {
    NumberBack(limit);
    NumberBack(offset);
  }

  lemma TailStarts(s: Statement, st: Style, k: Tokens)
    requires s.Read? && ReadOk(s) && MayEnd(s, st, k)
    ensures var t := Tail(s, st, k);
            || (Stops(t) && t == k)
            || (t.Tok? && (t.head == "order" || t.head == "limit") && !TwoConditions(s.cond))
  {
  }

  lemma ConditionBack(s: Statement, st: Style, k: Tokens)
    requires s.Read? && ReadOk(s) && MayEnd(s, st, k)
    ensures var ts := WriteMaybe(s.cond, Tail(s, st, k));
            Head(ts).Token? && (Head(ts).t == "" ==> s.cond.None? && Tail(s, st, k) == k && ts == k) &&
            OptionalCondition(ts, Head(ts).t) == Ok((s.cond, Tail(s, st, k)))
  {
    TailStarts(s, st, k);
    if s.cond.Some? {
      WhereBack(s.cond.value, Tail(s, st, k));
    }
  }

  /** The clauses behind the condition; an end in their place means there are none. */
  lemma TailBack(s: Statement, st: Style, k: Tokens)
    requires s.Read? && ReadOk(s) && MayEnd(s, st, k)
    ensures var t := Tail(s, st, k);
            && OrderClause(t).Ok? && OrderClause(t).v.0 == s.orderBy && OrderClause(t).v.1 == s.desc
            && LimitClause(OrderClause(t).v.2) == Ok((s.limit, s.offset, k))
            && (Stops(t) ==> s.orderBy == "" && !s.desc && s.limit == 0 && s.offset == 0)
  {
    if !TwoConditions(s.cond) {
      var l := WriteLimit(s.limit, s.offset, st.zero, k);
      OrderBack(s.orderBy, s.desc, st.asc, l);
      LimitBack(s.limit, s.offset, st.zero, k);
    }
  }

  lemma ItemsOk(s: Statement)
    requires s.Read? && ReadOk(s)
    ensures var items := FieldItems(s.fields) + AggItems(s.aggs);
            items != [] && (s.fields != ["*"] ==> forall i :: 0 <= i < |items| ==> ItemOk(items[i]))
  {
  }

  lemma HeadOfItems(items: seq<Item>, k: Tokens)
    requires items != [] && ItemOk(items[0])
    ensures WriteItems(items, k).Tok? && WriteItems(items, k).head != "*" && WriteItems(items, k).head != ""
  {
    match items[0] {
      case Field(n) => IdentIsNot(n, '*');
      case Agg(a) =>
    }
  }

  /** The fields and aggregates of a read statement. */
  lemma ItemsRead(s: Statement, k: Tokens)
    requires s.Read? && ReadOk(s) && k.Tok? && k.head == "from"
    ensures var items := FieldItems(s.fields) + AggItems(s.aggs);
            var ts := WriteItems(items, k);
            && ts.Tok?
            && (if ts.head == "*" then Ok(([Field("*")], Rest(ts))) else ItemList(ts)) == Ok((items, k))
  {
    var items := FieldItems(s.fields) + AggItems(s.aggs);
    ItemsOk(s);
    if s.fields == ["*"] && s.aggs == [] {
      assert items == [Field("*")];
    } else {
      if s.fields == ["*"] {
        assert IsIdent(s.fields[0]);
        IdentIsNot(s.fields[0], '*');
      }
      HeadOfItems(items, k);
      ItemsBack(items, k);
    }
  }

  lemma ReadBack(s: Statement, st: Style, k: Tokens)
    requires s.Read? && ReadOk(s) && MayEnd(s, st, k)
    ensures ParseRead(Write(s, st, k).tail) == Ok((s, k))
  {
    var ts := WriteMaybe(s.cond, Tail(s, st, k));
    ItemsRead(s, Tok("from", Tok(s.table, ts)));
    IdentIsNot(s.table, ',');
    SelectedBack(s, st, k);
  }

  lemma SelectedBack(s: Statement, st: Style, k: Tokens)
    requires s.Read? && ReadOk(s) && MayEnd(s, st, k)
    ensures Selected(s.table, FieldItems(s.fields) + AggItems(s.aggs), WriteMaybe(s.cond, Tail(s, st, k))) == Ok((s, k))
  {
    ItemsSplit(s.fields, s.aggs);
    ConditionBack(s, st, k);
    TailBack(s, st, k);
  }

  lemma CreateBack(s: Statement, st: Style, k: Tokens)
    requires s.Create? && InLanguage(s) && Stops(k)
    ensures ParseCreate(Write(s, st, k).tail) == Ok((s, k))
  {
    IdentIsNot(s.table, ',');
    FieldsBack(s.names, s.types, WriteIndex(s.index, st, k));
    IndexBack(s.index, k);
  }

  lemma InsertBack(s: Statement, st: Style, k: Tokens)
    requires s.Insert? && InLanguage(s) && Stops(k)
    ensures ParseInsert(Write(s, st, k).tail) == Ok((s, k))
  {
    IdentIsNot(s.table, ',');
    if s.rows == [] {
      ValueIsNot(s.values[0], '{');
      ValuesBack(s.values, k);
    } else {
      RowsBack(s.rows, st.bare, k);
    }
  }

  lemma DeleteBack(s: Statement, st: Style, k: Tokens)
    requires s.Delete? && InLanguage(s) && Stops(k)
    ensures ParseDelete(Write(s, st, k).tail) == Ok((s, k))
  {
    IdentIsNot(s.table, ',');
    WhereBack(s.only, k);
  }

  lemma UpdateBack(s: Statement, st: Style, k: Tokens)
    requires s.Update? && InLanguage(s) && Stops(k)
    ensures ParseUpdate(Write(s, st, k).tail) == Ok((s, k))
  {
    if s.cond.Some? {
      WhereBack(s.cond.value, k);
    }
  }

  /** The first word decides. */
  lemma ShortWords(ts: Tokens)
    ensures ParseBody("begin", ts) == ParseBegin(ts) && ParseBody("commit", ts) == Alone(ts, Commit)
    ensures ParseBody("abort", ts) == Alone(ts, Abort) && ParseBody("show", ts) == Alone(ts, Show)
    ensures ParseBody("drop", ts) == ParseDrop(ts)
  {
  }

  lemma CreateWords(ts: Tokens)
    ensures ParseBody("create", ts) == ParseCreate(ts) && ParseBody("insert", ts) == ParseInsert(ts)
  {
  }

  lemma ReadWords(ts: Tokens)
    ensures ParseBody("read", ts) == ParseRead(ts) && ParseBody("select", ts) == ParseRead(ts)
  {
  }

  lemma DeleteWord(ts: Tokens)
    ensures ParseBody("delete", ts) == ParseDelete(ts)
  {
  }

  lemma UpdateWord(ts: Tokens)
    ensures ParseBody("update", ts) == ParseUpdate(ts)
  {
  }

  lemma BeginBack(s: Statement, st: Style, k: Tokens)
    requires s.Begin? && Stops(k)
    ensures ParseBegin(Write(s, st, k).tail) == Ok((s, k))
  {
  }

  lemma ShortBack(s: Statement, st: Style, k: Tokens)
    requires InLanguage(s) && (s.Begin? || s.Commit? || s.Abort? || s.Show? || s.Drop?) && Stops(k)
    ensures var ts := Write(s, st, k); ts.Tok? && ParseBody(ts.head, ts.tail) == Ok((s, k))
  {
    ShortWords(Write(s, st, k).tail);
    if s.Drop? {
      IdentIsNot(s.table, ',');
    } else if s.Begin? {
      BeginBack(s, st, k);
    }
  }

  lemma LongBack(s: Statement, st: Style, k: Tokens)
    requires InLanguage(s) && (s.Create? || s.Insert? || s.Read? || s.Delete? || s.Update?) && MayEnd(s, st, k)
    ensures var ts := Write(s, st, k); ts.Tok? && ParseBody(ts.head, ts.tail) == Ok((s, k))
  {
    var ts := Write(s, st, k).tail;
    match s {
      case Create(_, _, _, _) =>
        CreateWords(ts);
        CreateBack(s, st, k);
      case Insert(_, _, _) =>
        CreateWords(ts);
        InsertBack(s, st, k);
      case Read(_, _, _, _, _, _, _, _) =>
        ReadWords(ts);
        ReadBack(s, st, k);
      case Delete(_, _) =>
        DeleteWord(ts);
        DeleteBack(s, st, k);
      case Update(_, _, _, _) =>
        UpdateWord(ts);
        UpdateBack(s, st, k);
    }
  }

  /** Every statement of the language is parsed back from its tokens, in whatever style, wherever the parser stops. */
  lemma TokensBack(s: Statement, st: Style, k: Tokens)
    requires InLanguage(s) && MayEnd(s, st, k)
    ensures ParseTokens(Write(s, st, k)) == Ok(s)
  {
    if s.Begin? || s.Commit? || s.Abort? || s.Show? || s.Drop? {
      ShortBack(s, st, k);
    } else {
      LongBack(s, st, k);
    }
    Finishes(Write(s, st, k), s, k);
  }

  lemma Finishes(ts: Tokens, s: Statement, k: Tokens)
    requires ts.Tok? && ParseBody(ts.head, ts.tail) == Ok((s, k)) && (Stops(k) || k == Broken)
    ensures ParseTokens(ts) == Ok(s)
  {
  }

  /** However a statement is styled, quoted and spaced, its text is parsed back to it. */
  lemma ParserRoundTrip(s: Statement, st: Style, ps: seq<Piece>)
    requires InLanguage(s) && WellSpelled(ps) && TokensOf(ps) == Write(s, st, End)
    ensures Parse(Text(ps)) == Ok(s)
  {
    LexesBack(ps);
    TokensBack(s, st, End);
  }

  /** A quoted empty token behind a statement hides whatever follows it. */
  lemma UnreadBehindEmptyToken(s: Statement, st: Style, hidden: Tokens, ps: seq<Piece>)
    requires InLanguage(s) && WellSpelled(ps) && TokensOf(ps) == Write(s, st, Tok("", hidden))
    ensures Parse(Text(ps)) == Ok(s)
  {
    LexesBack(ps);
    TokensBack(s, st, Tok("", hidden));
  }

  /** Behind a limit, and the blank behind it, anything that is no token goes unnoticed. */
  lemma UnreadBehindLimit(s: Statement, st: Style, ps: seq<Piece>, junk: string)
    requires InLanguage(s) && WritesLimit(s, st) && WellSpelled(ps) && TokensOf(ps) == Write(s, st, End)
    requires ps != [] && ps[|ps| - 1].gap != "" && Lex(junk) == Broken
    ensures Parse(Text(ps) + junk) == Ok(s)
  {
    LexesOn(ps, junk);
    WriteThen(s, st, Broken);
    TokensBack(s, st, Broken);
  }

  /* ----- every statement has a text ----- */

  /** Words and symbols bare, everything else in the first quotes that do not occur in it. */
  function PieceFor(t: string): Piece {
    Piece(t, if IsWord(t) || IsSymbolToken(t) then Bare else if '"' in t then Quoted('\'') else Quoted('"'), " ")
  }

  function PiecesFor(ts: Tokens): seq<Piece> {
    if ts.Tok? then [PieceFor(ts.head)] + PiecesFor(ts.tail) else []
  }

  /** No token holds both kinds of quotes. */
  predicate Quotable(ts: Tokens) {
    ts.Tok? ==> !('"' in ts.head && '\'' in ts.head) && Quotable(ts.tail)
  }

  /** The tokens with `k` in the place of their end. */
  function Then(ts: Tokens, k: Tokens): Tokens {
    if ts.Tok? then Tok(ts.head, Then(ts.tail, k)) else if ts.End? then k else Broken
  }

  predicate Ends(ts: Tokens) {
    !ts.Broken? && (ts.Tok? ==> Ends(ts.tail))
  }

  lemma {:induction false} PiecesSpell(ts: Tokens)
    requires Quotable(ts) && Ends(ts)
    ensures WellSpelled(PiecesFor(ts)) && TokensOf(PiecesFor(ts)) == ts
    ensures forall i :: 0 <= i < |PiecesFor(ts)| ==> PiecesFor(ts)[i].gap == " "
  {
    if ts.Tok? {
      PiecesSpell(ts.tail);
      var ps := PiecesFor(ts);
      assert ps[1..] == PiecesFor(ts.tail);
    }
  }

  /** `ts` written before the end is `ts1` written before `k`. */
  predicate Grows(ts: Tokens, k: Tokens, ts1: Tokens) {
    Ends(ts) && ts1 == Then(ts, k)
  }

  lemma One(h: string, e: Tokens, k: Tokens, e1: Tokens)
    requires Grows(e, k, e1)
    ensures Grows(Tok(h, e), k, Tok(h, e1))
  {
  }

  lemma Two(g: string, h: string, e: Tokens, k: Tokens, e1: Tokens)
    requires Grows(e, k, e1)
    ensures Grows(Tok(g, Tok(h, e)), k, Tok(g, Tok(h, e1)))
  {
    One(h, e, k, e1);
    One(g, Tok(h, e), k, Tok(h, e1));
  }

  lemma {:induction false} WriteAllThen(ts: seq<string>, e: Tokens, k: Tokens, e1: Tokens)
    requires Grows(e, k, e1)
    ensures Grows(WriteAll(ts, e), k, WriteAll(ts, e1))
  {
    if ts != [] {
      WriteAllThen(ts[1..], e, k, e1);
      One(ts[0], WriteAll(ts[1..], e), k, WriteAll(ts[1..], e1));
    }
  }

  lemma {:induction false} WriteFieldsThen(names: seq<string>, types: seq<string>, e: Tokens, k: Tokens, e1: Tokens)
    requires |names| == |types| && Grows(e, k, e1)
    ensures Grows(WriteFields(names, types, e), k, WriteFields(names, types, e1))
  {
    if |names| == 1 {
      Two(names[0], types[0], e, k, e1);
    } else if |names| > 1 {
      WriteFieldsThen(names[1..], types[1..], e, k, e1);
      var m, m1 := WriteFields(names[1..], types[1..], e), WriteFields(names[1..], types[1..], e1);
      One(",", m, k, m1);
      Two(names[0], types[0], Tok(",", m), k, Tok(",", m1));
    }
  }

  lemma {:induction false} WriteRowThen(vs: seq<string>, bare: bool, e: Tokens, k: Tokens, e1: Tokens)
    requires Grows(e, k, e1)
    ensures Grows(WriteRow(vs, bare, e), k, WriteRow(vs, bare, e1))
  {
    if vs == [] {
      One("}", e, k, e1);
    } else {
      var m, m1 := WriteRow(vs[1..], bare, e), WriteRow(vs[1..], bare, e1);
      WriteRowThen(vs[1..], bare, e, k, e1);
      One(vs[0], m, k, m1);
      Two(vs[0], ",", m, k, m1);
    }
  }

  lemma {:induction false} WriteRowsThen(rows: seq<seq<string>>, bare: bool, e: Tokens, k: Tokens, e1: Tokens)
    requires Grows(e, k, e1)
    ensures Grows(WriteRows(rows, bare, e), k, WriteRows(rows, bare, e1))
  {
    if rows != [] {
      var r, r1 := WriteRows(rows[1..], bare, e), WriteRows(rows[1..], bare, e1);
      WriteRowsThen(rows[1..], bare, e, k, e1);
      One(",", r, k, r1);
      var m := if |rows| == 1 then e else Tok(",", r);
      var m1 := if |rows| == 1 then e1 else Tok(",", r1);
      WriteRowThen(rows[0], bare, m, k, m1);
      One("{", WriteRow(rows[0], bare, m), k, WriteRow(rows[0], bare, m1));
    }
  }

  lemma WriteItemThen(i: Item, e: Tokens, k: Tokens, e1: Tokens)
    requires Grows(e, k, e1)
    ensures Grows(WriteItem(i, e), k, WriteItem(i, e1))
  {
    match i {
      case Field(n) => One(n, e, k, e1);
      case Agg(a) =>
        Two(a.field, ")", e, k, e1);
        Two(a.func, "(", Tok(a.field, Tok(")", e)), k, Tok(a.field, Tok(")", e1)));
    }
  }

  lemma {:induction false} WriteItemsThen(items: seq<Item>, e: Tokens, k: Tokens, e1: Tokens)
    requires Grows(e, k, e1)
    ensures Grows(WriteItems(items, e), k, WriteItems(items, e1))
  {
    if items != [] {
      var r, r1 := WriteItems(items[1..], e), WriteItems(items[1..], e1);
      WriteItemsThen(items[1..], e, k, e1);
      One(",", r, k, r1);
      WriteItemThen(items[0], if |items| == 1 then e else Tok(",", r), k, if |items| == 1 then e1 else Tok(",", r1));
    }
  }

  lemma WriteExpThen(x: Exp, e: Tokens, k: Tokens, e1: Tokens)
    requires Grows(e, k, e1)
    ensures Grows(WriteExp(x, e), k, WriteExp(x, e1))
  {
    var v, v1 := Tok(x.value, e), Tok(x.value, e1);
    One(x.value, e, k, e1);
    if |x.op| == 2 {
      Two(x.op[..1], "=", v, k, v1);
    } else {
      One(x.op, v, k, v1);
    }
    One(x.field, WriteOp(x.op, v), k, WriteOp(x.op, v1));
  }

  lemma WriteWhereThen(w: Where, e: Tokens, k: Tokens, e1: Tokens)
    requires Grows(e, k, e1)
    ensures Grows(WriteWhere(w, e), k, WriteWhere(w, e1))
  {
    var m, m1 := e, e1;
    if w.exp2.Some? {
      WriteExpThen(w.exp2.value, e, k, e1);
      One(w.logic, WriteExp(w.exp2.value, e), k, WriteExp(w.exp2.value, e1));
      m, m1 := Tok(w.logic, WriteExp(w.exp2.value, e)), Tok(w.logic, WriteExp(w.exp2.value, e1));
    }
    WriteExpThen(w.exp1, m, k, m1);
    One("where", WriteExp(w.exp1, m), k, WriteExp(w.exp1, m1));
  }

  lemma WriteMaybeThen(w: Option<Where>, e: Tokens, k: Tokens, e1: Tokens)
    requires Grows(e, k, e1)
    ensures Grows(WriteMaybe(w, e), k, WriteMaybe(w, e1))
  {
    if w.Some? {
      WriteWhereThen(w.value, e, k, e1);
    }
  }

  lemma LimitThen(limit: int, offset: int, zero: bool, k: Tokens)
    ensures Grows(WriteLimit(limit, offset, zero, End), k, WriteLimit(limit, offset, zero, k))
  {
    var e, e1 := End, k;
    if offset > 0 {
      Two("offset", ToStr(offset), End, k, k);
      e, e1 := Tok("offset", Tok(ToStr(offset), End)), Tok("offset", Tok(ToStr(offset), k));
    }
    Two("limit", ToStr(if limit > 0 then limit else 0), e, k, e1);
  }

  lemma OrderThen(orderBy: string, desc: bool, asc: bool, e: Tokens, k: Tokens, e1: Tokens)
    requires Grows(e, k, e1)
    ensures Grows(WriteOrder(orderBy, desc, asc, e), k, WriteOrder(orderBy, desc, asc, e1))
  {
    One("desc", e, k, e1);
    One("asc", e, k, e1);
    var m := if desc then Tok("desc", e) else if asc then Tok("asc", e) else e;
    var m1 := if desc then Tok("desc", e1) else if asc then Tok("asc", e1) else e1;
    One(orderBy, m, k, m1);
    Two("order", "by", Tok(orderBy, m), k, Tok(orderBy, m1));
  }

  lemma TailThen(s: Statement, st: Style, k: Tokens)
    requires s.Read?
    ensures Grows(Tail(s, st, End), k, Tail(s, st, k))
  {
    LimitThen(s.limit, s.offset, st.zero, k);
    OrderThen(s.orderBy, s.desc, st.asc, WriteLimit(s.limit, s.offset, st.zero, End), k, WriteLimit(s.limit, s.offset, st.zero, k));
  }

  lemma IndexThen(index: seq<string>, st: Style, k: Tokens)
    ensures Grows(WriteIndex(index, st, End), k, WriteIndex(index, st, k))
  {
    One(")", End, k, k);
    WriteAllThen(index, Tok(")", End), k, Tok(")", k));
    var l, l1 := WriteAll(index, Tok(")", End)), WriteAll(index, Tok(")", k));
    Two("(", "index", l, k, l1);
    One(",", Tok("(", Tok("index", l)), k, Tok("(", Tok("index", l1)));
  }

  lemma BeginThen(s: Statement, st: Style, k: Tokens)
    requires s.Begin?
    ensures Grows(Write(s, st, End), k, Write(s, st, k))
  {
    var a, b := if s.repeatableRead then "repeatable" else "read", if s.repeatableRead then "read" else "committed";
    Two(a, b, End, k, k);
    var e, e1 := Tok(a, Tok(b, End)), Tok(a, Tok(b, k));
    Two("isolation", "level", e, k, e1);
    One("begin", Tok("isolation", Tok("level", e)), k, Tok("isolation", Tok("level", e1)));
    One("begin", End, k, k);
  }

  lemma CreateThen(s: Statement, st: Style, k: Tokens)
    requires s.Create? && InLanguage(s)
    ensures Grows(Write(s, st, End), k, Write(s, st, k))
  {
    var e, e1 := WriteIndex(s.index, st, End), WriteIndex(s.index, st, k);
    IndexThen(s.index, st, k);
    WriteFieldsThen(s.names, s.types, e, k, e1);
    var f, f1 := WriteFields(s.names, s.types, e), WriteFields(s.names, s.types, e1);
    Two("table", s.table, f, k, f1);
    One("create", Tok("table", Tok(s.table, f)), k, Tok("table", Tok(s.table, f1)));
  }

  lemma InsertThen(s: Statement, st: Style, k: Tokens)
    requires s.Insert? && InLanguage(s)
    ensures Grows(Write(s, st, End), k, Write(s, st, k))
  {
    WriteAllThen(s.values, End, k, k);
    WriteRowsThen(s.rows, st.bare, End, k, k);
    var e := if s.rows == [] then WriteAll(s.values, End) else WriteRows(s.rows, st.bare, End);
    var e1 := if s.rows == [] then WriteAll(s.values, k) else WriteRows(s.rows, st.bare, k);
    Two(s.table, "values", e, k, e1);
    Two("insert", "into", Tok(s.table, Tok("values", e)), k, Tok(s.table, Tok("values", e1)));
  }

  lemma ReadThen(s: Statement, st: Style, k: Tokens)
    requires s.Read? && InLanguage(s)
    ensures Grows(Write(s, st, End), k, Write(s, st, k))
  {
    var items := FieldItems(s.fields) + AggItems(s.aggs);
    TailThen(s, st, k);
    WriteMaybeThen(s.cond, Tail(s, st, End), k, Tail(s, st, k));
    var c, c1 := WriteMaybe(s.cond, Tail(s, st, End)), WriteMaybe(s.cond, Tail(s, st, k));
    Two("from", s.table, c, k, c1);
    var e, e1 := Tok("from", Tok(s.table, c)), Tok("from", Tok(s.table, c1));
    WriteItemsThen(items, e, k, e1);
    One(if st.select then "select" else "read", WriteItems(items, e), k, WriteItems(items, e1));
  }

  lemma UpdateThen(s: Statement, st: Style, k: Tokens)
    requires s.Update? && InLanguage(s)
    ensures Grows(Write(s, st, End), k, Write(s, st, k))
  {
    WriteMaybeThen(s.cond, End, k, k);
    var c, c1 := WriteMaybe(s.cond, End), WriteMaybe(s.cond, k);
    Two("=", s.value, c, k, c1);
    var e, e1 := Tok("=", Tok(s.value, c)), Tok("=", Tok(s.value, c1));
    Two("set", s.field, e, k, e1);
    Two("update", s.table, Tok("set", Tok(s.field, e)), k, Tok("set", Tok(s.field, e1)));
  }

  /** A statement's tokens go on in the same way whatever follows them. */
  lemma WriteThen(s: Statement, st: Style, k: Tokens)
    requires InLanguage(s)
    ensures Grows(Write(s, st, End), k, Write(s, st, k))
  {
    match s {
      case Begin(_) => BeginThen(s, st, k);
      case Create(_, _, _, _) => CreateThen(s, st, k);
      case Insert(_, _, _) => InsertThen(s, st, k);
      case Update(_, _, _, _) => UpdateThen(s, st, k);
      case Read(_, _, _, _, _, _, _, _) => ReadThen(s, st, k);
      case Delete(table, w) =>
        WriteWhereThen(w, End, k, k);
        One(table, WriteWhere(w, End), k, WriteWhere(w, k));
        Two("delete", "from", Tok(table, WriteWhere(w, End)), k, Tok(table, WriteWhere(w, k)));
      case Drop(table) =>
        One(table, End, k, k);
        Two("drop", "table", Tok(table, End), k, Tok(table, k));
      case _ =>
    }
  }

  /** A text that goes on with something else behind its last blank. */
  lemma {:induction false} LexesOn(ps: seq<Piece>, more: string)
    requires WellSpelled(ps) && ps != [] && ps[|ps| - 1].gap != ""
    ensures Lex(Text(ps) + more) == Then(TokensOf(ps), Lex(more))
    decreases |ps|
  {
    var p, rest := ps[0], ps[1..];
    LexesOne(ps, more);
    if rest == [] {
      assert Text(rest) + more == more;
    } else {
      WellSpelledRest(ps);
      LexesOn(rest, more);
    }
  }

  lemma WellSpelledRest(ps: seq<Piece>)
    requires WellSpelled(ps) && ps != []
    ensures WellSpelled(ps[1..])
  {
    assert forall i :: 0 <= i < |ps| - 1 ==> ps[1..][i] == ps[i + 1];
  }

  lemma LexesOne(ps: seq<Piece>, more: string)
    requires WellSpelled(ps) && ps != [] && ps[|ps| - 1].gap != ""
    ensures Lex(Text(ps) + more) == Tok(ps[0].token, Lex(Text(ps[1..]) + more))
  {
    var p, rest := ps[0], Text(ps[1..]);
    GapOrMore(ps);
    if p.spelling.Bare? && IsWord(p.token) {
      NotRunOn(ps);
    }
    Regroup(Spell(p), p.gap, rest, more);
    LexGap(p, rest + more);
  }

  lemma Regroup(a: string, b: string, c: string, d: string)
    ensures a + (b + c) + d == a + (b + (c + d))
    ensures b + c != "" ==> (b + (c + d))[0] == (b + c)[0]
  {
    assert b + (c + d) == b + c + d;
  }

  lemma LexGap(p: Piece, t: string)
    requires Spellable(p) && (p.spelling.Bare? && IsWord(p.token) ==> p.gap + t == "" || !IsWordChar((p.gap + t)[0]))
    ensures Lex(Spell(p) + (p.gap + t)) == Tok(p.token, Lex(t))
  {
    LexPiece(p, p.gap + t);
    SkipGap(p.gap, t);
  }

  lemma GapOrMore(ps: seq<Piece>)
    requires WellSpelled(ps) && ps != [] && ps[|ps| - 1].gap != ""
    ensures ps[0].gap + Text(ps[1..]) != ""
  {
    if |ps| > 1 {
      SpellStarts(ps[1]);
      assert ps[1..][0] == ps[1];
    }
  }

  /** A statement whose values do not hold both kinds of quotes has a text that parses back to it. */
  lemma EveryStatementHasAText(s: Statement, st: Style)
    requires InLanguage(s) && Quotable(Write(s, st, End))
    ensures Parse(Text(PiecesFor(Write(s, st, End)))) == Ok(s)
  {
    WriteThen(s, st, End);
    PiecesSpell(Write(s, st, End));
    ParserRoundTrip(s, st, PiecesFor(Write(s, st, End)));
  }

  /* ----- the statement that is never parsed ----- */

  /** The names of an index list whose closing parenthesis is missing. */
  predicate Unclosed(ts: Tokens) {
    match ts
    case End => true
    case Broken => false
    case Tok(t, rest) => t != ")" && IsName(t) && Unclosed(rest)
  }

  /** A create statement that is right up to such a list. */
  predicate UnclosedCreate(ts: Tokens) {
    && ts.Tok? && ts.head == "create"
    && Expect(ts.tail, "table").Ok?
    && var ts1 := Expect(ts.tail, "table").v;
    && Name(ts1).Ok?
    && var fields := FieldList(Name(ts1).v.1);
    && fields.Ok? && fields.v.2
    && Expect(fields.v.3, "index").Ok?
    && Unclosed(Expect(fields.v.3, "index").v)
  }

  lemma FieldListEnds(ts: Tokens)
    ensures !FieldList(ts).Diverges?
    decreases Size(ts)
  {
  }

  lemma RowListEnds(ts: Tokens)
    ensures !RowList(ts).Diverges?
    decreases Size(ts)
  {
    RowValuesEnd(ts);
  }

  lemma RowValuesEnd(ts: Tokens)
    ensures !RowValues(ts).Diverges?
    decreases Size(ts)
  {
  }

  lemma ValueListEnds(ts: Tokens)
    ensures !ValueList(ts).Diverges?
    decreases Size(ts)
  {
  }

  lemma ItemListEnds(ts: Tokens)
    ensures !ItemList(ts).Diverges?
    decreases Size(ts)
  {
  }

  lemma ConditionEnds(ts: Tokens)
    ensures !Condition(ts).Diverges?
  {
  }

  lemma ClausesEnd(ts: Tokens)
    ensures !OrderClause(ts).Diverges? && !LimitClause(ts).Diverges?
  {
  }

  lemma SelectedEnds(table: string, items: seq<Item>, ts: Tokens)
    ensures !Selected(table, items, ts).Diverges?
  {
    ConditionEnds(ts);
    forall ts1 ensures !OrderClause(ts1).Diverges? && !LimitClause(ts1).Diverges? {
      ClausesEnd(ts1);
    }
  }

  lemma ReadEnds(ts: Tokens)
    ensures !ParseRead(ts).Diverges?
  {
    ItemListEnds(ts);
    forall table, items, ts3 ensures !Selected(table, items, ts3).Diverges? {
      SelectedEnds(table, items, ts3);
    }
  }

  lemma UpdateEnds(ts: Tokens)
    ensures !ParseUpdate(ts).Diverges? && !ParseDelete(ts).Diverges?
  {
    forall ts3 ensures !Condition(ts3).Diverges? {
      ConditionEnds(ts3);
    }
  }

  lemma ShortEnds(ts: Tokens)
    ensures !ParseBegin(ts).Diverges? && !ParseDrop(ts).Diverges?
    ensures forall s :: !Alone(ts, s).Diverges?
  {
  }

  lemma InsertEnds(ts: Tokens)
    ensures !ParseInsert(ts).Diverges?
  {
    forall table, ts3 ensures !Inserted(table, ts3).Diverges? {
      RowListEnds(Rest(ts3));
      ValueListEnds(ts3);
    }
  }

  lemma CreateDivergesIff(ts: Tokens)
    ensures ParseCreate(ts).Diverges? <==> UnclosedCreate(Tok("create", ts))
  {
    if Expect(ts, "table").Ok? && Name(Expect(ts, "table").v).Ok? {
      var ts2 := Name(Expect(ts, "table").v).v.1;
      FieldListEnds(ts2);
      var fields := FieldList(ts2);
      if fields.Ok? && fields.v.2 && Expect(fields.v.3, "index").Ok? {
        IndexListDivergesIff(Expect(fields.v.3, "index").v);
      }
    }
  }

  lemma BodyEnds(word: string, ts: Tokens)
    requires word != "create"
    ensures !ParseBody(word, ts).Diverges?
  {
    ShortEnds(ts);
    LongEnds(word, ts);
  }

  lemma LongEnds(word: string, ts: Tokens)
    requires word != "create"
    ensures !ParseLong(word, ts).Diverges?
  {
    ReadEnds(ts);
    InsertEnds(ts);
    UpdateEnds(ts);
  }

  /** The parser comes back from every text but a create statement with an unclosed list of index names. */
  lemma ParseDivergesIff(text: string)
    ensures Parse(text).Diverges? <==> UnclosedCreate(Lex(text))
  {
    var ts := Lex(text);
    if ts.Tok? {
      if ts.head == "create" {
        CreateWords(ts.tail);
        CreateDivergesIff(ts.tail);
      } else {
        BodyEnds(ts.head, ts.tail);
      }
    }
  }

  /** The parser does not come back from an index list exactly if it is never closed and holds names only. */
  lemma {:induction false} IndexListDivergesIff(ts: Tokens)
    ensures IndexList(ts).Diverges? <==> Unclosed(ts)
  {
    if ts.Tok? {
      IndexListDivergesIff(ts.tail);
    }
  }
}
