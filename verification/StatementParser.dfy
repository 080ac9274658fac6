/** The parser as it runs: over a shared tokener, appending to the statement in loops. */
module StatementParser {
  import opened Types
  import opened Lexer
  import opened Tokener
  import opened Statements
  import opened Parser
  import opened Grammar

  /** The method's answer and the tokens it leaves are those of the specification. */
  ghost predicate Agrees<T>(r: Outcome<T>, left: Tokens, spec: Outcome<(T, Tokens)>) {
    match spec
    case Ok((v, rest)) => r == Ok(v) && left == rest
    case Fail => r == Fail
    case Diverges => r == Diverges
  }

  /** Peek, and pop what was peeked. */
  method Take(tk: Scanner) returns (t: Peeked)
    requires tk.Valid()
    modifies tk
    ensures tk.Valid() && t == Head(old(tk.ahead)) && (t.Token? ==> tk.ahead == Rest(old(tk.ahead)))
  {
    t := tk.Peek();
    if t.Token? {
      tk.Pop();
    }
  }

  method ReadCmpOp(tk: Scanner) returns (r: Outcome<string>)
    requires tk.Valid()
    modifies tk
    ensures tk.Valid() && Agrees(r, tk.ahead, CmpOp(old(tk.ahead)))
  {
    var t := Take(tk);
    if t.Invalid? {
      return Fail;
    }
    var op := t.t;
    if op == "<" || op == ">" || op == "!" {
      var next := tk.Peek();
      if next.Invalid? {
        return Fail;
      }
      if next.t == "=" {
        op := op + "=";
        tk.Pop();
        assert op == "<=" || op == ">=" || op == "!=";
      }
    }
    if !IsCmpOp(op) {
      return Fail;
    }
    return Ok(op);
  }

  /** `parseSingleExpr`. */
  method ReadSingleExp(tk: Scanner) returns (r: Outcome<Exp>)
    requires tk.Valid()
    modifies tk
    ensures tk.Valid() && Agrees(r, tk.ahead, SingleExp(old(tk.ahead)))
  {
    var field := Take(tk);
    if field.Invalid? || !IsName(field.t) {
      return Fail;
    }
    var op := ReadCmpOp(tk);
    if !op.Ok? {
      return Fail;
    }
    var value := Take(tk);
    if value.Invalid? {
      return Fail;
    }
    return Ok(Exp(field.t, op.v, value.t));
  }

  /** `parseWhere`. */
  method ReadCondition(tk: Scanner) returns (r: Outcome<Where>)
    requires tk.Valid()
    modifies tk
    ensures tk.Valid() && Agrees(r, tk.ahead, Condition(old(tk.ahead)))
  {
    var word := Take(tk);
    if word.Invalid? || word.t != "where" {
      return Fail;
    }
    var e1 := ReadSingleExp(tk);
    if !e1.Ok? {
      return Fail;
    }
    var logic := tk.Peek();
    if logic.Invalid? {
      return Fail;
    }
    if !IsLogicOp(logic.t) {
      return Ok(Where(e1.v, "", None));
    }
    tk.Pop();
    r := ReadSecond(tk, e1.v, logic.t);
  }

  method ReadSecond(tk: Scanner, e1: Exp, logic: string) returns (r: Outcome<Where>)
    requires tk.Valid()
    modifies tk
    ensures tk.Valid() && Agrees(r, tk.ahead, Second(e1, logic, old(tk.ahead)))
  {
    var e2 := ReadSingleExp(tk);
    if !e2.Ok? {
      return if e2.Fail? then Fail else Diverges;
    }
    var eof := tk.Peek();
    if eof.Invalid? || eof.t != "" {
      return Fail;
    }
    return Ok(Where(e1, logic, Some(e2.v)));
  }

  /** What a loop that has collected `acc` will make of the rest. */
  function After<T>(acc: seq<T>, o: Outcome<(seq<T>, Tokens)>): Outcome<(seq<T>, Tokens)> {
    match o
    case Ok((more, rest)) => Ok((acc + more, rest))
    case Fail => Fail
    case Diverges => Diverges
  }

  lemma AfterOne<T>(acc: seq<T>, t: T, o: Outcome<(seq<T>, Tokens)>)
    ensures After(acc, After([t], o)) == After(acc + [t], o)
  {
    if o.Ok? {
      assert acc + ([t] + o.v.0) == acc + [t] + o.v.0;
    }
  }

  lemma AfterNone<T>(o: Outcome<(seq<T>, Tokens)>)
    ensures After([], o) == o
  {
    if o.Ok? {
      assert [] + o.v.0 == o.v.0;
    }
  }

  /** The values of a single row: everything up to the end. */
  method ReadValues(tk: Scanner) returns (r: Outcome<seq<string>>)
    requires tk.Valid()
    modifies tk
    ensures tk.Valid() && Agrees(r, tk.ahead, ValueList(old(tk.ahead)))
  {
    var values: seq<string> := [];
    ghost var start := tk.ahead;
    AfterNone(ValueList(start));
    while true
      invariant tk.Valid() && After(values, ValueList(tk.ahead)) == ValueList(start)
      decreases Size(tk.ahead)
    {
      var value := tk.Peek();
      if value.Invalid? {
        return Fail;
      }
      if value.t == "" {
        assert values + [] == values;
        return Ok(values);
      }
      AfterOne(values, value.t, ValueList(Rest(tk.ahead)));
      tk.Pop();
      values := values + [value.t];
    }
  }

  /** The values of one row in braces. */
  method ReadRow(tk: Scanner) returns (r: Outcome<seq<string>>)
    requires tk.Valid()
    modifies tk
    ensures tk.Valid() && Agrees(r, tk.ahead, RowValues(old(tk.ahead)))
  {
    var row: seq<string> := [];
    ghost var start := tk.ahead;
    AfterNone(RowValues(start));
    while true
      invariant tk.Valid() && After(row, RowValues(tk.ahead)) == RowValues(start)
      decreases Size(tk.ahead)
    {
      var value := tk.Peek();
      if value.Invalid? || value.t == "" {
        return Fail;
      }
      AfterOne(row, value.t, RowValues(Rest(tk.ahead)));
      tk.Pop();
      if value.t == "}" {
        assert row + [] == row;
        return Ok(row);
      }
      if value.t != "," {
        row := row + [value.t];
      }
    }
  }

  /** `parseInsertBulk`: row after row, with commas between them. */
  method ReadRows(tk: Scanner) returns (r: Outcome<seq<seq<string>>>)
    requires tk.Valid()
    modifies tk
    ensures tk.Valid() && Agrees(r, tk.ahead, RowList(old(tk.ahead)))
  {
    var rows: seq<seq<string>> := [];
    ghost var start := tk.ahead;
    AfterNone(RowList(start));
    while true
      invariant tk.Valid() && After(rows, RowList(tk.ahead)) == RowList(start)
      decreases Size(tk.ahead)
    {
      RowValuesEnd(tk.ahead);
      var row := ReadRow(tk);
      if !row.Ok? {
        return Fail;
      }
      var next := tk.Peek();
      if next.Invalid? {
        return Fail;
      }
      if next.t == "" {
        return Ok(rows + [row.v]);
      }
      if next.t != "," {
        return Fail;
      }
      tk.Pop();
      var brace := Take(tk);
      if brace.Invalid? || brace.t != "{" {
        return Fail;
      }
      AfterOne(rows, row.v, RowList(tk.ahead));
      rows := rows + [row.v];
    }
  }

  /** `parseInsert`. */
  method ReadInsert(tk: Scanner) returns (r: Outcome<Statement>)
    requires tk.Valid()
    modifies tk
    ensures tk.Valid() && Agrees(r, tk.ahead, ParseInsert(old(tk.ahead)))
  {
    var ok := TakeWord(tk, "into");
    if !ok {
      return Fail;
    }
    var table := TakeName(tk);
    if !table.Ok? {
      return Fail;
    }
    ok := TakeWord(tk, "values");
    if !ok {
      return Fail;
    }
    r := ReadInserted(tk, table.v);
  }

  /** The rows behind `values`: in braces, or a single one without. */
  method ReadInserted(tk: Scanner, table: string) returns (r: Outcome<Statement>)
    requires tk.Valid()
    modifies tk
    ensures tk.Valid() && Agrees(r, tk.ahead, Inserted(table, old(tk.ahead)))
  {
    var first := tk.Peek();
    if first.Invalid? || first.t == "" {
      return Fail;
    }
    if first.t == "{" {
      tk.Pop();
      RowListEnds(tk.ahead);
      var rows := ReadRows(tk);
      if !rows.Ok? {
        return Fail;
      }
      return Ok(Insert(table, [], rows.v));
    }
    ValueListEnds(tk.ahead);
    var values := ReadValues(tk);
    if !values.Ok? {
      return Fail;
    }
    return Ok(Insert(table, values.v, []));
  }

  /** The next token, if it is this word. */
  method TakeWord(tk: Scanner, word: string) returns (ok: bool)
    requires tk.Valid()
    modifies tk
    ensures tk.Valid() && ok == Expect(old(tk.ahead), word).Ok? && (ok ==> tk.ahead == Expect(old(tk.ahead), word).v)
  {
    var t := Take(tk);
    return t.Token? && t.t == word;
  }

  method TakeName(tk: Scanner) returns (r: Outcome<string>)
    requires tk.Valid()
    modifies tk
    ensures tk.Valid() && Agrees(r, tk.ahead, Name(old(tk.ahead)))
  {
    var t := Take(tk);
    if t.Invalid? || !IsName(t.t) {
      return Fail;
    }
    return Ok(t.t);
  }

  /** Nothing may follow. */
  method AtEnd(tk: Scanner) returns (ok: bool)
    requires tk.Valid()
    modifies tk
    ensures tk.Valid() && tk.ahead == old(tk.ahead) && ok == Done(tk.ahead).Ok?
  {
    var t := tk.Peek();
    return t.Token? && t.t == "";
  }

  /** `parseBegin`. */
  method ReadBegin(tk: Scanner) returns (r: Outcome<Statement>)
    requires tk.Valid()
    modifies tk
    ensures tk.Valid() && Agrees(r, tk.ahead, ParseBegin(old(tk.ahead)))
  {
    var first := tk.Peek();
    if first.Invalid? {
      return Fail;
    }
    if first.t == "" {
      return Ok(Begin(false));
    }
    var ok := TakeWord(tk, "isolation");
    if !ok {
      return Fail;
    }
    ok := TakeWord(tk, "level");
    if !ok {
      return Fail;
    }
    r := ReadLevel(tk);
  }

  method ReadLevel(tk: Scanner) returns (r: Outcome<Statement>)
    requires tk.Valid()
    modifies tk
    ensures tk.Valid() && Agrees(r, tk.ahead, IsolationLevel(old(tk.ahead)))
  {
    var kind := Take(tk);
    if kind.Invalid? || (kind.t != "read" && kind.t != "repeatable") {
      return Fail;
    }
    var ok := TakeWord(tk, if kind.t == "read" then "committed" else "read");
    if !ok {
      return Fail;
    }
    r := ReadAlone(tk, Begin(kind.t == "repeatable"));
  }

  /** `parseDrop`. */
  method ReadDrop(tk: Scanner) returns (r: Outcome<Statement>)
    requires tk.Valid()
    modifies tk
    ensures tk.Valid() && Agrees(r, tk.ahead, ParseDrop(old(tk.ahead)))
  {
    var ok := TakeWord(tk, "table");
    if !ok {
      return Fail;
    }
    var table := TakeName(tk);
    if !table.Ok? {
      return Fail;
    }
    ok := AtEnd(tk);
    if !ok {
      return Fail;
    }
    return Ok(Drop(table.v));
  }

  /** What the field loop with these names and types will make of the rest. */
  function AfterFields(names: seq<string>, types: seq<string>, o: Outcome<(seq<string>, seq<string>, bool, Tokens)>)
    : Outcome<(seq<string>, seq<string>, bool, Tokens)>
  {
    match o
    case Ok((ns, ts, index, rest)) => Ok((names + ns, types + ts, index, rest))
    case Fail => Fail
    case Diverges => Diverges
  }

  lemma AfterNoField(o: Outcome<(seq<string>, seq<string>, bool, Tokens)>)
    ensures AfterFields([], [], o) == o
  {
    if o.Ok? {
      assert [] + o.v.0 == o.v.0 && [] + o.v.1 == o.v.1;
    }
  }

  lemma AfterField(names: seq<string>, types: seq<string>, n: string, t: string, o: Outcome<(seq<string>, seq<string>, bool, Tokens)>)
    ensures AfterFields(names, types, AfterFields([n], [t], o)) == AfterFields(names + [n], types + [t], o)
  {
    if o.Ok? {
      assert names + ([n] + o.v.0) == names + [n] + o.v.0;
      assert types + ([t] + o.v.1) == types + [t] + o.v.1;
    }
  }

  ghost predicate FieldsAgree(r: Outcome<(seq<string>, seq<string>, bool)>, left: Tokens, spec: Outcome<(seq<string>, seq<string>, bool, Tokens)>) {
    match spec
    case Ok((ns, ts, index, rest)) => r == Ok((ns, ts, index)) && left == rest
    case Fail => r == Fail
    case Diverges => r == Diverges
  }

  method TakeField(tk: Scanner) returns (r: Outcome<(string, string)>)
    requires tk.Valid()
    modifies tk
    ensures tk.Valid() && Agrees(r, tk.ahead, FieldDef(old(tk.ahead)))
  {
    var name := TakeName(tk);
    if !name.Ok? {
      return Fail;
    }
    var ftype := Take(tk);
    if ftype.Invalid? || !IsType(ftype.t) {
      return Fail;
    }
    return Ok((name.v, ftype.t));
  }

  method TakeRound(tk: Scanner) returns (r: Outcome<Round>)
    requires tk.Valid()
    modifies tk
    ensures tk.Valid() && Agrees(r, tk.ahead, FieldRound(old(tk.ahead)))
  {
    var first := tk.Peek();
    if first.Invalid? {
      return Fail;
    }
    if first.t == "(" {
      tk.Pop();
      return Ok(NoField);
    }
    var field := TakeField(tk);
    if !field.Ok? {
      return Fail;
    }
    var next := tk.Peek();
    if next.Invalid? {
      return Fail;
    }
    if next.t == "" {
      return Ok(LastField(field.v.0, field.v.1, false));
    }
    tk.Pop();
    if next.t == "," {
      return Ok(OneField(field.v.0, field.v.1));
    }
    return if next.t == "(" then Ok(LastField(field.v.0, field.v.1, true)) else Fail;
  }

  lemma RoundEnds(ts: Tokens)
    ensures !FieldRound(ts).Diverges?
  {
  }

  /** The field loop of `parseCreate`. */
  method ReadFieldList(tk: Scanner) returns (r: Outcome<(seq<string>, seq<string>, bool)>)
    requires tk.Valid()
    modifies tk
    ensures tk.Valid() && FieldsAgree(r, tk.ahead, FieldList(old(tk.ahead)))
  {
    var names: seq<string>, types: seq<string> := [], [];
    ghost var start := tk.ahead;
    AfterNoField(FieldList(start));
    while true
      invariant tk.Valid() && AfterFields(names, types, FieldList(tk.ahead)) == FieldList(start)
      decreases Size(tk.ahead)
    {
      RoundEnds(tk.ahead);
      var round := TakeRound(tk);
      if !round.Ok? {
        return Fail;
      }
      match round.v {
        case NoField =>
          assert names + [] == names && types + [] == types;
          return Ok((names, types, true));
        case LastField(name, ftype, index) =>
          return Ok((names + [name], types + [ftype], index));
        case OneField(name, ftype) =>
          AfterField(names, types, name, ftype, FieldList(tk.ahead));
          names, types := names + [name], types + [ftype];
      }
    }
  }

  /** The index loop of `parseCreate`; where the original goes round for ever, the answer is `Diverges`. */
  method ReadIndexList(tk: Scanner) returns (r: Outcome<seq<string>>)
    requires tk.Valid()
    modifies tk
    ensures tk.Valid() && Agrees(r, tk.ahead, IndexList(old(tk.ahead)))
  {
    var names: seq<string> := [];
    ghost var start := tk.ahead;
    AfterNone(IndexList(start));
    while true
      invariant tk.Valid() && After(names, IndexList(tk.ahead)) == IndexList(start)
      decreases Size(tk.ahead)
    {
      var name := tk.Peek();
      if name.Invalid? {
        return Fail;
      }
      if name.t == "" && tk.pos == |tk.stat| {
        assert tk.stat[tk.pos..] == "";
        assert tk.ahead == End || tk.ahead == Tok("", End);
        assert IndexList(Tok("", End)) == Diverges;
        return Diverges;
      }
      AfterOne(names, name.t, IndexList(Rest(tk.ahead)));
      tk.Pop();
      if name.t == ")" {
        assert names + [] == names;
        return Ok(names);
      }
      if !IsName(name.t) {
        return Fail;
      }
      names := names + [name.t];
    }
  }

  /** `parseCreate`. */
  method ReadCreate(tk: Scanner) returns (r: Outcome<Statement>)
    requires tk.Valid()
    modifies tk
    ensures tk.Valid() && Agrees(r, tk.ahead, ParseCreate(old(tk.ahead)))
  {
    var ok := TakeWord(tk, "table");
    if !ok {
      return Fail;
    }
    var table := TakeName(tk);
    if !table.Ok? {
      return Fail;
    }
    ghost var at := tk.ahead;
    var fields := ReadFieldList(tk);
    FieldListEnds(at);
    if !fields.Ok? {
      return Fail;
    }
    var (names, types, index) := fields.v;
    if !index {
      return Ok(Create(table.v, names, types, []));
    }
    ok := TakeWord(tk, "index");
    if !ok {
      return Fail;
    }
    var indexed := ReadIndexList(tk);
    if !indexed.Ok? {
      return if indexed.Fail? then Fail else Diverges;
    }
    ok := AtEnd(tk);
    if !ok {
      return Fail;
    }
    return Ok(Create(table.v, names, types, indexed.v));
  }

  /** One field or aggregate of a read statement. */
  method TakeItem(tk: Scanner) returns (r: Outcome<Item>)
    requires tk.Valid()
    modifies tk
    ensures tk.Valid() && Agrees(r, tk.ahead, ReadItem(old(tk.ahead)))
  {
    var t := Take(tk);
    if t.Invalid? {
      return Fail;
    }
    if !IsAggFunc(t.t) {
      return if IsName(t.t) then Ok(Field(t.t)) else Fail;
    }
    var ok := TakeWord(tk, "(");
    if !ok {
      return Fail;
    }
    var arg := Take(tk);
    if arg.Invalid? || !((arg.t == "*" && t.t == "count") || IsName(arg.t)) {
      return Fail;
    }
    ok := TakeWord(tk, ")");
    if !ok {
      return Fail;
    }
    return Ok(Agg(Aggregate(t.t, arg.t)));
  }

  /** The fields and aggregates of a read statement. */
  method TakeItems(tk: Scanner) returns (r: Outcome<seq<Item>>)
    requires tk.Valid()
    modifies tk
    ensures tk.Valid() && Agrees(r, tk.ahead, ItemList(old(tk.ahead)))
  {
    var items: seq<Item> := [];
    ghost var start := tk.ahead;
    AfterNone(ItemList(start));
    while true
      invariant tk.Valid() && After(items, ItemList(tk.ahead)) == ItemList(start)
      decreases Size(tk.ahead)
    {
      ghost var here := tk.ahead;
      var item := TakeItem(tk);
      ItemEnds(here);
      if !item.Ok? {
        return Fail;
      }
      var comma := tk.Peek();
      if comma.Invalid? {
        return Fail;
      }
      if comma.t != "," {
        return Ok(items + [item.v]);
      }
      tk.Pop();
      AfterOne(items, item.v, ItemList(tk.ahead));
      items := items + [item.v];
    }
  }

  lemma ItemEnds(ts: Tokens)
    ensures !ReadItem(ts).Diverges?
  {
  }

  method TakeNumber(tk: Scanner) returns (r: Outcome<int>)
    requires tk.Valid()
    modifies tk
    ensures tk.Valid() && Agrees(r, tk.ahead, Number(old(tk.ahead)))
  {
    var t := Take(tk);
    if t.Invalid? {
      return Fail;
    }
    var n := ToNumber(t.t);
    return if n.Some? then Ok(n.value) else Fail;
  }

  /** `utilsStrToInt`: digit by digit. */
  method ToNumber(s: string) returns (r: Option<int>)
    ensures r == StrToInt(s)
  {
    var n, i := 0, 0;
    while i < |s|
      invariant 0 <= i <= |s| && StrToInt(s[..i]) == Some(n)
    {
      assert s[..i + 1][..i] == s[..i];
      if !IsDigit(s[i]) {
        NoNumber(s, i + 1);
        return None;
      }
      n := Wrap64(n * 10 + (s[i] - '0') as int);
      i := i + 1;
    }
    assert s[..i] == s;
    return Some(n);
  }

  lemma {:induction false} NoNumber(s: string, i: nat)
    requires i <= |s| && StrToInt(s[..i]) == None
    ensures StrToInt(s) == None
    decreases |s|
  {
    if i < |s| {
      assert s[..|s| - 1][..i] == s[..i];
      NoNumber(s[..|s| - 1], i);
    } else {
      assert s[..i] == s;
    }
  }

  ghost predicate OrderAgrees(r: Outcome<(string, bool)>, left: Tokens, spec: Outcome<(string, bool, Tokens)>) {
    match spec
    case Ok((f, d, rest)) => r == Ok((f, d)) && left == rest
    case _ => r == Fail
  }

  method ReadOrder(tk: Scanner) returns (r: Outcome<(string, bool)>)
    requires tk.Valid()
    modifies tk
    ensures tk.Valid() && OrderAgrees(r, tk.ahead, OrderClause(old(tk.ahead)))
  {
    var t := tk.Peek();
    if t.Invalid? {
      return Fail;
    }
    if t.t != "order" {
      return Ok(("", false));
    }
    tk.Pop();
    var ok := TakeWord(tk, "by");
    if !ok {
      return Fail;
    }
    var field := TakeName(tk);
    if !field.Ok? {
      return Fail;
    }
    var dir := tk.Peek();
    if dir.Token? && (dir.t == "desc" || dir.t == "asc") {
      tk.Pop();
    }
    return Ok((field.v, dir == Token("desc")));
  }

  ghost predicate LimitAgrees(r: Outcome<(int, int)>, left: Tokens, spec: Outcome<(int, int, Tokens)>) {
    match spec
    case Ok((l, o, rest)) => r == Ok((l, o)) && left == rest
    case _ => r == Fail
  }

  method ReadLimit(tk: Scanner) returns (r: Outcome<(int, int)>)
    requires tk.Valid()
    modifies tk
    ensures tk.Valid() && LimitAgrees(r, tk.ahead, LimitClause(old(tk.ahead)))
  {
    var t := tk.Peek();
    if t.Invalid? {
      return Fail;
    }
    if t.t != "limit" {
      return Ok((0, 0));
    }
    tk.Pop();
    var limit := TakeNumber(tk);
    if !limit.Ok? {
      return Fail;
    }
    var off := tk.Peek();
    if off != Token("offset") {
      return Ok((limit.v, 0));
    }
    tk.Pop();
    var offset := TakeNumber(tk);
    if !offset.Ok? {
      return Fail;
    }
    return Ok((limit.v, offset.v));
  }

  /** `parseRead`. */
  method ReadRead(tk: Scanner) returns (r: Outcome<Statement>)
    requires tk.Valid()
    modifies tk
    ensures tk.Valid() && Agrees(r, tk.ahead, ParseRead(old(tk.ahead)))
  {
    ghost var start := tk.ahead;
    ReadEnds(start);
    var first := tk.Peek();
    if first.Invalid? {
      return Fail;
    }
    var items: Outcome<seq<Item>> := Ok([Field("*")]);
    if first.t == "*" {
      tk.Pop();
    } else {
      items := TakeItems(tk);
    }
    if !items.Ok? {
      return Fail;
    }
    var ok := TakeWord(tk, "from");
    if !ok {
      return Fail;
    }
    var table := TakeName(tk);
    if !table.Ok? {
      return Fail;
    }
    r := ReadSelected(tk, table.v, items.v);
  }

  method ReadSelected(tk: Scanner, table: string, items: seq<Item>) returns (r: Outcome<Statement>)
    requires tk.Valid()
    modifies tk
    ensures tk.Valid() && Agrees(r, tk.ahead, Selected(table, items, old(tk.ahead)))
  {
    SelectedEnds(table, items, tk.ahead);
    var next := tk.Peek();
    if next.Invalid? {
      return Fail;
    }
    if next.t == "" {
      return Ok(Read(table, FieldsOf(items), AggsOf(items), None, "", false, 0, 0));
    }
    var cond: Option<Where> := None;
    if next.t == "where" {
      var w := ReadCondition(tk);
      if !w.Ok? {
        return Fail;
      }
      cond := Some(w.v);
    }
    var order := ReadOrder(tk);
    if !order.Ok? {
      return Fail;
    }
    var limit := ReadLimit(tk);
    if !limit.Ok? {
      return Fail;
    }
    return Ok(Read(table, FieldsOf(items), AggsOf(items), cond, order.v.0, order.v.1, limit.v.0, limit.v.1));
  }

  /** `parseDelete`. */
  method ReadDelete(tk: Scanner) returns (r: Outcome<Statement>)
    requires tk.Valid()
    modifies tk
    ensures tk.Valid() && Agrees(r, tk.ahead, ParseDelete(old(tk.ahead)))
  {
    UpdateEnds(tk.ahead);
    var ok := TakeWord(tk, "from");
    if !ok {
      return Fail;
    }
    var table := TakeName(tk);
    if !table.Ok? {
      return Fail;
    }
    var w := ReadCondition(tk);
    if !w.Ok? {
      return Fail;
    }
    return Ok(Delete(table.v, w.v));
  }

  /** `parseUpdate`. */
  method ReadUpdate(tk: Scanner) returns (r: Outcome<Statement>)
    requires tk.Valid()
    modifies tk
    ensures tk.Valid() && Agrees(r, tk.ahead, ParseUpdate(old(tk.ahead)))
  {
    UpdateEnds(tk.ahead);
    var table := Take(tk);
    if table.Invalid? {
      return Fail;
    }
    var ok := TakeWord(tk, "set");
    if !ok {
      return Fail;
    }
    var field := Take(tk);
    if field.Invalid? {
      return Fail;
    }
    ok := TakeWord(tk, "=");
    if !ok {
      return Fail;
    }
    var value := Take(tk);
    if value.Invalid? {
      return Fail;
    }
    var next := tk.Peek();
    if next.Invalid? {
      return Fail;
    }
    if next.t == "" {
      return Ok(Update(table.t, field.t, value.t, None));
    }
    var w := ReadCondition(tk);
    if !w.Ok? {
      return Fail;
    }
    return Ok(Update(table.t, field.t, value.t, Some(w.v)));
  }

  /** A statement of one word. */
  method ReadAlone(tk: Scanner, s: Statement) returns (r: Outcome<Statement>)
    requires tk.Valid()
    modifies tk
    ensures tk.Valid() && Agrees(r, tk.ahead, Parser.Alone(old(tk.ahead), s))
  {
    var ok := AtEnd(tk);
    return if ok then Ok(s) else Fail;
  }

  method ReadBody(tk: Scanner, word: string) returns (r: Outcome<Statement>)
    requires tk.Valid()
    modifies tk
    ensures tk.Valid() && Agrees(r, tk.ahead, ParseBody(word, old(tk.ahead)))
  {
    match word {
      case "begin" => r := ReadBegin(tk);
      case "commit" => r := ReadAlone(tk, Commit);
      case "abort" => r := ReadAlone(tk, Abort);
      case "create" => r := ReadCreate(tk);
      case "drop" => r := ReadDrop(tk);
      case "read" => r := ReadRead(tk);
      case "select" => r := ReadRead(tk);
      case "insert" => r := ReadInsert(tk);
      case "delete" => r := ReadDelete(tk);
      case "update" => r := ReadUpdate(tk);
      case "show" => r := ReadAlone(tk, Show);
      case _ => r := Fail;
    }
  }

  /** `Parse`: the statement, and nothing behind it. */
  method ParseText(text: string) returns (r: Outcome<Statement>)
    ensures r == Parser.Parse(text)
  {
    var tk := new Scanner(text);
    var word := Take(tk);
    if word.Invalid? {
      return Fail;
    }
    r := ReadBody(tk, word.t);
    if r.Ok? {
      var next := tk.Peek();
      if next.Token? && next.t != "" {
        return Fail;
      }
    }
  }
}
