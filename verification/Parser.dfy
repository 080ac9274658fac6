/** The statements of the query language. */
module Statements {
  import opened Types

  datatype Exp = Exp(field: string, op: string, value: string)

  /** One condition, or two joined by a logic operator. */
  datatype Where = Where(exp1: Exp, logic: string, exp2: Option<Exp>)

  datatype Aggregate = Aggregate(func: string, field: string)

  datatype Statement =
    | Begin(repeatableRead: bool)
    | Commit
    | Abort
    | Show
    | Drop(table: string)
    | Create(table: string, names: seq<string>, types: seq<string>, index: seq<string>)
    | Insert(table: string, values: seq<string>, rows: seq<seq<string>>)
    | Read(table: string, fields: seq<string>, aggs: seq<Aggregate>, cond: Option<Where>, orderBy: string, desc: bool, limit: int, offset: int)
    | Delete(table: string, only: Where)
    | Update(table: string, field: string, value: string, cond: Option<Where>)
}

/** The recursive-descent parser, over the tokens of a text. */
module Parser {
  import opened Types
  import opened Lexer
  import opened Tokener
  import opened Statements

  /** `Diverges`: the original does not come back. */
  datatype Outcome<+T> = Ok(v: T) | Fail | Diverges {
    predicate IsFailure() {
      !Ok?
    }
    function PropagateFailure<U>(): Outcome<U>
      requires !Ok?
    {
      if Fail? then Fail else Diverges
    }
    function Extract(): T
      requires Ok?
    {
      v
    }
  }

  function Size(ts: Tokens): nat {
    if ts.Tok? then 1 + Size(ts.tail) else 0
  }

  function Peek(ts: Tokens): Outcome<string> {
    match Head(ts)
    case Token(t) => Ok(t)
    case Invalid => Fail
  }

  /** A token is peeked and popped. */
  function Next(ts: Tokens): (r: Outcome<(string, Tokens)>)
    ensures r.Ok? ==> r.v.1 == Rest(ts) && Head(ts) == Token(r.v.0)
    ensures r.Ok? ==> Size(r.v.1) <= Size(ts) && (r.v.0 != "" ==> Size(r.v.1) < Size(ts))
  {
    var t :- Peek(ts);
    Ok((t, Rest(ts)))
  }

  function Expect(ts: Tokens, word: string): (r: Outcome<Tokens>)
    ensures r.Ok? ==> Size(r.v) <= Size(ts)
  {
    var (t, rest) :- Next(ts);
    if t == word then Ok(rest) else Fail
  }

  /** Anything but a single character that is no letter; the empty token too. */
  predicate IsName(t: string) {
    !(|t| == 1 && !IsLetter(t[0]))
  }

  function Name(ts: Tokens): (r: Outcome<(string, Tokens)>)
    ensures r.Ok? ==> r.v.1 == Rest(ts) && Size(r.v.1) <= Size(ts)
  {
    var (t, rest) :- Next(ts);
    if IsName(t) then Ok((t, rest)) else Fail
  }

  function Done(ts: Tokens): Outcome<()> {
    var t :- Peek(ts);
    if t == "" then Ok(()) else Fail
  }

  predicate IsCmpOp(op: string) {
    op == "=" || op == ">" || op == "<" || op == "!=" || op == "<=" || op == ">="
  }

  predicate IsLogicOp(op: string) {
    op == "and" || op == "or"
  }

  predicate IsAggFunc(t: string) {
    t == "count" || t == "sum" || t == "avg" || t == "min" || t == "max"
  }

  predicate IsType(t: string) {
    t == "uint32" || t == "uint64" || t == "string"
  }

  /* ----- conditions ----- */

  /** A comparison operator: the two-character ones come as two tokens. */
  function CmpOp(ts: Tokens): Outcome<(string, Tokens)> {
    var (op, rest) :- Next(ts);
    if op == "<" || op == ">" || op == "!" then
      var next :- Peek(rest);
      if next == "=" then Ok((op + "=", Rest(rest)))
      else if IsCmpOp(op) then Ok((op, rest)) else Fail
    else if IsCmpOp(op) then Ok((op, rest)) else Fail
  }

  function SingleExp(ts: Tokens): Outcome<(Exp, Tokens)> {
    var (field, ts1) :- Name(ts);
    var (op, ts2) :- CmpOp(ts1);
    var (value, ts3) :- Next(ts2);
    Ok((Exp(field, op, value), ts3))
  }

  /** Behind a second condition the statement must end. */
  function Condition(ts: Tokens): Outcome<(Where, Tokens)> {
    var ts1 :- Expect(ts, "where");
    var (e1, ts2) :- SingleExp(ts1);
    var logic :- Peek(ts2);
    if !IsLogicOp(logic) then Ok((Where(e1, "", None), ts2))
    else
      Second(e1, logic, Rest(ts2))
  }

  function Second(e1: Exp, logic: string, ts: Tokens): Outcome<(Where, Tokens)> {
    var (e2, rest) :- SingleExp(ts);
    var _ :- Done(rest);
    Ok((Where(e1, logic, Some(e2)), rest))
  }

  /* ----- statements ----- */

  function ParseBegin(ts: Tokens): Outcome<(Statement, Tokens)> {
    var t :- Peek(ts);
    if t == "" then Ok((Begin(false), ts))
    else
      var ts1 :- Expect(ts, "isolation");
      var ts2 :- Expect(ts1, "level");
      IsolationLevel(ts2)
  }

  function IsolationLevel(ts: Tokens): Outcome<(Statement, Tokens)> {
    var (kind, ts1) :- Next(ts);
    if kind != "read" && kind != "repeatable" then Fail
    else
      var ts2 :- Expect(ts1, if kind == "read" then "committed" else "read");
      Alone(ts2, Begin(kind == "repeatable"))
  }

  function Alone(ts: Tokens, s: Statement): Outcome<(Statement, Tokens)> {
    var _ :- Done(ts);
    Ok((s, ts))
  }

  function ParseDrop(ts: Tokens): Outcome<(Statement, Tokens)> {
    var ts1 :- Expect(ts, "table");
    var (table, ts2) :- Name(ts1);
    var _ :- Done(ts2);
    Ok((Drop(table), ts2))
  }

  function FieldDef(ts: Tokens): (r: Outcome<((string, string), Tokens)>)
    ensures r.Ok? ==> Size(r.v.1) <= Size(ts)
  {
    var (name, ts1) :- Name(ts);
    var (ftype, ts2) :- Next(ts1);
    if IsType(ftype) then Ok(((name, ftype), ts2)) else Fail
  }

  /** One round of the field loop: a parenthesis instead of a field, the last field, or one of more. */
  datatype Round = NoField | LastField(name: string, ftype: string, index: bool) | OneField(name: string, ftype: string)

  function FieldRound(ts: Tokens): (r: Outcome<(Round, Tokens)>)
    ensures r.Ok? && r.v.0.OneField? ==> Size(r.v.1) < Size(ts)
  {
    var first :- Peek(ts);
    if first == "(" then Ok((NoField, Rest(ts)))
    else
      var ((name, ftype), ts1) :- FieldDef(ts);
      var next :- Peek(ts1);
      if next == "," then Ok((OneField(name, ftype), Rest(ts1)))
      else if next == "" then Ok((LastField(name, ftype, false), ts1))
      else if next == "(" then Ok((LastField(name, ftype, true), Rest(ts1)))
      else Fail
  }

  /** The fields of a table; true says that an index list follows. */
  function FieldList(ts: Tokens): (r: Outcome<(seq<string>, seq<string>, bool, Tokens)>)
    decreases Size(ts)
  {
    var (round, ts1) :- FieldRound(ts);
    match round
    case NoField => Ok(([], [], true, ts1))
    case LastField(name, ftype, index) => Ok(([name], [ftype], index, ts1))
    case OneField(name, ftype) =>
      var (names, types, index, ts2) :- FieldList(ts1);
      Ok(([name] + names, [ftype] + types, index, ts2))
  }

  /** The names up to the closing parenthesis.  At the end of the text the loop goes on for ever. */
  function IndexList(ts: Tokens): Outcome<(seq<string>, Tokens)>
    decreases Size(ts)
  {
    match ts
    case End => Diverges
    case Broken => Fail
    case Tok(t, rest) =>
      if t == ")" then Ok(([], rest))
      else if !IsName(t) then Fail
      else
        var (names, ts1) :- IndexList(rest);
        Ok(([t] + names, ts1))
  }

  function ParseCreate(ts: Tokens): Outcome<(Statement, Tokens)> {
    var ts1 :- Expect(ts, "table");
    var (table, ts2) :- Name(ts1);
    var (names, types, index, ts3) :- FieldList(ts2);
    if !index then Ok((Create(table, names, types, []), ts3))
    else
      var ts4 :- Expect(ts3, "index");
      var (indexed, ts5) :- IndexList(ts4);
      var _ :- Done(ts5);
      Ok((Create(table, names, types, indexed), ts5))
  }

  /** The values up to the end of the text, or to an empty token. */
  function ValueList(ts: Tokens): Outcome<(seq<string>, Tokens)>
    decreases Size(ts)
  {
    var (t, rest) :- Next(ts);
    if t == "" then Ok(([], ts))
    else
      var (more, ts1) :- ValueList(rest);
      Ok(([t] + more, ts1))
  }

  /** The values of one row up to the closing brace; commas are skipped. */
  function RowValues(ts: Tokens): (r: Outcome<(seq<string>, Tokens)>)
    ensures r.Ok? ==> Size(r.v.1) < Size(ts)
    decreases Size(ts)
  {
    var (t, rest) :- Next(ts);
    if t == "" then Fail
    else if t == "}" then Ok(([], rest))
    else if t == "," then RowValues(rest)
    else
      var (more, ts1) :- RowValues(rest);
      Ok(([t] + more, ts1))
  }

  /** Rows in braces, behind the first opening brace. */
  function RowList(ts: Tokens): Outcome<(seq<seq<string>>, Tokens)>
    decreases Size(ts)
  {
    var (row, ts1) :- RowValues(ts);
    var next :- Peek(ts1);
    if next == "" then Ok(([row], ts1))
    else if next == "," then
      var ts2 :- Expect(Rest(ts1), "{");
      var (rows, ts3) :- RowList(ts2);
      Ok(([row] + rows, ts3))
    else Fail
  }

  function ParseInsert(ts: Tokens): Outcome<(Statement, Tokens)> {
    var ts1 :- Expect(ts, "into");
    var (table, ts2) :- Name(ts1);
    var ts3 :- Expect(ts2, "values");
    Inserted(table, ts3)
  }

  function Inserted(table: string, ts: Tokens): Outcome<(Statement, Tokens)> {
    var first :- Peek(ts);
    if first == "" then Fail
    else if first == "{" then
      var (rows, rest) :- RowList(Rest(ts));
      Ok((Insert(table, [], rows), rest))
    else
      var (values, rest) :- ValueList(ts);
      Ok((Insert(table, values, []), rest))
  }

  /** What may be read: a field, or an aggregate of one. */
  datatype Item = Field(name: string) | Agg(agg: Aggregate)

  function ReadItem(ts: Tokens): (r: Outcome<(Item, Tokens)>)
    ensures r.Ok? ==> Size(r.v.1) <= Size(ts)
  {
    var (t, ts1) :- Next(ts);
    if IsAggFunc(t) then
      var ts2 :- Expect(ts1, "(");
      var (arg, ts3) :- Next(ts2);
      if (arg == "*" && t == "count") || IsName(arg) then
        var ts4 :- Expect(ts3, ")");
        Ok((Agg(Aggregate(t, arg)), ts4))
      else Fail
    else if IsName(t) then Ok((Field(t), ts1))
    else Fail
  }

  function ItemList(ts: Tokens): Outcome<(seq<Item>, Tokens)>
    decreases Size(ts)
  {
    var (item, ts1) :- ReadItem(ts);
    var (comma, ts2) :- Next(ts1);
    if comma == "," then
      var (items, ts3) :- ItemList(ts2);
      Ok(([item] + items, ts3))
    else Ok(([item], ts1))
  }

  function FieldsOf(items: seq<Item>): seq<string> {
    if items == [] then [] else (if items[0].Field? then [items[0].name] else []) + FieldsOf(items[1..])
  }

  function AggsOf(items: seq<Item>): seq<Aggregate> {
    if items == [] then [] else (if items[0].Agg? then [items[0].agg] else []) + AggsOf(items[1..])
  }

  /** A 64-bit signed number, wrapping around. */
  function Wrap64(n: int): int {
    (n + 0x8000_0000_0000_0000) % 0x1_0000_0000_0000_0000 - 0x8000_0000_0000_0000
  }

  /** `utilsStrToInt`; the empty string is 0. */
  function StrToInt(s: string): Option<int> {
    if s == "" then Some(0)
    else if !IsDigit(s[|s| - 1]) then None
    else
      match StrToInt(s[..|s| - 1])
      case None => None
      case Some(n) => Some(Wrap64(n * 10 + (s[|s| - 1] - '0') as int))
  }

  function Number(ts: Tokens): Outcome<(int, Tokens)> {
    var (t, rest) :- Next(ts);
    match StrToInt(t)
    case None => Fail
    case Some(n) => Ok((n, rest))
  }

  /** ORDER BY, if there: the field, whether descending, and the rest. */
  function OrderClause(ts: Tokens): Outcome<(string, bool, Tokens)> {
    var t :- Peek(ts);
    if t != "order" then Ok(("", false, ts))
    else
      var ts1 :- Expect(Rest(ts), "by");
      var (field, ts2) :- Name(ts1);
      match Head(ts2)
      case Token(dir) =>
        if dir == "desc" then Ok((field, true, Rest(ts2)))
        else if dir == "asc" then Ok((field, false, Rest(ts2)))
        else Ok((field, false, ts2))
      case Invalid => Ok((field, false, ts2))
  }

  /** LIMIT and OFFSET, if there; a broken token behind the limit is not noticed. */
  function LimitClause(ts: Tokens): Outcome<(int, int, Tokens)> {
    var t :- Peek(ts);
    if t != "limit" then Ok((0, 0, ts))
    else
      var (limit, ts1) :- Number(Rest(ts));
      if Head(ts1) == Token("offset") then
        var (offset, ts2) :- Number(Rest(ts1));
        Ok((limit, offset, ts2))
      else Ok((limit, 0, ts1))
  }

  function ParseRead(ts: Tokens): Outcome<(Statement, Tokens)> {
    var t :- Peek(ts);
    var (items, ts1) :- if t == "*" then Ok(([Field("*")], Rest(ts))) else ItemList(ts);
    var ts2 :- Expect(ts1, "from");
    var (table, ts3) :- Name(ts2);
    Selected(table, items, ts3)
  }

  /** What stands behind the table. */
  function Selected(table: string, items: seq<Item>, ts: Tokens): Outcome<(Statement, Tokens)> {
    var next :- Peek(ts);
    if next == "" then Ok((Read(table, FieldsOf(items), AggsOf(items), None, "", false, 0, 0), ts))
    else
      var (cond, ts1) :- OptionalCondition(ts, next);
      var (orderBy, desc, ts2) :- OrderClause(ts1);
      var (limit, offset, ts3) :- LimitClause(ts2);
      Ok((Read(table, FieldsOf(items), AggsOf(items), cond, orderBy, desc, limit, offset), ts3))
  }

  function OptionalCondition(ts: Tokens, next: string): Outcome<(Option<Where>, Tokens)> {
    if next != "where" then Ok((None, ts))
    else
      var (w, rest) :- Condition(ts);
      Ok((Some(w), rest))
  }

  function ParseDelete(ts: Tokens): Outcome<(Statement, Tokens)> {
    var ts1 :- Expect(ts, "from");
    var (table, ts2) :- Name(ts1);
    var (w, ts3) :- Condition(ts2);
    Ok((Delete(table, w), ts3))
  }

  function ParseUpdate(ts: Tokens): Outcome<(Statement, Tokens)> {
    var (table, ts1) :- Next(ts);
    var ts2 :- Expect(ts1, "set");
    var (field, ts3) :- Next(ts2);
    var ts4 :- Expect(ts3, "=");
    var (value, ts5) :- Next(ts4);
    var next :- Peek(ts5);
    if next == "" then Ok((Update(table, field, value, None), ts5))
    else
      var (w, ts6) :- Condition(ts5);
      Ok((Update(table, field, value, Some(w)), ts6))
  }

  function ParseBody(word: string, ts: Tokens): Outcome<(Statement, Tokens)> {
    match word
    case "begin" => ParseBegin(ts)
    case "commit" => Alone(ts, Commit)
    case "abort" => Alone(ts, Abort)
    case "drop" => ParseDrop(ts)
    case "show" => Alone(ts, Show)
    case _ => ParseLong(word, ts)
  }

  function ParseLong(word: string, ts: Tokens): Outcome<(Statement, Tokens)> {
    match word
    case "create" => ParseCreate(ts)
    case "read" => ParseRead(ts)
    case "select" => ParseRead(ts)
    case "insert" => ParseInsert(ts)
    case "delete" => ParseDelete(ts)
    case "update" => ParseUpdate(ts)
    case _ => Fail
  }

  /** Behind the statement no token may follow; something that is no token may. */
  function ParseTokens(ts: Tokens): Outcome<Statement> {
    var (word, ts1) :- Next(ts);
    var (s, rest) :- ParseBody(word, ts1);
    match Head(rest)
    case Token(t) => if t == "" then Ok(s) else Fail
    case Invalid => Ok(s)
  }

  function Parse(text: string): Outcome<Statement> {
    ParseTokens(Lex(text))
  }
}
