/**
 * The language of the parser, said without the parser: the sentences of each statement as sequences
 * of words, and the proof that exactly these are accepted.
 */
module Sentences {
  import opened Types
  import opened Lexer
  import opened Tokener
  import opened Statements
  import opened Parser
  import G = Grammar

  /* ----- reading words off tokens ----- */

  /**
   * `ts` begins with the words `ws`, and `rest` follows.  Behind the end of a text the empty word
   * stands as often as it is asked for.
   */
  predicate Reads(ts: Tokens, ws: seq<string>, rest: Tokens)
    decreases |ws|
  {
    if ws == [] then rest == ts
    else
      match ts
      case End => ws[0] == "" && Reads(End, ws[1..], rest)
      case Broken => false
      case Tok(t, more) => ws[0] == t && Reads(more, ws[1..], rest)
  }

  predicate Starts(ts: Tokens, w: string) {
    Head(ts) == Token(w)
  }

  lemma First(ts: Tokens, w: string, ws: seq<string>, rest: Tokens)
    ensures Reads(ts, [w] + ws, rest) <==> Starts(ts, w) && Reads(Rest(ts), ws, rest)
  {
    assert ([w] + ws)[1..] == ws;
  }

  lemma One(ts: Tokens, w: string, rest: Tokens)
    ensures Reads(ts, [w], rest) <==> Starts(ts, w) && rest == Rest(ts)
  {
    First(ts, w, [], rest);
    assert [w] + [] == [w];
  }

  /** The tokens behind `n` words. */
  function Behind(ts: Tokens, n: nat): Tokens {
    if n == 0 then ts else Behind(Rest(ts), n - 1)
  }

  lemma {:induction false} Join(ts: Tokens, a: seq<string>, b: seq<string>, rest: Tokens)
    ensures Reads(ts, a + b, rest) <==> Reads(ts, a, Behind(ts, |a|)) && Reads(Behind(ts, |a|), b, rest)
    decreases |a|
  {
    if a == [] {
      assert a + b == b;
    } else {
      assert a + b == [a[0]] + (a[1..] + b) && a == [a[0]] + a[1..];
      First(ts, a[0], a[1..] + b, rest);
      First(ts, a[0], a[1..], Behind(ts, |a|));
      Join(Rest(ts), a[1..], b, rest);
    }
  }

  lemma {:induction false} Reached(ts: Tokens, ws: seq<string>, rest: Tokens)
    requires Reads(ts, ws, rest)
    ensures rest == Behind(ts, |ws|)
    decreases |ws|
  {
    if ws != [] {
      assert ws == [ws[0]] + ws[1..];
      First(ts, ws[0], ws[1..], rest);
      Reached(Rest(ts), ws[1..], rest);
    }
  }

  /** What is read in two parts is read as a whole. */
  lemma Joined(ts: Tokens, a: seq<string>, mid: Tokens, b: seq<string>, rest: Tokens)
    requires Reads(ts, a, mid) && Reads(mid, b, rest)
    ensures Reads(ts, a + b, rest)
  {
    Reached(ts, a, mid);
    Join(ts, a, b, rest);
  }

  /* ----- the words of the language ----- */

  const TYPES := {"uint32", "uint64", "string"}
  const AGGREGATES := {"count", "sum", "avg", "min", "max"}
  const CONNECTIVES := {"and", "or"}
  const OPERATORS := {"=", ">", "<", "!=", "<=", ">="}

  /** Any word but a single character that is no letter. */
  predicate Nameable(t: string) {
    |t| == 1 ==> 'a' <= t[0] <= 'z' || 'A' <= t[0] <= 'Z'
  }

  predicate AllNameable(ns: seq<string>) {
    forall i :: 0 <= i < |ns| ==> Nameable(ns[i])
  }

  predicate Numeric(t: string) {
    forall i :: 0 <= i < |t| ==> '0' <= t[i] <= '9'
  }

  /** The number that digits denote. */
  function Value(t: string): nat
    requires Numeric(t)
  {
    if t == "" then 0 else 10 * Value(t[..|t| - 1]) + (t[|t| - 1] as int - '0' as int)
  }

  /** `n` is `v` in 64 bits, signed. */
  predicate In64(v: int, n: int) {
    -0x8000_0000_0000_0000 <= n < 0x8000_0000_0000_0000 && (v - n) % 0x1_0000_0000_0000_0000 == 0
  }

  predicate Denotes(t: string, n: int) {
    Numeric(t) && In64(Value(t), n)
  }

  /* ----- the forms of a sentence ----- */

  /**
   * What a statement leaves open about its sentence: whether the default isolation level is written
   * out; whether there is an index list, and a comma before it; the words between the braces of bulk
   * rows; whether operators of two characters are two words or one quoted word; `select` for `read`;
   * the order of fields and aggregates; the direction of an ORDER BY, empty if not written; the
   * digits of LIMIT and OFFSET.
   */
  datatype Form = Form(
    level: bool,
    index: bool,
    comma: bool,
    rows: seq<seq<string>>,
    split1: bool,
    split2: bool,
    select: bool,
    items: seq<Item>,
    order: Option<string>,
    limit: Option<string>,
    offset: Option<string>)

  const FORM := Form(false, false, false, [], false, false, false, [], None, None, None)

  function OpWords(op: string, split: bool): seq<string> {
    if split && |op| == 2 then [op[..1]] + ["="] else [op]
  }

  function ExpWords(e: Exp, split: bool): seq<string> {
    [e.field] + (OpWords(e.op, split) + [e.value])
  }

  /** An equality sign behind < or > would belong to the operator. */
  predicate ExpFits(e: Exp) {
    Nameable(e.field) && e.op in OPERATORS && (e.op == "<" || e.op == ">" ==> e.value != "=")
  }

  function WhereWords(w: Where, split1: bool, split2: bool): seq<string> {
    ["where"] + (ExpWords(w.exp1, split1) + if w.exp2.Some? then [w.logic] + ExpWords(w.exp2.value, split2) else [])
  }

  predicate WhereFits(w: Where) {
    && ExpFits(w.exp1)
    && match w.exp2
       case None => w.logic == ""
       case Some(e) => w.logic in CONNECTIVES && ExpFits(e)
  }

  function MaybeWords(cond: Option<Where>, f: Form): seq<string> {
    if cond.Some? then WhereWords(cond.value, f.split1, f.split2) else []
  }

  function FieldWords(names: seq<string>, types: seq<string>): seq<string>
    requires |names| == |types|
  {
    if names == [] then []
    else [names[0]] + ([types[0]] + if |names| == 1 then [] else [","] + FieldWords(names[1..], types[1..]))
  }

  /** What stands between the fields and the word `index`. */
  function Opening(index: bool, comma: bool): seq<string> {
    if !index then [] else if comma then [","] + ["("] else ["("]
  }

  function ListWords(names: seq<string>, types: seq<string>, index: bool, comma: bool): seq<string>
    requires |names| == |types|
  {
    FieldWords(names, types) + Opening(index, comma)
  }

  predicate FieldsFit(names: seq<string>, types: seq<string>, index: bool, comma: bool) {
    && |names| == |types| && AllNameable(names) && (forall i :: 0 <= i < |types| ==> types[i] in TYPES)
    && (if index then comma ==> names != [] else names != [])
  }

  /** The words of a row without its commas. */
  function Without(ws: seq<string>): seq<string> {
    if ws == [] then [] else (if ws[0] == "," then [] else [ws[0]]) + Without(ws[1..])
  }

  predicate InBraces(ws: seq<string>) {
    forall i :: 0 <= i < |ws| ==> ws[i] != "" && ws[i] != "}"
  }

  /** The words in braces that rows are read from. */
  predicate RowsFit(wss: seq<seq<string>>, rows: seq<seq<string>>) {
    |wss| == |rows| && forall i :: 0 <= i < |rows| ==> InBraces(wss[i]) && Without(wss[i]) == rows[i]
  }

  function RowsWords(rows: seq<seq<string>>): seq<string>
    decreases |rows|, 1
  {
    if rows == [] then [] else ["{"] + InRows(rows)
  }

  /** The words behind the first opening brace. */
  function InRows(rows: seq<seq<string>>): seq<string>
    requires rows != []
    decreases |rows|, 0
  {
    (rows[0] + ["}"]) + if |rows| == 1 then [] else [","] + RowsWords(rows[1..])
  }

  function ItemWords(i: Item): seq<string> {
    match i
    case Field(n) => [n]
    case Agg(a) => [a.func] + (["("] + ([a.field] + [")"]))
  }

  predicate ItemFits(i: Item) {
    match i
    case Field(n) => Nameable(n) && n !in AGGREGATES
    case Agg(a) => a.func in AGGREGATES && (Nameable(a.field) || (a.field == "*" && a.func == "count"))
  }

  function ItemsWords(items: seq<Item>): seq<string> {
    if items == [] then [] else ItemWords(items[0]) + if |items| == 1 then [] else [","] + ItemsWords(items[1..])
  }

  predicate ItemsFit(items: seq<Item>) {
    items == [Field("*")] || (items != [] && forall i :: 0 <= i < |items| ==> ItemFits(items[i]))
  }

  function OrderWords(orderBy: string, order: Option<string>): seq<string> {
    if order.None? then [] else ["order"] + (["by"] + ([orderBy] + if order.value == "" then [] else [order.value]))
  }

  predicate OrderFits(orderBy: string, desc: bool, order: Option<string>) {
    match order
    case None => orderBy == "" && !desc
    case Some(dir) => Nameable(orderBy) && dir in {"", "asc", "desc"} && (desc <==> dir == "desc")
  }

  function LimitWords(limit: Option<string>, offset: Option<string>): seq<string> {
    if limit.None? then []
    else ["limit"] + ([limit.value] + if offset.None? then [] else ["offset"] + [offset.value])
  }

  predicate LimitFits(limit: int, offset: int, l: Option<string>, o: Option<string>) {
    && (if l.None? then limit == 0 && o.None? else Denotes(l.value, limit))
    && (if o.None? then offset == 0 else Denotes(o.value, offset))
  }

  /** The sentence of a statement in a form. */
  function Words(s: Statement, f: Form): seq<string>
    requires Fits(s, f)
  {
    match s
    case Begin(rr) =>
      ["begin"] +
      (if rr then ["isolation"] + (["level"] + (["repeatable"] + ["read"]))
       else if f.level then ["isolation"] + (["level"] + (["read"] + ["committed"]))
       else [])
    case Commit => ["commit"]
    case Abort => ["abort"]
    case Show => ["show"]
    case Drop(table) => ["drop"] + (["table"] + [table])
    case Create(table, names, types, index) =>
      ["create"] + (["table"] + ([table] + (ListWords(names, types, f.index, f.comma) +
        if f.index then ["index"] + (index + [")"]) else [])))
    case Insert(table, values, rows) =>
      ["insert"] + (["into"] + ([table] + (["values"] + if rows == [] then values else RowsWords(f.rows))))
    case Read(table, _, _, cond, orderBy, _, _, _) =>
      [if f.select then "select" else "read"] + (ItemsWords(f.items) + (["from"] + ([table] +
        (MaybeWords(cond, f) + (OrderWords(orderBy, f.order) + LimitWords(f.limit, f.offset))))))
    case Delete(table, w) => ["delete"] + (["from"] + ([table] + WhereWords(w, f.split1, f.split2)))
    case Update(table, field, value, cond) =>
      ["update"] + ([table] + (["set"] + ([field] + (["="] + ([value] + MaybeWords(cond, f))))))
  }

  /** The statement has a sentence in this form. */
  predicate Fits(s: Statement, f: Form) {
    match s
    case Begin(_) => true
    case Commit => true
    case Abort => true
    case Show => true
    case Drop(table) => Nameable(table)
    case Create(table, names, types, index) =>
      Nameable(table) && FieldsFit(names, types, f.index, f.comma) && AllNameable(index) && (!f.index ==> index == [])
    case Insert(table, values, rows) =>
      && Nameable(table)
      && if rows == [] then values != [] && values[0] != "{" && forall i :: 0 <= i < |values| ==> values[i] != ""
         else values == [] && RowsFit(f.rows, rows)
    case Read(table, fields, aggs, cond, orderBy, desc, limit, offset) =>
      && ItemsFit(f.items) && FieldsOf(f.items) == fields && AggsOf(f.items) == aggs && Nameable(table)
      && (cond.Some? ==> WhereFits(cond.value))
      && OrderFits(orderBy, desc, f.order) && LimitFits(limit, offset, f.limit, f.offset)
      && (cond.Some? && cond.value.exp2.Some? ==> f.order.None? && f.limit.None?)
    case Delete(table, w) => Nameable(table) && WhereFits(w)
    case Update(_, _, _, cond) => cond.Some? ==> WhereFits(cond.value)
  }

  /** The parser stops at the end or at an empty word, and behind a limit also at what is no token. */
  predicate StopsAt(s: Statement, f: Form, rest: Tokens) {
    Starts(rest, "") || (rest == Broken && s.Read? && f.limit.Some?)
  }

  /* ----- names and numbers ----- */

  lemma NameIff(t: string)
    ensures IsName(t) <==> Nameable(t)
  {
  }

  lemma TakesName(ts: Tokens, t: string, rest: Tokens)
    ensures Name(ts) == Ok((t, rest)) <==> Nameable(t) && Reads(ts, [t], rest)
  {
    NameIff(t);
    One(ts, t, rest);
  }

  const WORD: int := 0x1_0000_0000_0000_0000

  lemma SignedOnce(v: int, a: int, b: int)
    requires In64(v, a) && In64(v, b)
    ensures a == b
  {
    var j, k := (v - a) / WORD, (v - b) / WORD;
    assert v - a == j * WORD && v - b == k * WORD;
    assert a - b == (k - j) * WORD;
  }

  lemma WrapIs(v: int, n: int)
    ensures In64(v, n) <==> n == Wrap64(v)
  {
    Wraps(v);
    if In64(v, n) {
      SignedOnce(v, n, Wrap64(v));
    }
  }

  lemma Wraps(v: int)
    ensures In64(v, Wrap64(v))
  {
    var k := (v + 0x8000_0000_0000_0000) / WORD;
    assert v - Wrap64(v) == k * WORD;
  }

  lemma WrapDigit(m: int, d: int)
    ensures Wrap64(Wrap64(m) * 10 + d) == Wrap64(m * 10 + d)
  {
    Wraps(m);
    var k := (m - Wrap64(m)) / WORD;
    assert m == Wrap64(m) + k * WORD;
    var a := Wrap64(m) * 10 + d;
    Wraps(a);
    assert m * 10 + d - a == (10 * k) * WORD;
    Shifted(m * 10 + d, a, Wrap64(a), 10 * k);
    WrapIs(m * 10 + d, Wrap64(a));
  }

  lemma Shifted(b: int, a: int, n: int, k: int)
    requires In64(a, n) && b - a == k * WORD
    ensures In64(b, n)
  {
    var j := (a - n) / WORD;
    assert a - n == j * WORD;
    assert b - n == (j + k) * WORD;
  }

  lemma {:induction false} NumberIs(t: string)
    ensures if Numeric(t) then StrToInt(t) == Some(Wrap64(Value(t))) else StrToInt(t) == None
    decreases |t|
  {
    if t != "" {
      var n := |t| - 1;
      NumberIs(t[..n]);
      assert Numeric(t) <==> Numeric(t[..n]) && IsDigit(t[n]);
      if Numeric(t) {
        WrapDigit(Value(t[..n]), t[n] as int - '0' as int);
      }
    }
  }

  lemma NumberIff(t: string, n: int)
    ensures StrToInt(t) == Some(n) <==> Denotes(t, n)
  {
    NumberIs(t);
    if Numeric(t) {
      WrapIs(Value(t), n);
    }
  }

  lemma TakesNumber(ts: Tokens, t: string, n: int, rest: Tokens)
    ensures Starts(ts, t) && Number(ts) == Ok((n, rest)) <==> Denotes(t, n) && Reads(ts, [t], rest)
  {
    NumberIff(t, n);
    One(ts, t, rest);
  }

  /* ----- conditions ----- */

  lemma OpWordsAre(op: string, ts: Tokens, rest: Tokens)
    requires op in OPERATORS
    ensures Reads(ts, OpWords(op, false), rest) <==> Starts(ts, op) && rest == Rest(ts)
    ensures |op| == 2 ==>
      (Reads(ts, OpWords(op, true), rest) <==> Starts(ts, op[..1]) && Starts(Rest(ts), "=") && rest == Rest(Rest(ts)))
    ensures |op| != 2 ==> OpWords(op, true) == OpWords(op, false)
  {
    One(ts, op, rest);
    First(ts, op[..1], ["="], rest);
    One(Rest(ts), "=", rest);
  }

  /** The operator and the token behind it. */
  lemma OpIff(ts: Tokens, op: string, rest: Tokens)
    requires Head(rest).Token?
    ensures CmpOp(ts) == Ok((op, rest)) <==>
      && op in OPERATORS && (op == "<" || op == ">" ==> !Starts(rest, "="))
      && (Reads(ts, OpWords(op, true), rest) || Reads(ts, OpWords(op, false), rest))
  {
    if op in OPERATORS {
      OpWordsAre(op, ts, rest);
      assert "!="[..1] == "!" && "<="[..1] == "<" && ">="[..1] == ">";
      assert |"="| == 1 && |"<"| == 1 && |">"| == 1;
    }
    assert "!" + "=" == "!=" && "<" + "=" == "<=" && ">" + "=" == ">=";
  }

  lemma ExpWordsAre(ts: Tokens, e: Exp, split: bool, rest: Tokens)
    ensures Reads(ts, ExpWords(e, split), rest) <==>
      && Starts(ts, e.field)
      && var mid := Behind(Rest(ts), |OpWords(e.op, split)|);
      Reads(Rest(ts), OpWords(e.op, split), mid) && Starts(mid, e.value) && rest == Rest(mid)
  {
    First(ts, e.field, OpWords(e.op, split) + [e.value], rest);
    Join(Rest(ts), OpWords(e.op, split), [e.value], rest);
    One(Behind(Rest(ts), |OpWords(e.op, split)|), e.value, rest);
  }

  lemma ExpParsed(ts: Tokens, e: Exp, rest: Tokens) returns (split: bool)
    requires SingleExp(ts) == Ok((e, rest))
    ensures ExpFits(e) && Reads(ts, ExpWords(e, split), rest)
  {
    var ts1 := Name(ts).v.1;
    var mid := CmpOp(ts1).v.1;
    NameIff(e.field);
    OpIff(ts1, e.op, mid);
    split := Reads(ts1, OpWords(e.op, true), mid);
    Reached(ts1, OpWords(e.op, split), mid);
    ExpWordsAre(ts, e, split, rest);
  }

  lemma ExpAccepted(ts: Tokens, e: Exp, split: bool, rest: Tokens)
    requires ExpFits(e) && Reads(ts, ExpWords(e, split), rest)
    ensures SingleExp(ts) == Ok((e, rest))
  {
    NameIff(e.field);
    ExpWordsAre(ts, e, split, rest);
    OpIff(Rest(ts), e.op, Behind(Rest(ts), |OpWords(e.op, split)|));
  }

  /** What may follow the conditions: after two of them nothing, after one no connective. */
  predicate ConditionMayEnd(w: Where, rest: Tokens) {
    match Head(rest)
    case Token(t) => if w.exp2.Some? then t == "" else t !in CONNECTIVES
    case Invalid => false
  }

  lemma WhereWordsAre(ts: Tokens, w: Where, split1: bool, split2: bool, rest: Tokens)
    ensures var a := ExpWords(w.exp1, split1);
      var mid := Behind(Rest(ts), |a|);
      Reads(ts, WhereWords(w, split1, split2), rest) <==>
      && Starts(ts, "where") && Reads(Rest(ts), a, mid)
      && (if w.exp2.Some? then Starts(mid, w.logic) && Reads(Rest(mid), ExpWords(w.exp2.value, split2), rest) else rest == mid)
  {
    var a := ExpWords(w.exp1, split1);
    var b := if w.exp2.Some? then [w.logic] + ExpWords(w.exp2.value, split2) else [];
    var mid := Behind(Rest(ts), |a|);
    First(ts, "where", a + b, rest);
    Join(Rest(ts), a, b, rest);
    if w.exp2.Some? {
      First(mid, w.logic, ExpWords(w.exp2.value, split2), rest);
    }
  }

  lemma WhereTaken(ts: Tokens, w: Where, rest: Tokens) returns (mid: Tokens)
    requires Condition(ts) == Ok((w, rest))
    ensures Starts(ts, "where") && SingleExp(Rest(ts)) == Ok((w.exp1, mid)) && ConditionMayEnd(w, rest)
    ensures if w.exp2.Some? then Starts(mid, w.logic) && w.logic in CONNECTIVES && SingleExp(Rest(mid)) == Ok((w.exp2.value, rest))
            else w.logic == "" && rest == mid
  {
    mid := SingleExp(Rest(ts)).v.1;
  }

  lemma WhereParsed(ts: Tokens, w: Where, rest: Tokens) returns (split1: bool, split2: bool)
    requires Condition(ts) == Ok((w, rest))
    ensures WhereFits(w) && Reads(ts, WhereWords(w, split1, split2), rest) && ConditionMayEnd(w, rest)
  {
    var mid := WhereTaken(ts, w, rest);
    split1 := ExpParsed(Rest(ts), w.exp1, mid);
    split2 := false;
    if w.exp2.Some? {
      split2 := ExpParsed(Rest(mid), w.exp2.value, rest);
    }
    Reached(Rest(ts), ExpWords(w.exp1, split1), mid);
    WhereWordsAre(ts, w, split1, split2, rest);
  }

  lemma WhereAccepted(ts: Tokens, w: Where, split1: bool, split2: bool, rest: Tokens)
    requires WhereFits(w) && Reads(ts, WhereWords(w, split1, split2), rest) && ConditionMayEnd(w, rest)
    ensures Condition(ts) == Ok((w, rest))
  {
    var mid := Behind(Rest(ts), |ExpWords(w.exp1, split1)|);
    WhereWordsAre(ts, w, split1, split2, rest);
    ExpAccepted(Rest(ts), w.exp1, split1, mid);
    if w.exp2.Some? {
      ExpAccepted(Rest(mid), w.exp2.value, split2, rest);
    }
  }

  /* ----- lists ----- */

  lemma {:induction false} IndexIff(ts: Tokens, ns: seq<string>, rest: Tokens)
    ensures IndexList(ts) == Ok((ns, rest)) <==> AllNameable(ns) && Reads(ts, ns + [")"], rest)
    decreases Size(ts)
  {
    assert !Nameable(")");
    if ns == [] {
      One(ts, ")", rest);
      assert ns + [")"] == [")"];
    } else {
      assert ns + [")"] == [ns[0]] + (ns[1..] + [")"]);
      First(ts, ns[0], ns[1..] + [")"], rest);
      assert AllNameable(ns) <==> Nameable(ns[0]) && AllNameable(ns[1..]);
      if ts.Tok? {
        IndexIff(ts.tail, ns[1..], rest);
        NameIff(ts.head);
        IndexNext(ts, ns, rest);
      } else {
        EndHasNoOther(ns[1..], ")", rest);
      }
    }
  }

  lemma IndexNext(ts: Tokens, ns: seq<string>, rest: Tokens)
    requires ts.Tok? && ns != []
    ensures IndexList(ts) == Ok((ns, rest)) <==>
      ts.head != ")" && IsName(ts.head) && ns[0] == ts.head && IndexList(ts.tail) == Ok((ns[1..], rest))
  {
    var r := IndexList(ts.tail);
    if r.Ok? {
      assert ([ts.head] + r.v.0)[1..] == r.v.0;
    }
    assert ns == [ns[0]] + ns[1..];
  }

  /** Behind the end only empty words are read. */
  lemma {:induction false} EndHasNoOther(ws: seq<string>, w: string, rest: Tokens)
    requires w != ""
    ensures !Reads(End, ws + [w], rest)
  {
    if ws == [] {
      One(End, w, rest);
      assert ws + [w] == [w];
    } else {
      assert ws + [w] == [ws[0]] + (ws[1..] + [w]);
      First(End, ws[0], ws[1..] + [w], rest);
      EndHasNoOther(ws[1..], w, rest);
    }
  }

  lemma {:induction false} ValuesIff(ts: Tokens, vs: seq<string>, rest: Tokens)
    ensures ValueList(ts) == Ok((vs, rest)) <==>
      (forall i :: 0 <= i < |vs| ==> vs[i] != "") && Reads(ts, vs, rest) && Starts(rest, "")
    decreases Size(ts)
  {
    if vs != [] {
      assert vs == [vs[0]] + vs[1..];
      First(ts, vs[0], vs[1..], rest);
    }
    if ts.Tok? && ts.head != "" {
      if vs != [] {
        ValuesIff(ts.tail, vs[1..], rest);
      }
      var r := ValueList(ts.tail);
      assert r.Ok? ==> ([ts.head] + r.v.0)[1..] == r.v.0;
    }
  }

  lemma {:induction false} RowParsed(ts: Tokens, row: seq<string>, rest: Tokens) returns (ws: seq<string>)
    requires RowValues(ts) == Ok((row, rest))
    ensures InBraces(ws) && Without(ws) == row && Reads(ts, ws + ["}"], rest)
    decreases Size(ts)
  {
    if ts.head == "}" {
      ws := [];
      One(ts, "}", rest);
      assert ws + ["}"] == ["}"];
    } else {
      var more := RowParsed(ts.tail, RowValues(ts.tail).v.0, rest);
      ws := [ts.head] + more;
      assert ws[1..] == more && ws + ["}"] == [ts.head] + (more + ["}"]);
      First(ts, ts.head, more + ["}"], rest);
    }
  }

  lemma {:induction false} RowAccepted(ts: Tokens, ws: seq<string>, rest: Tokens)
    requires InBraces(ws) && Reads(ts, ws + ["}"], rest)
    ensures RowValues(ts) == Ok((Without(ws), rest))
    decreases |ws|
  {
    if ws == [] {
      assert ws + ["}"] == ["}"];
      One(ts, "}", rest);
    } else {
      assert ws + ["}"] == [ws[0]] + (ws[1..] + ["}"]);
      First(ts, ws[0], ws[1..] + ["}"], rest);
      RowAccepted(Rest(ts), ws[1..], rest);
      assert [] + Without(ws[1..]) == Without(ws[1..]);
    }
  }

  lemma {:induction false} RowsParsed(ts: Tokens, rows: seq<seq<string>>, rest: Tokens) returns (wss: seq<seq<string>>)
    requires RowList(ts) == Ok((rows, rest))
    ensures rows != [] && RowsFit(wss, rows) && Reads(ts, InRows(wss), rest) && Starts(rest, "")
    decreases Size(ts)
  {
    var (row, mid) := RowValues(ts).v;
    var ws := RowParsed(ts, row, mid);
    if Starts(mid, "") {
      wss := [ws];
      assert (ws + ["}"]) + [] == ws + ["}"];
    } else {
      var ts2 := Rest(Rest(mid));
      var more := RowsParsed(ts2, RowList(ts2).v.0, rest);
      wss := [ws] + more;
      assert wss[1..] == more;
      First(Rest(mid), "{", InRows(more), rest);
      First(mid, ",", RowsWords(more), rest);
      Joined(ts, ws + ["}"], mid, [","] + RowsWords(more), rest);
    }
  }

  lemma {:induction false} RowsAccepted(ts: Tokens, wss: seq<seq<string>>, rows: seq<seq<string>>, rest: Tokens)
    requires rows != [] && RowsFit(wss, rows) && Reads(ts, InRows(wss), rest) && Starts(rest, "")
    ensures RowList(ts) == Ok((rows, rest))
    decreases |rows|
  {
    var tail := if |wss| == 1 then [] else [","] + RowsWords(wss[1..]);
    var mid := Behind(ts, |wss[0] + ["}"]|);
    Join(ts, wss[0] + ["}"], tail, rest);
    RowAccepted(ts, wss[0], mid);
    if |wss| == 1 {
      assert rows == [rows[0]];
    } else {
      First(mid, ",", RowsWords(wss[1..]), rest);
      First(Rest(mid), "{", InRows(wss[1..]), rest);
      RowsAccepted(Rest(Rest(mid)), wss[1..], rows[1..], rest);
      assert rows == [rows[0]] + rows[1..];
    }
  }

  /* ----- fields ----- */

  /** The words of one field and of what stands behind it. */
  lemma FieldStep(ts: Tokens, name: string, ftype: string, more: seq<string>, rest: Tokens)
    ensures Reads(ts, [name] + ([ftype] + more), rest) <==>
      Starts(ts, name) && Starts(Rest(ts), ftype) && Reads(Rest(Rest(ts)), more, rest)
  {
    First(ts, name, [ftype] + more, rest);
    First(Rest(ts), ftype, more, rest);
  }

  /** What stands behind the first field. */
  function Behind1(names: seq<string>, types: seq<string>, index: bool, comma: bool): seq<string>
    requires |names| == |types| > 0
  {
    if |names| > 1 then [","] + ListWords(names[1..], types[1..], index, comma) else Opening(index, comma)
  }

  lemma ListSplit(names: seq<string>, types: seq<string>, index: bool, comma: bool)
    requires |names| == |types| > 0
    ensures ListWords(names, types, index, comma) == [names[0]] + ([types[0]] + Behind1(names, types, index, comma))
  {
    if |names| > 1 {
      var more, o := FieldWords(names[1..], types[1..]), Opening(index, comma);
      assert ([names[0]] + ([types[0]] + ([","] + more))) + o == [names[0]] + ([types[0]] + ([","] + (more + o)));
    }
  }

  lemma OpeningIs(ts: Tokens, comma: bool, rest: Tokens)
    ensures Reads(ts, Opening(true, comma), rest) <==>
      if comma then Starts(ts, ",") && Starts(Rest(ts), "(") && rest == Rest(Rest(ts)) else Starts(ts, "(") && rest == Rest(ts)
  {
    One(ts, "(", rest);
    First(ts, ",", ["("], rest);
    One(Rest(ts), "(", rest);
  }

  lemma NoFields(index: bool, comma: bool)
    ensures ListWords([], [], index, comma) == Opening(index, comma)
  {
  }

  lemma {:induction false} FieldsParsed(ts: Tokens, names: seq<string>, types: seq<string>, index: bool, rest: Tokens)
    returns (comma: bool)
    requires FieldList(ts) == Ok((names, types, index, rest))
    ensures FieldsFit(names, types, index, comma) && Reads(ts, ListWords(names, types, index, comma), rest)
    ensures !index ==> Starts(rest, "")
    decreases Size(ts)
  {
    if Starts(ts, "(") {
      comma := false;
      NoFields(true, false);
      OpeningIs(ts, false, rest);
    } else if Starts(Rest(Rest(ts)), ",") {
      var mid := Rest(Rest(ts));
      FieldTaken(ts, names, types, index, rest);
      var comma1 := FieldsParsed(Rest(mid), names[1..], types[1..], index, rest);
      comma := comma1 || |names| == 1;
      MoreFit(names, types, index, comma1);
      CommaThere(mid, names, types, index, comma1, rest);
      FieldStep(ts, names[0], types[0], Behind1(names, types, index, comma), rest);
      ListSplit(names, types, index, comma);
    } else {
      comma := false;
      LastFieldParsed(ts, names, types, index, rest);
    }
  }

  /** A field with a comma behind it. */
  lemma FieldTaken(ts: Tokens, names: seq<string>, types: seq<string>, index: bool, rest: Tokens)
    requires FieldList(ts) == Ok((names, types, index, rest)) && !Starts(ts, "(") && Starts(Rest(Rest(ts)), ",")
    ensures |names| > 0 && |types| > 0 && Nameable(names[0]) && types[0] in TYPES
    ensures Starts(ts, names[0]) && Starts(Rest(ts), types[0]) && Size(Rest(Rest(Rest(ts)))) < Size(ts)
    ensures FieldList(Rest(Rest(Rest(ts)))) == Ok((names[1..], types[1..], index, rest))
  {
    NameIff(names[0]);
    var (names1, types1, _, _) := FieldList(Rest(Rest(Rest(ts)))).v;
    assert names == [names[0]] + names1 && types == [types[0]] + types1;
    assert names[1..] == names1 && types[1..] == types1;
  }

  lemma MoreFit(names: seq<string>, types: seq<string>, index: bool, comma1: bool)
    requires names != [] && types != [] && Nameable(names[0]) && types[0] in TYPES
    requires FieldsFit(names[1..], types[1..], index, comma1)
    ensures FieldsFit(names, types, index, comma1 || |names| == 1)
  {
    assert names == [names[0]] + names[1..] && types == [types[0]] + types[1..];
  }

  /** The last field, with or without the parenthesis of an index list behind it. */
  lemma LastFieldParsed(ts: Tokens, names: seq<string>, types: seq<string>, index: bool, rest: Tokens)
    requires FieldList(ts) == Ok((names, types, index, rest)) && !Starts(ts, "(") && !Starts(Rest(Rest(ts)), ",")
    ensures FieldsFit(names, types, index, false) && Reads(ts, ListWords(names, types, index, false), rest)
    ensures !index ==> Starts(rest, "")
  {
    NameIff(names[0]);
    OpeningIs(Rest(Rest(ts)), false, rest);
    FieldStep(ts, names[0], types[0], Behind1(names, types, index, false), rest);
    ListSplit(names, types, index, false);
  }

  /** A comma behind a field, and the rest of the list. */
  lemma CommaThere(mid: Tokens, names: seq<string>, types: seq<string>, index: bool, comma1: bool, rest: Tokens)
    requires Starts(mid, ",") && |names| == |types| > 0 && FieldsFit(names[1..], types[1..], index, comma1)
    requires Reads(Rest(mid), ListWords(names[1..], types[1..], index, comma1), rest)
    ensures Reads(mid, Behind1(names, types, index, comma1 || |names| == 1), rest)
  {
    First(mid, ",", ListWords(names[1..], types[1..], index, comma1), rest);
    if |names| == 1 {
      NoFields(index, comma1);
      OpeningIs(Rest(mid), false, rest);
      OpeningIs(mid, true, rest);
    }
  }

  lemma {:induction false} FieldsAccepted(ts: Tokens, names: seq<string>, types: seq<string>, index: bool, comma: bool, rest: Tokens)
    requires FieldsFit(names, types, index, comma) && Reads(ts, ListWords(names, types, index, comma), rest)
    requires !index ==> Starts(rest, "")
    ensures FieldList(ts) == Ok((names, types, index, rest))
    decreases |names|
  {
    if names == [] {
      NoFields(index, comma);
      OpeningIs(ts, comma, rest);
    } else {
      var mid := Rest(Rest(ts));
      ListSplit(names, types, index, comma);
      FieldStep(ts, names[0], types[0], Behind1(names, types, index, comma), rest);
      NameIff(names[0]);
      assert [names[0]] + names[1..] == names && [types[0]] + types[1..] == types;
      if |names| > 1 {
        First(mid, ",", ListWords(names[1..], types[1..], index, comma), rest);
        FieldsAccepted(Rest(mid), names[1..], types[1..], index, comma, rest);
      } else {
        LastFieldAccepted(ts, names[0], types[0], index, comma, rest);
        assert names == [names[0]] && types == [types[0]];
      }
    }
  }

  lemma LastFieldAccepted(ts: Tokens, name: string, ftype: string, index: bool, comma: bool, rest: Tokens)
    requires Nameable(name) && ftype in TYPES && Starts(ts, name) && Starts(Rest(ts), ftype)
    requires Reads(Rest(Rest(ts)), Opening(index, comma), rest) && (!index ==> Starts(rest, ""))
    ensures FieldList(ts) == Ok(([name], [ftype], index, rest))
  {
    var mid := Rest(Rest(ts));
    NameIff(name);
    if index {
      OpeningIs(mid, comma, rest);
    }
    if index && comma {
      assert FieldList(Rest(mid)) == Ok(([], [], true, rest));
      assert [name] + [] == [name] && [ftype] + [] == [ftype];
    }
  }

  /* ----- what is read ----- */

  lemma ItemIff(ts: Tokens, i: Item, rest: Tokens)
    ensures ReadItem(ts) == Ok((i, rest)) <==> ItemFits(i) && Reads(ts, ItemWords(i), rest)
  {
    match i {
      case Field(n) =>
        One(ts, n, rest);
        NameIff(n);
      case Agg(a) =>
        First(ts, a.func, ["("] + ([a.field] + [")"]), rest);
        First(Rest(ts), "(", [a.field] + [")"], rest);
        First(Rest(Rest(ts)), a.field, [")"], rest);
        One(Rest(Rest(Rest(ts))), ")", rest);
        NameIff(a.field);
    }
  }

  lemma {:induction false} ItemsParsed(ts: Tokens, items: seq<Item>, rest: Tokens)
    requires ItemList(ts) == Ok((items, rest))
    ensures items != [] && (forall i :: 0 <= i < |items| ==> ItemFits(items[i]))
    ensures Reads(ts, ItemsWords(items), rest) && Head(rest).Token? && !Starts(rest, ",")
    decreases Size(ts)
  {
    var (item, mid) := ReadItem(ts).v;
    ItemIff(ts, item, mid);
    if Starts(mid, ",") {
      var more := ItemList(Rest(mid)).v.0;
      ItemsParsed(Rest(mid), more, rest);
      assert items[0] == item && items[1..] == more;
      First(mid, ",", ItemsWords(more), rest);
      Joined(ts, ItemWords(item), mid, [","] + ItemsWords(more), rest);
    } else {
      assert ItemWords(item) + [] == ItemWords(item);
    }
  }

  lemma {:induction false} ItemsAccepted(ts: Tokens, items: seq<Item>, rest: Tokens)
    requires items != [] && (forall i :: 0 <= i < |items| ==> ItemFits(items[i]))
    requires Reads(ts, ItemsWords(items), rest) && Head(rest).Token? && !Starts(rest, ",")
    ensures ItemList(ts) == Ok((items, rest))
    decreases |items|
  {
    var tail := if |items| == 1 then [] else [","] + ItemsWords(items[1..]);
    var mid := Behind(ts, |ItemWords(items[0])|);
    Join(ts, ItemWords(items[0]), tail, rest);
    ItemIff(ts, items[0], mid);
    if |items| == 1 {
      assert items == [items[0]];
    } else {
      First(mid, ",", ItemsWords(items[1..]), rest);
      ItemsAccepted(Rest(mid), items[1..], rest);
      assert items == [items[0]] + items[1..];
    }
  }

  /* ----- the clauses of a read statement ----- */

  lemma OrderWordsAre(ts: Tokens, orderBy: string, dir: string, rest: Tokens)
    ensures Reads(ts, OrderWords(orderBy, Some(dir)), rest) <==>
      && Starts(ts, "order") && Starts(Rest(ts), "by") && Starts(Rest(Rest(ts)), orderBy)
      && var mid := Rest(Rest(Rest(ts)));
      if dir == "" then rest == mid else Starts(mid, dir) && rest == Rest(mid)
  {
    var tail := if dir == "" then [] else [dir];
    First(ts, "order", ["by"] + ([orderBy] + tail), rest);
    First(Rest(ts), "by", [orderBy] + tail, rest);
    First(Rest(Rest(ts)), orderBy, tail, rest);
    One(Rest(Rest(Rest(ts))), dir, rest);
  }

  lemma OrderParsed(ts: Tokens, orderBy: string, desc: bool, rest: Tokens) returns (order: Option<string>)
    requires OrderClause(ts) == Ok((orderBy, desc, rest))
    ensures OrderFits(orderBy, desc, order) && Reads(ts, OrderWords(orderBy, order), rest)
  {
    if !Starts(ts, "order") {
      order := None;
    } else {
      var mid := Rest(Rest(Rest(ts)));
      var dir := if Starts(mid, "desc") then "desc" else if Starts(mid, "asc") then "asc" else "";
      order := Some(dir);
      NameIff(orderBy);
      OrderWordsAre(ts, orderBy, dir, rest);
    }
  }

  /** What may follow an ORDER BY clause, or its absence. */
  predicate OrderMayEnd(order: Option<string>, rest: Tokens) {
    && Head(rest).Token?
    && (order.None? ==> !Starts(rest, "order"))
    && (order == Some("") ==> !Starts(rest, "desc") && !Starts(rest, "asc"))
  }

  lemma OrderAccepted(ts: Tokens, orderBy: string, desc: bool, order: Option<string>, rest: Tokens)
    requires OrderFits(orderBy, desc, order) && Reads(ts, OrderWords(orderBy, order), rest) && OrderMayEnd(order, rest)
    ensures OrderClause(ts) == Ok((orderBy, desc, rest))
  {
    if order.Some? {
      OrderWordsAre(ts, orderBy, order.value, rest);
      NameIff(orderBy);
    }
  }

  lemma LimitWordsAre(ts: Tokens, limit: string, offset: Option<string>, rest: Tokens)
    ensures Reads(ts, LimitWords(Some(limit), offset), rest) <==>
      && Starts(ts, "limit") && Starts(Rest(ts), limit)
      && var mid := Rest(Rest(ts));
      if offset.None? then rest == mid
      else Starts(mid, "offset") && Starts(Rest(mid), offset.value) && rest == Rest(Rest(mid))
  {
    var tail := if offset.None? then [] else ["offset"] + [offset.value];
    var mid := Rest(Rest(ts));
    First(ts, "limit", [limit] + tail, rest);
    First(Rest(ts), limit, tail, rest);
    if offset.Some? {
      First(mid, "offset", [offset.value], rest);
      One(Rest(mid), offset.value, rest);
    }
  }

  lemma LimitParsed(ts: Tokens, limit: int, offset: int, rest: Tokens) returns (l: Option<string>, o: Option<string>)
    requires LimitClause(ts) == Ok((limit, offset, rest))
    ensures LimitFits(limit, offset, l, o) && Reads(ts, LimitWords(l, o), rest)
    ensures l.None? ==> Head(rest).Token?
  {
    l, o := None, None;
    if Starts(ts, "limit") {
      var mid := Rest(Rest(ts));
      l := Some(Head(Rest(ts)).t);
      NumberIff(l.value, limit);
      if Starts(mid, "offset") {
        o := Some(Head(Rest(mid)).t);
        NumberIff(o.value, offset);
      }
      LimitWordsAre(ts, l.value, o, rest);
    }
  }

  /** What may follow a LIMIT clause, or its absence. */
  predicate LimitMayEnd(l: Option<string>, o: Option<string>, rest: Tokens) {
    && (l.None? ==> Head(rest).Token? && !Starts(rest, "limit"))
    && (o.None? ==> !Starts(rest, "offset"))
  }

  lemma LimitAccepted(ts: Tokens, limit: int, offset: int, l: Option<string>, o: Option<string>, rest: Tokens)
    requires LimitFits(limit, offset, l, o) && Reads(ts, LimitWords(l, o), rest) && LimitMayEnd(l, o, rest)
    ensures LimitClause(ts) == Ok((limit, offset, rest))
  {
    if l.Some? {
      LimitWordsAre(ts, l.value, o, rest);
      NumberIff(l.value, limit);
      if o.Some? {
        NumberIff(o.value, offset);
      }
    }
  }

  /* ----- the statements ----- */

  /** What the sentence has behind its first word. */
  predicate ReadsBody(word: string, ts: Tokens, s: Statement, f: Form, rest: Tokens) {
    Fits(s, f) && Reads(Tok(word, ts), Words(s, f), rest) && (Head(rest).Token? || (s.Read? && f.limit.Some?))
  }

  lemma TableWords(ts: Tokens, a: string, table: string, more: seq<string>, rest: Tokens)
    ensures Reads(ts, [a] + ([table] + more), rest) <==>
      Starts(ts, a) && Starts(Rest(ts), table) && Reads(Rest(Rest(ts)), more, rest)
  {
    First(ts, a, [table] + more, rest);
    First(Rest(ts), table, more, rest);
  }

  lemma LevelWords(ts: Tokens, a: string, b: string, rest: Tokens)
    ensures Reads(ts, ["isolation"] + (["level"] + ([a] + [b])), rest) <==>
      && Starts(ts, "isolation") && Starts(Rest(ts), "level")
      && Starts(Rest(Rest(ts)), a) && Starts(Rest(Rest(Rest(ts))), b) && rest == Rest(Rest(Rest(Rest(ts))))
  {
    TableWords(ts, "isolation", "level", [a] + [b], rest);
    First(Rest(Rest(ts)), a, [b], rest);
    One(Rest(Rest(Rest(ts))), b, rest);
  }

  lemma BeginParsed(ts: Tokens, s: Statement, rest: Tokens) returns (f: Form)
    requires ParseBegin(ts) == Ok((s, rest))
    ensures ReadsBody("begin", ts, s, f, rest) && Starts(rest, "")
  {
    f := FORM.(level := !Starts(ts, ""));
    LevelWords(ts, "read", "committed", rest);
    LevelWords(ts, "repeatable", "read", rest);
    First(Tok("begin", ts), "begin", Words(s, f)[1..], rest);
    assert Words(s, f) == ["begin"] + Words(s, f)[1..];
  }

  lemma BeginAccepted(ts: Tokens, s: Statement, f: Form, rest: Tokens)
    requires s.Begin? && ReadsBody("begin", ts, s, f, rest) && Starts(rest, "")
    ensures ParseBegin(ts) == Ok((s, rest))
  {
    LevelWords(ts, "read", "committed", rest);
    LevelWords(ts, "repeatable", "read", rest);
    First(Tok("begin", ts), "begin", Words(s, f)[1..], rest);
    assert Words(s, f) == ["begin"] + Words(s, f)[1..];
  }

  lemma DropIff(ts: Tokens, table: string, rest: Tokens)
    ensures ParseDrop(ts) == Ok((Drop(table), rest)) <==>
      ReadsBody("drop", ts, Drop(table), FORM, rest) && Starts(rest, "")
  {
    First(Tok("drop", ts), "drop", ["table"] + [table], rest);
    First(ts, "table", [table], rest);
    TakesName(Rest(ts), table, rest);
    One(Rest(ts), table, rest);
  }

  lemma CreateWordsAre(ts: Tokens, s: Statement, f: Form, rest: Tokens)
    requires s.Create? && Fits(s, f)
    ensures var a := ListWords(s.names, s.types, f.index, f.comma);
      var mid := Behind(Rest(Rest(ts)), |a|);
      Reads(Tok("create", ts), Words(s, f), rest) <==>
      && Starts(ts, "table") && Starts(Rest(ts), s.table) && Reads(Rest(Rest(ts)), a, mid)
      && if f.index then Starts(mid, "index") && Reads(Rest(mid), s.index + [")"], rest) else rest == mid
  {
    var a := ListWords(s.names, s.types, f.index, f.comma);
    var b := if f.index then ["index"] + (s.index + [")"]) else [];
    First(Tok("create", ts), "create", ["table"] + ([s.table] + (a + b)), rest);
    TableWords(ts, "table", s.table, a + b, rest);
    Join(Rest(Rest(ts)), a, b, rest);
    First(Behind(Rest(Rest(ts)), |a|), "index", s.index + [")"], rest);
  }

  lemma CreateParsed(ts: Tokens, s: Statement, rest: Tokens) returns (f: Form)
    requires ParseCreate(ts) == Ok((s, rest))
    ensures ReadsBody("create", ts, s, f, rest) && Starts(rest, "")
  {
    var index, mid := CreateTaken(ts, s, rest);
    var comma := FieldsParsed(Rest(Rest(ts)), s.names, s.types, index, mid);
    f := FORM.(index := index, comma := comma);
    if index {
      IndexIff(Rest(mid), s.index, rest);
    }
    Reached(Rest(Rest(ts)), ListWords(s.names, s.types, index, comma), mid);
    CreateWordsAre(ts, s, f, rest);
  }

  lemma CreateTaken(ts: Tokens, s: Statement, rest: Tokens) returns (index: bool, mid: Tokens)
    requires ParseCreate(ts) == Ok((s, rest))
    ensures s.Create? && Starts(ts, "table") && Starts(Rest(ts), s.table) && Nameable(s.table)
    ensures FieldList(Rest(Rest(ts))) == Ok((s.names, s.types, index, mid))
    ensures if index then Starts(mid, "index") && IndexList(Rest(mid)) == Ok((s.index, rest)) && Starts(rest, "")
            else s.index == [] && rest == mid
  {
    NameIff(s.table);
    var r := FieldList(Rest(Rest(ts)));
    index, mid := r.v.2, r.v.3;
  }

  lemma CreateAccepted(ts: Tokens, s: Statement, f: Form, rest: Tokens)
    requires s.Create? && ReadsBody("create", ts, s, f, rest) && Starts(rest, "")
    ensures ParseCreate(ts) == Ok((s, rest))
  {
    var ts2 := Rest(Rest(ts));
    var mid := Behind(ts2, |ListWords(s.names, s.types, f.index, f.comma)|);
    CreateWordsAre(ts, s, f, rest);
    NameIff(s.table);
    FieldsAccepted(ts2, s.names, s.types, f.index, f.comma, mid);
    if f.index {
      IndexIff(Rest(mid), s.index, rest);
    }
  }

  lemma InsertWordsAre(ts: Tokens, s: Statement, f: Form, rest: Tokens)
    requires s.Insert? && Fits(s, f)
    ensures var body := Rest(Rest(Rest(ts)));
      Reads(Tok("insert", ts), Words(s, f), rest) <==>
      && Starts(ts, "into") && Starts(Rest(ts), s.table) && Starts(Rest(Rest(ts)), "values")
      && if s.rows == [] then Reads(body, s.values, rest) else Starts(body, "{") && Reads(Rest(body), InRows(f.rows), rest)
  {
    var b := if s.rows == [] then s.values else RowsWords(f.rows);
    First(Tok("insert", ts), "insert", ["into"] + ([s.table] + (["values"] + b)), rest);
    TableWords(ts, "into", s.table, ["values"] + b, rest);
    First(Rest(Rest(ts)), "values", b, rest);
    if s.rows != [] {
      First(Rest(Rest(Rest(ts))), "{", InRows(f.rows), rest);
    }
  }

  lemma InsertTaken(ts: Tokens, s: Statement, rest: Tokens)
    requires ParseInsert(ts) == Ok((s, rest))
    ensures s.Insert? && Starts(ts, "into") && Starts(Rest(ts), s.table) && Starts(Rest(Rest(ts)), "values")
    ensures Nameable(s.table)
    ensures var body := Rest(Rest(Rest(ts)));
      if Starts(body, "{") then s.values == [] && RowList(Rest(body)) == Ok((s.rows, rest))
      else !Starts(body, "") && s.rows == [] && ValueList(body) == Ok((s.values, rest))
  {
    NameIff(s.table);
  }

  lemma InsertParsed(ts: Tokens, s: Statement, rest: Tokens) returns (f: Form)
    requires ParseInsert(ts) == Ok((s, rest))
    ensures ReadsBody("insert", ts, s, f, rest) && Starts(rest, "")
  {
    var body := Rest(Rest(Rest(ts)));
    f := FORM;
    InsertTaken(ts, s, rest);
    if Starts(body, "{") {
      var wss := RowsParsed(Rest(body), s.rows, rest);
      f := FORM.(rows := wss);
    } else {
      ValuesIff(body, s.values, rest);
      ValuesStart(body, s.values, rest);
    }
    InsertWordsAre(ts, s, f, rest);
  }

  lemma ValuesStart(ts: Tokens, vs: seq<string>, rest: Tokens)
    requires ValueList(ts) == Ok((vs, rest)) && !Starts(ts, "")
    ensures vs != [] && Starts(ts, vs[0])
  {
  }

  lemma InsertAccepted(ts: Tokens, s: Statement, f: Form, rest: Tokens)
    requires s.Insert? && ReadsBody("insert", ts, s, f, rest) && Starts(rest, "")
    ensures ParseInsert(ts) == Ok((s, rest))
  {
    var body := Rest(Rest(Rest(ts)));
    InsertWordsAre(ts, s, f, rest);
    NameIff(s.table);
    if s.rows == [] {
      ValuesIff(body, s.values, rest);
      assert s.values == [s.values[0]] + s.values[1..];
      First(body, s.values[0], s.values[1..], rest);
    } else {
      RowsAccepted(Rest(body), f.rows, s.rows, rest);
    }
  }

  lemma DeleteTaken(ts: Tokens, s: Statement, rest: Tokens)
    requires ParseDelete(ts) == Ok((s, rest))
    ensures s.Delete? && Starts(ts, "from") && Starts(Rest(ts), s.table) && Nameable(s.table)
    ensures Condition(Rest(Rest(ts))) == Ok((s.only, rest))
  {
    NameIff(s.table);
  }

  lemma DeleteParsed(ts: Tokens, s: Statement, rest: Tokens) returns (f: Form)
    requires ParseDelete(ts) == Ok((s, rest))
    ensures ReadsBody("delete", ts, s, f, rest)
  {
    DeleteTaken(ts, s, rest);
    var split1, split2 := WhereParsed(Rest(Rest(ts)), s.only, rest);
    f := FORM.(split1 := split1, split2 := split2);
    var ws := WhereWords(s.only, split1, split2);
    TableWords(ts, "from", s.table, ws, rest);
    First(Tok("delete", ts), "delete", ["from"] + ([s.table] + ws), rest);
  }

  lemma DeleteAccepted(ts: Tokens, s: Statement, f: Form, rest: Tokens)
    requires s.Delete? && ReadsBody("delete", ts, s, f, rest) && Starts(rest, "")
    ensures ParseDelete(ts) == Ok((s, rest))
  {
    var ws := WhereWords(s.only, f.split1, f.split2);
    First(Tok("delete", ts), "delete", ["from"] + ([s.table] + ws), rest);
    TableWords(ts, "from", s.table, ws, rest);
    NameIff(s.table);
    WhereAccepted(Rest(Rest(ts)), s.only, f.split1, f.split2, rest);
  }

  lemma UpdateWordsAre(ts: Tokens, s: Statement, f: Form, rest: Tokens)
    requires s.Update? && Fits(s, f)
    ensures Reads(Tok("update", ts), Words(s, f), rest) <==>
      && Starts(ts, s.table) && Starts(Rest(ts), "set") && Starts(Rest(Rest(ts)), s.field)
      && Starts(Rest(Rest(Rest(ts))), "=") && Starts(Rest(Rest(Rest(Rest(ts)))), s.value)
      && Reads(Rest(Rest(Rest(Rest(Rest(ts))))), MaybeWords(s.cond, f), rest)
  {
    var b := MaybeWords(s.cond, f);
    First(Tok("update", ts), "update", [s.table] + (["set"] + ([s.field] + (["="] + ([s.value] + b)))), rest);
    TableWords(ts, s.table, "set", [s.field] + (["="] + ([s.value] + b)), rest);
    TableWords(Rest(Rest(ts)), s.field, "=", [s.value] + b, rest);
    First(Rest(Rest(Rest(Rest(ts)))), s.value, b, rest);
  }

  lemma UpdateParsed(ts: Tokens, s: Statement, rest: Tokens) returns (f: Form)
    requires ParseUpdate(ts) == Ok((s, rest))
    ensures ReadsBody("update", ts, s, f, rest)
  {
    f := FORM;
    UpdateTaken(ts, s, rest);
    if s.cond.Some? {
      var split1, split2 := WhereParsed(Rest(Rest(Rest(Rest(Rest(ts))))), s.cond.value, rest);
      f := FORM.(split1 := split1, split2 := split2);
    }
    UpdateWordsAre(ts, s, f, rest);
  }

  lemma UpdateTaken(ts: Tokens, s: Statement, rest: Tokens)
    requires ParseUpdate(ts) == Ok((s, rest))
    ensures s.Update? && Starts(ts, s.table) && Starts(Rest(ts), "set") && Starts(Rest(Rest(ts)), s.field)
    ensures Starts(Rest(Rest(Rest(ts))), "=") && Starts(Rest(Rest(Rest(Rest(ts)))), s.value)
    ensures var body := Rest(Rest(Rest(Rest(Rest(ts)))));
      if s.cond.Some? then Condition(body) == Ok((s.cond.value, rest)) else body == rest && Starts(rest, "")
  {
  }

  lemma UpdateAccepted(ts: Tokens, s: Statement, f: Form, rest: Tokens)
    requires s.Update? && ReadsBody("update", ts, s, f, rest) && Starts(rest, "")
    ensures ParseUpdate(ts) == Ok((s, rest))
  {
    UpdateWordsAre(ts, s, f, rest);
    var body := Rest(Rest(Rest(Rest(Rest(ts)))));
    if s.cond.Some? {
      WhereStarts(body, s.cond.value, f.split1, f.split2, rest);
      WhereAccepted(body, s.cond.value, f.split1, f.split2, rest);
    }
  }

  lemma WhereStarts(ts: Tokens, w: Where, split1: bool, split2: bool, rest: Tokens)
    requires Reads(ts, WhereWords(w, split1, split2), rest)
    ensures Starts(ts, "where")
  {
    WhereWordsAre(ts, w, split1, split2, rest);
  }

  /* ----- read statements ----- */

  function ReadWord(f: Form): string {
    if f.select then "select" else "read"
  }

  /** The places in the tokens where the parts of a read statement begin, behind its first word. */
  datatype Parts = Parts(from: Tokens, cond: Tokens, order: Tokens, limit: Tokens)

  function PartsOf(ts: Tokens, s: Statement, f: Form): Parts
    requires s.Read?
  {
    var from := Behind(ts, |ItemsWords(f.items)|);
    var cond := Rest(Rest(from));
    var order := Behind(cond, |MaybeWords(s.cond, f)|);
    Parts(from, cond, order, Behind(order, |OrderWords(s.orderBy, f.order)|))
  }

  /** The parts of a read statement are read one after the other. */
  predicate ReadsParts(ts: Tokens, s: Statement, f: Form, p: Parts, rest: Tokens)
    requires s.Read?
  {
    && Reads(ts, ItemsWords(f.items), p.from) && Starts(p.from, "from") && Starts(Rest(p.from), s.table)
    && p.cond == Rest(Rest(p.from)) && Reads(p.cond, MaybeWords(s.cond, f), p.order)
    && Reads(p.order, OrderWords(s.orderBy, f.order), p.limit)
    && Reads(p.limit, LimitWords(f.limit, f.offset), rest)
  }

  lemma PartsAre(ts: Tokens, s: Statement, f: Form, p: Parts, rest: Tokens)
    requires s.Read? && ReadsParts(ts, s, f, p, rest)
    ensures p == PartsOf(ts, s, f)
  {
    Reached(ts, ItemsWords(f.items), p.from);
    Reached(p.cond, MaybeWords(s.cond, f), p.order);
    Reached(p.order, OrderWords(s.orderBy, f.order), p.limit);
  }

  lemma ReadWordsAre(ts: Tokens, s: Statement, f: Form, rest: Tokens)
    requires s.Read? && Fits(s, f)
    ensures Reads(Tok(ReadWord(f), ts), Words(s, f), rest) <==> ReadsParts(ts, s, f, PartsOf(ts, s, f), rest)
  {
    var p := PartsOf(ts, s, f);
    var l := LimitWords(f.limit, f.offset);
    var o := OrderWords(s.orderBy, f.order);
    var c := MaybeWords(s.cond, f);
    First(Tok(ReadWord(f), ts), ReadWord(f), ItemsWords(f.items) + (["from"] + ([s.table] + (c + (o + l)))), rest);
    Join(ts, ItemsWords(f.items), ["from"] + ([s.table] + (c + (o + l))), rest);
    TableWords(p.from, "from", s.table, c + (o + l), rest);
    Join(p.cond, c, o + l, rest);
    Join(p.order, o, l, rest);
  }

  /** The fields and aggregates, or the star for all fields. */
  function ItemsOrStar(ts: Tokens): Outcome<(seq<Item>, Tokens)> {
    if Starts(ts, "*") then Ok(([Field("*")], Rest(ts))) else ItemList(ts)
  }

  lemma StarWords(ts: Tokens, rest: Tokens)
    ensures Reads(ts, ItemsWords([Field("*")]), rest) <==> Starts(ts, "*") && rest == Rest(ts)
  {
    One(ts, "*", rest);
    assert ItemsWords([Field("*")]) == ["*"] + [] == ["*"];
  }

  lemma ItemsOrStarParsed(ts: Tokens, items: seq<Item>, rest: Tokens)
    requires ItemsOrStar(ts) == Ok((items, rest))
    ensures ItemsFit(items) && Reads(ts, ItemsWords(items), rest)
  {
    if Starts(ts, "*") {
      StarWords(ts, rest);
    } else {
      ItemsParsed(ts, items, rest);
    }
  }

  lemma ItemsOrStarAccepted(ts: Tokens, items: seq<Item>, rest: Tokens)
    requires ItemsFit(items) && Reads(ts, ItemsWords(items), rest) && Starts(rest, "from")
    ensures ItemsOrStar(ts) == Ok((items, rest))
  {
    if items == [Field("*")] {
      StarWords(ts, rest);
    } else {
      NoStar(ts, items, rest);
      ItemsAccepted(ts, items, rest);
    }
  }

  lemma NoStar(ts: Tokens, items: seq<Item>, rest: Tokens)
    requires items != [] && ItemFits(items[0]) && Reads(ts, ItemsWords(items), rest)
    ensures !Starts(ts, "*")
  {
    var tail := if |items| == 1 then [] else [","] + ItemsWords(items[1..]);
    var mid := Behind(ts, |ItemWords(items[0])|);
    Join(ts, ItemWords(items[0]), tail, rest);
    ItemIff(ts, items[0], mid);
    assert !IsName("*");
  }

  /** The clauses of a read statement behind its table. */
  predicate ClausesFit(cond: Option<Where>, orderBy: string, desc: bool, limit: int, offset: int, f: Form) {
    && (cond.Some? ==> WhereFits(cond.value))
    && OrderFits(orderBy, desc, f.order) && LimitFits(limit, offset, f.limit, f.offset)
    && (cond.Some? && cond.value.exp2.Some? ==> f.order.None? && f.limit.None?)
  }

  predicate ReadsClauses(s: Statement, f: Form, p: Parts, rest: Tokens)
    requires s.Read?
  {
    && Reads(p.cond, MaybeWords(s.cond, f), p.order)
    && Reads(p.order, OrderWords(s.orderBy, f.order), p.limit)
    && Reads(p.limit, LimitWords(f.limit, f.offset), rest)
  }

  lemma ClausesParsed(s: Statement, items: seq<Item>, ts: Tokens, rest: Tokens) returns (f: Form, p: Parts)
    requires s.Read? && Selected(s.table, items, ts) == Ok((s, rest))
    ensures ClausesFit(s.cond, s.orderBy, s.desc, s.limit, s.offset, f) && p.cond == ts && ReadsClauses(s, f, p, rest)
    ensures Head(rest).Token? || f.limit.Some?
  {
    f, p := FORM, Parts(ts, ts, ts, ts);
    if !Starts(ts, "") {
      var order, limit := SelectedTaken(s, items, ts, rest);
      var split1, split2 := MaybeParsed(ts, s.cond, order);
      var dir := OrderParsed(order, s.orderBy, s.desc, limit);
      var l, o := LimitParsed(limit, s.limit, s.offset, rest);
      f := FORM.(split1 := split1, split2 := split2, order := dir, limit := l, offset := o);
      p := Parts(ts, ts, order, limit);
      if s.cond.Some? && s.cond.value.exp2.Some? {
        TwoConditionsEnd(ts, s.cond.value, order);
        NothingMore(order, s.orderBy, dir, limit, l, o, rest);
      }
    }
  }

  lemma SelectedTaken(s: Statement, items: seq<Item>, ts: Tokens, rest: Tokens) returns (order: Tokens, limit: Tokens)
    requires s.Read? && Selected(s.table, items, ts) == Ok((s, rest)) && !Starts(ts, "")
    ensures Head(ts).Token? && OptionalCondition(ts, Head(ts).t) == Ok((s.cond, order))
    ensures OrderClause(order) == Ok((s.orderBy, s.desc, limit)) && LimitClause(limit) == Ok((s.limit, s.offset, rest))
    ensures s.cond.Some? ==> Condition(ts) == Ok((s.cond.value, order))
  {
    var c := OptionalCondition(ts, Head(ts).t);
    var o := OrderClause(c.v.1);
    var l := LimitClause(o.v.2);
    order, limit := c.v.1, o.v.2;
    if s.cond.Some? {
      OptionalIs(ts, s.cond, order);
    }
  }

  lemma OptionalIs(ts: Tokens, cond: Option<Where>, order: Tokens)
    requires Head(ts).Token? && OptionalCondition(ts, Head(ts).t) == Ok((cond, order)) && cond.Some?
    ensures Condition(ts) == Ok((cond.value, order))
  {
  }

  lemma TwoConditionsEnd(ts: Tokens, w: Where, rest: Tokens)
    requires Condition(ts) == Ok((w, rest)) && w.exp2.Some?
    ensures Starts(rest, "")
  {
  }

  /** At the end there are no clauses. */
  lemma NothingMore(order: Tokens, orderBy: string, dir: Option<string>, limit: Tokens, l: Option<string>, o: Option<string>, rest: Tokens)
    requires Starts(order, "") && Reads(order, OrderWords(orderBy, dir), limit) && Reads(limit, LimitWords(l, o), rest)
    ensures dir.None? && l.None?
  {
    if dir.Some? {
      OrderWordsAre(order, orderBy, dir.value, limit);
    } else if l.Some? {
      LimitWordsAre(limit, l.value, o, rest);
    }
  }

  lemma MaybeParsed(ts: Tokens, cond: Option<Where>, rest: Tokens) returns (split1: bool, split2: bool)
    requires Head(ts).Token? && OptionalCondition(ts, Head(ts).t) == Ok((cond, rest))
    ensures cond.Some? ==> WhereFits(cond.value)
    ensures Reads(ts, MaybeWords(cond, FORM.(split1 := split1, split2 := split2)), rest)
  {
    split1, split2 := false, false;
    if cond.Some? {
      split1, split2 := WhereParsed(ts, cond.value, rest);
    }
  }

  /** What stands where a clause begins: the clause's first word, or whatever stands behind the clause. */
  lemma ClauseStarts(s: Statement, f: Form, p: Parts, rest: Tokens)
    requires s.Read? && ReadsClauses(s, f, p, rest)
    ensures if f.limit.Some? then Starts(p.limit, "limit") else p.limit == rest
    ensures if f.order.Some? then Starts(p.order, "order") else p.order == p.limit
    ensures if s.cond.Some? then Starts(p.cond, "where") else p.cond == p.order
  {
    if f.limit.Some? {
      LimitWordsAre(p.limit, f.limit.value, f.offset, rest);
    }
    if f.order.Some? {
      OrderWordsAre(p.order, s.orderBy, f.order.value, p.limit);
    }
    if s.cond.Some? {
      WhereStarts(p.cond, s.cond.value, f.split1, f.split2, p.order);
    }
  }

  lemma ClausesAccepted(s: Statement, f: Form, p: Parts, items: seq<Item>, rest: Tokens)
    requires s.Read? && ClausesFit(s.cond, s.orderBy, s.desc, s.limit, s.offset, f) && ReadsClauses(s, f, p, rest)
    requires s.fields == FieldsOf(items) && s.aggs == AggsOf(items) && StopsAt(s, f, rest)
    ensures Selected(s.table, items, p.cond) == Ok((s, rest))
  {
    ClauseStarts(s, f, p, rest);
    LimitAccepted(p.limit, s.limit, s.offset, f.limit, f.offset, rest);
    OrderAccepted(p.order, s.orderBy, s.desc, f.order, p.limit);
    if s.cond.Some? {
      WhereAccepted(p.cond, s.cond.value, f.split1, f.split2, p.order);
    }
  }

  lemma ReadHead(ts: Tokens)
    requires ParseRead(ts).Ok?
    ensures ItemsOrStar(ts).Ok? && Starts(ItemsOrStar(ts).v.1, "from") && Name(Rest(ItemsOrStar(ts).v.1)).Ok?
  {
  }

  lemma ReadTail(ts: Tokens, items: seq<Item>, from: Tokens, table: string)
    requires ItemsOrStar(ts) == Ok((items, from)) && Starts(from, "from") && Name(Rest(from)) == Ok((table, Rest(Rest(from))))
    ensures ParseRead(ts) == Selected(table, items, Rest(Rest(from)))
  {
  }

  lemma ReadTaken(ts: Tokens, s: Statement, rest: Tokens) returns (items: seq<Item>, from: Tokens)
    requires ParseRead(ts) == Ok((s, rest))
    ensures s.Read? && ItemsOrStar(ts) == Ok((items, from)) && Starts(from, "from")
    ensures Name(Rest(from)) == Ok((s.table, Rest(Rest(from)))) && Selected(s.table, items, Rest(Rest(from))) == Ok((s, rest))
    ensures s.fields == FieldsOf(items) && s.aggs == AggsOf(items)
  {
    ReadHead(ts);
    var r := ItemsOrStar(ts);
    items, from := r.v.0, r.v.1;
    var table := Name(Rest(from)).v.0;
    ReadTail(ts, items, from, table);
    SelectedIs(table, items, Rest(Rest(from)));
  }

  lemma SelectedIs(table: string, items: seq<Item>, ts: Tokens)
    ensures var r := Selected(table, items, ts);
      r.Ok? ==> r.v.0.Read? && r.v.0.table == table && r.v.0.fields == FieldsOf(items) && r.v.0.aggs == AggsOf(items)
  {
  }

  lemma ReadParsed(word: string, ts: Tokens, s: Statement, rest: Tokens) returns (f: Form)
    requires (word == "read" || word == "select") && ParseRead(ts) == Ok((s, rest))
    ensures ReadsBody(word, ts, s, f, rest)
  {
    var items, from := ReadTaken(ts, s, rest);
    ItemsOrStarParsed(ts, items, from);
    NameIff(s.table);
    var g, p := ClausesParsed(s, items, Rest(Rest(from)), rest);
    f := g.(select := word == "select", items := items);
    var q := p.(from := from);
    PartsAre(ts, s, f, q, rest);
    ReadWordsAre(ts, s, f, rest);
  }

  lemma ReadAccepted(word: string, ts: Tokens, s: Statement, f: Form, rest: Tokens)
    requires s.Read? && word == ReadWord(f) && ReadsBody(word, ts, s, f, rest) && StopsAt(s, f, rest)
    ensures ParseRead(ts) == Ok((s, rest))
  {
    var p := PartsOf(ts, s, f);
    ReadWordsAre(ts, s, f, rest);
    ItemsOrStarAccepted(ts, f.items, p.from);
    NameIff(s.table);
    ClausesAccepted(s, f, p, f.items, rest);
  }

  /* ----- the whole language ----- */

  lemma AloneIff(word: string, ts: Tokens, s: Statement, rest: Tokens)
    requires (word == "commit" && s == Commit) || (word == "abort" && s == Abort) || (word == "show" && s == Show)
    ensures Alone(ts, s) == Ok((s, rest)) <==> ReadsBody(word, ts, s, FORM, rest) && Starts(rest, "")
  {
    One(Tok(word, ts), word, rest);
  }

  lemma ShortParsed(word: string, ts: Tokens, s: Statement, rest: Tokens) returns (f: Form)
    requires word in {"begin", "commit", "abort", "show", "drop"} && ParseBody(word, ts) == Ok((s, rest))
    ensures ReadsBody(word, ts, s, f, rest)
  {
    f := FORM;
    if word == "begin" {
      f := BeginParsed(ts, s, rest);
    } else if word == "drop" {
      DropIff(ts, s.table, rest);
    } else {
      AloneIff(word, ts, s, rest);
    }
  }

  lemma LongParsed(word: string, ts: Tokens, s: Statement, rest: Tokens) returns (f: Form)
    requires word !in {"begin", "commit", "abort", "show", "drop"} && ParseBody(word, ts) == Ok((s, rest))
    ensures ReadsBody(word, ts, s, f, rest)
  {
    if word == "create" {
      f := CreateParsed(ts, s, rest);
    } else if word == "insert" {
      f := InsertParsed(ts, s, rest);
    } else if word == "delete" {
      f := DeleteParsed(ts, s, rest);
    } else if word == "update" {
      f := UpdateParsed(ts, s, rest);
    } else {
      f := ReadParsed(word, ts, s, rest);
    }
  }

  /** The first word of the sentences of a statement. */
  function FirstWord(s: Statement, f: Form): string {
    match s
    case Begin(_) => "begin"
    case Commit => "commit"
    case Abort => "abort"
    case Show => "show"
    case Drop(_) => "drop"
    case Create(_, _, _, _) => "create"
    case Insert(_, _, _) => "insert"
    case Read(_, _, _, _, _, _, _, _) => ReadWord(f)
    case Delete(_, _) => "delete"
    case Update(_, _, _, _) => "update"
  }

  lemma ShortAccepted(ts: Tokens, s: Statement, f: Form, rest: Tokens)
    requires s.Begin? || s.Commit? || s.Abort? || s.Show? || s.Drop?
    requires ReadsBody(FirstWord(s, f), ts, s, f, rest) && Starts(rest, "")
    ensures ParseBody(FirstWord(s, f), ts) == Ok((s, rest))
  {
    if s.Begin? {
      BeginAccepted(ts, s, f, rest);
    } else if s.Drop? {
      DropAccepted(ts, s, f, rest);
    } else {
      AloneIff(FirstWord(s, f), ts, s, rest);
    }
  }

  lemma WritersAccepted(ts: Tokens, s: Statement, f: Form, rest: Tokens)
    requires s.Create? || s.Insert?
    requires ReadsBody(if s.Create? then "create" else "insert", ts, s, f, rest) && Starts(rest, "")
    ensures (if s.Create? then ParseCreate(ts) else ParseInsert(ts)) == Ok((s, rest))
  {
    if s.Create? {
      CreateAccepted(ts, s, f, rest);
    } else {
      InsertAccepted(ts, s, f, rest);
    }
  }

  lemma ChangersAccepted(ts: Tokens, s: Statement, f: Form, rest: Tokens)
    requires s.Delete? || s.Update?
    requires ReadsBody(if s.Delete? then "delete" else "update", ts, s, f, rest) && Starts(rest, "")
    ensures (if s.Delete? then ParseDelete(ts) else ParseUpdate(ts)) == Ok((s, rest))
  {
    if s.Delete? {
      DeleteAccepted(ts, s, f, rest);
    } else {
      UpdateAccepted(ts, s, f, rest);
    }
  }

  lemma BodyAccepted(ts: Tokens, s: Statement, f: Form, rest: Tokens)
    requires ReadsBody(FirstWord(s, f), ts, s, f, rest) && StopsAt(s, f, rest)
    ensures ParseBody(FirstWord(s, f), ts) == Ok((s, rest))
  {
    if s.Read? {
      ReadAccepted(ReadWord(f), ts, s, f, rest);
      G.ReadWords(ts);
    } else if s.Create? || s.Insert? {
      WritersAccepted(ts, s, f, rest);
      G.CreateWords(ts);
    } else if s.Delete? || s.Update? {
      ChangersAccepted(ts, s, f, rest);
      G.DeleteWord(ts);
      G.UpdateWord(ts);
    } else {
      ShortAccepted(ts, s, f, rest);
    }
  }

  lemma DropAccepted(ts: Tokens, s: Statement, f: Form, rest: Tokens)
    requires s.Drop? && ReadsBody("drop", ts, s, f, rest) && Starts(rest, "")
    ensures ParseDrop(ts) == Ok((s, rest))
  {
    assert Words(s, f) == Words(s, FORM);
    DropIff(ts, s.table, rest);
  }

  lemma StartsWithFirst(s: Statement, f: Form, ts: Tokens, rest: Tokens)
    requires Fits(s, f) && Reads(ts, Words(s, f), rest)
    ensures ts.Tok? && ts.head == FirstWord(s, f)
  {
    var w, ws := FirstWord(s, f), Words(s, f);
    assert ws[0] == w;
    assert ws == [w] + ws[1..];
    First(ts, w, ws[1..], rest);
  }

  /**
   * The parser accepts a text as a statement if and only if the text begins with a sentence of the
   * statement and then ends, or stops where the parser takes it to end.
   */
  lemma ParsedIff(ts: Tokens, s: Statement)
    ensures ParseTokens(ts) == Ok(s) <==>
      exists f, rest :: Fits(s, f) && Reads(ts, Words(s, f), rest) && StopsAt(s, f, rest)
  {
    if ParseTokens(ts) == Ok(s) {
      var f, rest := SentenceOf(ts, s);
    }
    forall f, rest | Fits(s, f) && Reads(ts, Words(s, f), rest) && StopsAt(s, f, rest)
      ensures ParseTokens(ts) == Ok(s)
    {
      SentenceAccepted(ts, s, f, rest);
    }
  }

  lemma SentenceOf(ts: Tokens, s: Statement) returns (f: Form, rest: Tokens)
    requires ParseTokens(ts) == Ok(s)
    ensures Fits(s, f) && Reads(ts, Words(s, f), rest) && StopsAt(s, f, rest)
  {
    var word := Head(ts).t;
    assert ParseBody("", Rest(ts)) == Fail;
    rest := ParseBody(word, Rest(ts)).v.1;
    if word in {"begin", "commit", "abort", "show", "drop"} {
      f := ShortParsed(word, Rest(ts), s, rest);
    } else {
      f := LongParsed(word, Rest(ts), s, rest);
    }
  }

  lemma SentenceAccepted(ts: Tokens, s: Statement, f: Form, rest: Tokens)
    requires Fits(s, f) && Reads(ts, Words(s, f), rest) && StopsAt(s, f, rest)
    ensures ParseTokens(ts) == Ok(s)
  {
    StartsWithFirst(s, f, ts, rest);
    BodyAccepted(Rest(ts), s, f, rest);
  }

  lemma TextIff(text: string, s: Statement)
    ensures Parse(text) == Ok(s) <==>
      exists f, rest :: Fits(s, f) && Reads(Lex(text), Words(s, f), rest) && StopsAt(s, f, rest)
  {
    ParsedIff(Lex(text), s);
  }
}
