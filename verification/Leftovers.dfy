/** What the parser accepts without reading it all. */
module Leftovers {
  import opened Types
  import opened Lexer
  import opened Tokener
  import opened Statements
  import opened Parser
  import opened Grammar

  /** The tokens in front of which the parser of a statement stops. */
  function Left(ts: Tokens): Outcome<Tokens> {
    var (word, ts1) :- Next(ts);
    var (_, rest) :- ParseBody(word, ts1);
    Ok(rest)
  }

  /** The tokens of a read statement from its limit clause on. */
  function FromLimit(ts: Tokens): Outcome<Tokens> {
    var (word, ts1) :- Next(ts);
    if word != "read" && word != "select" then Fail else SelectFromLimit(ts1)
  }

  function SelectFromLimit(ts: Tokens): Outcome<Tokens> {
    var t :- Peek(ts);
    var (_, ts1) :- if t == "*" then Ok(([Field("*")], Rest(ts))) else ItemList(ts);
    var ts2 :- Expect(ts1, "from");
    var (_, ts3) :- Name(ts2);
    var next :- Peek(ts3);
    if next == "" then Fail else TailFromLimit(ts3, next)
  }

  function TailFromLimit(ts: Tokens, next: string): Outcome<Tokens> {
    var (_, ts1) :- OptionalCondition(ts, next);
    var (_, _, ts2) :- OrderClause(ts1);
    Ok(ts2)
  }

  predicate IsNumber(t: string) {
    StrToInt(t).Some?
  }

  /** A limit, perhaps with an offset, and then something that is no token. */
  predicate LimitBreaksOff(ts: Tokens) {
    && ts.Tok? && ts.head == "limit" && ts.tail.Tok? && IsNumber(ts.tail.head)
    && var rest := ts.tail.tail;
    || rest == Broken
    || (rest.Tok? && rest.head == "offset" && rest.tail.Tok? && IsNumber(rest.tail.head) && rest.tail.tail == Broken)
  }

  predicate EmptyTokenNext(ts: Tokens) {
    ts.Tok? && ts.head == ""
  }

  /* ----- where the statements stop ----- */

  lemma ConditionStops(ts: Tokens)
    ensures Condition(ts).Ok? ==> Condition(ts).v.1 != Broken
  {
  }

  lemma {:induction false} FieldListStops(ts: Tokens)
    ensures FieldList(ts).Ok? && !FieldList(ts).v.2 ==> FieldList(ts).v.3 != Broken
    decreases Size(ts)
  {
    var r := FieldRound(ts);
    if r.Ok? && r.v.0.OneField? {
      FieldListStops(r.v.1);
    }
  }

  lemma {:induction false} ValueListStops(ts: Tokens)
    ensures ValueList(ts).Ok? ==> ValueList(ts).v.1 != Broken
    decreases Size(ts)
  {
    var r := Next(ts);
    if r.Ok? && r.v.0 != "" {
      ValueListStops(r.v.1);
    }
  }

  lemma {:induction false} RowListStops(ts: Tokens)
    ensures RowList(ts).Ok? ==> RowList(ts).v.1 != Broken
    decreases Size(ts)
  {
    var row := RowValues(ts);
    if row.Ok? && Expect(Rest(row.v.1), "{").Ok? {
      RowListStops(Expect(Rest(row.v.1), "{").v);
    }
  }

  lemma CreateStops(ts: Tokens)
    ensures ParseCreate(ts).Ok? ==> ParseCreate(ts).v.1 != Broken
  {
    forall ts2 ensures FieldList(ts2).Ok? && !FieldList(ts2).v.2 ==> FieldList(ts2).v.3 != Broken {
      FieldListStops(ts2);
    }
  }

  lemma InsertStops(ts: Tokens)
    ensures ParseInsert(ts).Ok? ==> ParseInsert(ts).v.1 != Broken
  {
    forall ts3 ensures ValueList(ts3).Ok? ==> ValueList(ts3).v.1 != Broken {
      ValueListStops(ts3);
    }
    forall ts3 ensures RowList(ts3).Ok? ==> RowList(ts3).v.1 != Broken {
      RowListStops(ts3);
    }
  }

  lemma WhereStops(ts: Tokens)
    ensures ParseDelete(ts).Ok? ==> ParseDelete(ts).v.1 != Broken
    ensures ParseUpdate(ts).Ok? ==> ParseUpdate(ts).v.1 != Broken
  {
    forall ts2 ensures Condition(ts2).Ok? ==> Condition(ts2).v.1 != Broken {
      ConditionStops(ts2);
    }
  }

  lemma ShortStops(ts: Tokens)
    ensures ParseBegin(ts).Ok? ==> ParseBegin(ts).v.1 != Broken
    ensures ParseDrop(ts).Ok? ==> ParseDrop(ts).v.1 != Broken
    ensures forall s :: Alone(ts, s).Ok? ==> Alone(ts, s).v.1 != Broken
  {
  }

  lemma LimitStopsIff(ts: Tokens)
    ensures LimitClause(ts).Ok? && LimitClause(ts).v.2 == Broken <==> LimitBreaksOff(ts)
  {
  }

  lemma SelectedStopsIff(table: string, items: seq<Item>, ts: Tokens)
    ensures var r := Selected(table, items, ts);
            r.Ok? && r.v.1 == Broken <==>
            (Peek(ts).Ok? && Peek(ts).v != "" && TailFromLimit(ts, Peek(ts).v).Ok? && LimitBreaksOff(TailFromLimit(ts, Peek(ts).v).v))
  {
    forall ts2 ensures LimitClause(ts2).Ok? && LimitClause(ts2).v.2 == Broken <==> LimitBreaksOff(ts2) {
      LimitStopsIff(ts2);
    }
  }

  lemma ReadStopsIff(ts: Tokens)
    ensures ParseRead(ts).Ok? && ParseRead(ts).v.1 == Broken <==> SelectFromLimit(ts).Ok? && LimitBreaksOff(SelectFromLimit(ts).v)
  {
    forall table, items, ts3
      ensures var r := Selected(table, items, ts3);
              r.Ok? && r.v.1 == Broken <==>
              (Peek(ts3).Ok? && Peek(ts3).v != "" && TailFromLimit(ts3, Peek(ts3).v).Ok? && LimitBreaksOff(TailFromLimit(ts3, Peek(ts3).v).v))
    {
      SelectedStopsIff(table, items, ts3);
    }
  }

  lemma LongStops(word: string, ts: Tokens)
    requires word != "read" && word != "select"
    ensures ParseLong(word, ts).Ok? ==> ParseLong(word, ts).v.1 != Broken
  {
    CreateStops(ts);
    InsertStops(ts);
    WhereStops(ts);
  }

  lemma BodyStops(word: string, ts: Tokens)
    requires word != "read" && word != "select"
    ensures ParseBody(word, ts).Ok? ==> ParseBody(word, ts).v.1 != Broken
  {
    ShortStops(ts);
    LongStops(word, ts);
  }

  lemma BreaksOffIff(ts: Tokens)
    ensures Left(ts) == Ok(Broken) <==> FromLimit(ts).Ok? && LimitBreaksOff(FromLimit(ts).v)
  {
    if Next(ts).Ok? {
      var (word, ts1) := Next(ts).v;
      if word == "read" || word == "select" {
        ReadWords(ts1);
        ReadStopsIff(ts1);
      } else {
        BodyStops(word, ts1);
      }
    }
  }

  lemma AcceptedIff(ts: Tokens)
    ensures ParseTokens(ts).Ok? <==> Left(ts).Ok? && (Stops(Left(ts).v) || Left(ts).v == Broken)
  {
  }

  /**
   * A text is accepted although something is left unread if and only if a quoted empty token stands
   * where the statement ends, or it is a read statement up to its limit and something that is no token follows.
   */
  lemma AcceptedUnreadIff(text: string)
    ensures var ts := Lex(text);
            (Parse(text).Ok? && Left(ts) != Ok(End)) <==>
            (Left(ts).Ok? && EmptyTokenNext(Left(ts).v)) || (FromLimit(ts).Ok? && LimitBreaksOff(FromLimit(ts).v))
  {
    AcceptedIff(Lex(text));
    BreaksOffIff(Lex(text));
  }

  /* ----- two such texts ----- */

  const EMPTY_TOKEN := [Piece("commit", Bare, " "), Piece("", Quoted('"'), " "), Piece("drop", Bare, "")]

  /** A commit with a quoted empty token and the word `drop` behind it is a commit. */
  lemma CommitHidesDrop()
    ensures Parse(Text(EMPTY_TOKEN)) == Ok(Commit)
  {
    var st := Style(false, false, false, false, false, false, false);
    assert EMPTY_TOKEN[1..][1..] == [Piece("drop", Bare, "")];
    assert TokensOf(EMPTY_TOKEN) == Tok("commit", Tok("", Tok("drop", End)));
    UnreadBehindEmptyToken(Commit, st, Tok("drop", End), EMPTY_TOKEN);
  }

  const LIMITED := [Piece("read", Bare, " "), Piece("*", Bare, " "), Piece("from", Bare, " "), Piece("t", Bare, " "),
                    Piece("limit", Bare, " "), Piece("5", Bare, " ")]

  /** A read statement with a limit of 5 and a question mark behind it is the read statement. */
  lemma LimitHidesJunk()
    ensures Parse(Text(LIMITED) + "?") == Ok(Read("t", ["*"], [], None, "", false, 5, 0))
  {
    var st := Style(false, false, false, false, false, false, false);
    var s := Read("t", ["*"], [], None, "", false, 5, 0);
    LimitedTokens(s, st);
    LimitedSpelled();
    Junk();
    UnreadBehindLimit(s, st, LIMITED, "?");
  }

  lemma Junk()
    ensures Lex("?") == Broken
  {
  }

  lemma LimitedSpelled()
    ensures WellSpelled(LIMITED) && |LIMITED| == 6 && LIMITED[5].gap == " "
  {
    assert forall i :: 0 <= i < 6 ==> LIMITED[i].gap == " " && LIMITED[i].spelling == Bare;
    assert IsWord("read") && IsSymbolToken("*") && IsWord("from") && IsWord("t") && IsWord("limit") && IsWord("5");
    assert Blanks(" ");
  }

  lemma LimitedTokens(s: Statement, st: Style)
    requires s == Read("t", ["*"], [], None, "", false, 5, 0) && !st.select && !st.asc
    ensures InLanguage(s) && TokensOf(LIMITED) == Write(s, st, End)
  {
    assert ToStr(5) == "5";
    assert FieldItems(["*"]) + AggItems([]) == [Field("*")];
    var p5 := LIMITED[5..];
    assert TokensOf(p5) == Tok("5", End) by {
      assert p5[1..] == [];
    }
    assert LIMITED[4..][1..] == p5 && LIMITED[3..][1..] == LIMITED[4..] && LIMITED[2..][1..] == LIMITED[3..];
    assert LIMITED[1..][1..] == LIMITED[2..];
    assert TokensOf(LIMITED[4..]) == Tok("limit", TokensOf(p5));
    assert TokensOf(LIMITED[3..]) == Tok("t", TokensOf(LIMITED[4..]));
    assert TokensOf(LIMITED[2..]) == Tok("from", TokensOf(LIMITED[3..]));
    assert TokensOf(LIMITED[1..]) == Tok("*", TokensOf(LIMITED[2..]));
  }
}
