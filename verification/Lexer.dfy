/** The three-state lexer, and every way to write a sequence of tokens down. */
module Lexer {
  predicate IsSymbol(b: char) {
    b in {'>', '<', '=', '*', ',', '(', ')', '{', '}', '!'}
  }

  predicate IsLetter(b: char) {
    'a' <= b <= 'z' || 'A' <= b <= 'Z'
  }

  predicate IsDigit(b: char) {
    '0' <= b <= '9'
  }

  predicate IsWordChar(b: char) {
    IsLetter(b) || IsDigit(b)
  }

  predicate IsBlank(b: char) {
    b == '\n' || b == ' ' || b == '\t'
  }

  predicate IsQuote(b: char) {
    b == '"' || b == '\''
  }

  /** The tokens of a text; reading it ends properly or at something that is no token. */
  datatype Tokens = End | Broken | Tok(head: string, tail: Tokens)

  /** The length of the word in front. */
  function WordLen(s: string): (n: nat)
    ensures n <= |s|
  {
    if s != [] && IsWordChar(s[0]) then 1 + WordLen(s[1..]) else 0
  }

  /** The position of the first `q`, or the length if there is none. */
  function Find(s: string, q: char): (n: nat)
    ensures n <= |s|
  {
    if s == [] || s[0] == q then 0 else 1 + Find(s[1..], q)
  }

  function Lex(s: string): Tokens
    decreases |s|
  {
    if s == [] then End
    else if IsBlank(s[0]) then Lex(s[1..])
    else if IsSymbol(s[0]) then Tok([s[0]], Lex(s[1..]))
    else if IsQuote(s[0]) then
      var n := Find(s[1..], s[0]);
      if n == |s| - 1 then Broken else Tok(s[1..n + 1], Lex(s[n + 2..]))
    else if IsWordChar(s[0]) then
      var n := WordLen(s);
      Tok(s[..n], Lex(s[n..]))
    else Broken
  }

  /** What each character is on its own: a token, a blank, or nothing a text may hold outside of quotes. */
  lemma LexOne(c: char)
    ensures Lex([c]) ==
      if c in ">=<!*,(){}" || 'a' <= c <= 'z' || 'A' <= c <= 'Z' || '0' <= c <= '9' then Tok([c], End)
      else if c in " \t\n" then End
      else Broken
  {
    assert [c][1..] == [];
    if IsWordChar(c) {
      assert WordLen([c]) == 1 && [c][..1] == [c];
    } else if IsQuote(c) {
      assert Find([c][1..], c) == 0;
    }
  }

  /* ----- writing tokens down ----- */

  datatype Spelling = Bare | Quoted(q: char)

  /** A token as written, and the blanks behind it. */
  datatype Piece = Piece(token: string, spelling: Spelling, gap: string)

  predicate IsWord(t: string) {
    t != [] && forall i :: 0 <= i < |t| ==> IsWordChar(t[i])
  }

  predicate IsSymbolToken(t: string) {
    |t| == 1 && IsSymbol(t[0])
  }

  predicate Blanks(g: string) {
    forall i :: 0 <= i < |g| ==> IsBlank(g[i])
  }

  predicate Spellable(p: Piece) {
    && Blanks(p.gap)
    && match p.spelling
       case Bare => IsWord(p.token) || IsSymbolToken(p.token)
       case Quoted(q) => IsQuote(q) && q !in p.token
  }

  function Spell(p: Piece): string {
    match p.spelling
    case Bare => p.token
    case Quoted(q) => [q] + p.token + [q]
  }

  function Text(ps: seq<Piece>): string {
    if ps == [] then "" else Spell(ps[0]) + (ps[0].gap + Text(ps[1..]))
  }

  /** Two words in a row are kept apart. */
  predicate Apart(ps: seq<Piece>)
  {
    forall i :: 0 <= i < |ps| - 1 && ps[i].spelling.Bare? && IsWord(ps[i].token) && ps[i].gap == "" ==>
      !(ps[i + 1].spelling.Bare? && IsWord(ps[i + 1].token))
  }

  predicate WellSpelled(ps: seq<Piece>) {
    (forall i :: 0 <= i < |ps| ==> Spellable(ps[i])) && Apart(ps)
  }

  function TokensOf(ps: seq<Piece>): Tokens {
    if ps == [] then End else Tok(ps[0].token, TokensOf(ps[1..]))
  }

  lemma {:induction false} SkipGap(g: string, s: string)
    requires Blanks(g)
    ensures Lex(g + s) == Lex(s)
  {
    if g == "" {
      assert g + s == s;
    } else {
      assert (g + s)[1..] == g[1..] + s;
      SkipGap(g[1..], s);
    }
  }

  lemma {:induction false} WordFound(t: string, s: string)
    requires IsWord(t) && (s == "" || !IsWordChar(s[0]))
    ensures WordLen(t + s) == |t|
  {
    assert (t + s)[1..] == t[1..] + s;
    if |t| > 1 {
      WordFound(t[1..], s);
    } else {
      assert t[1..] + s == s;
    }
  }

  lemma {:induction false} QuoteFound(t: string, q: char, s: string)
    requires q !in t
    ensures Find(t + [q] + s, q) == |t|
  {
    var all := t + [q] + s;
    if t == "" {
      assert all[0] == q;
    } else {
      assert all[0] == t[0];
      assert all[1..] == t[1..] + [q] + s;
      QuoteFound(t[1..], q, s);
    }
  }

  lemma LexWord(t: string, s: string)
    requires IsWord(t) && (s == "" || !IsWordChar(s[0]))
    ensures Lex(t + s) == Tok(t, Lex(s))
  {
    WordFound(t, s);
    assert (t + s)[0] == t[0] && IsWordChar(t[0]);
    assert (t + s)[..|t|] == t && (t + s)[|t|..] == s;
  }

  lemma LexSymbol(t: string, s: string)
    requires IsSymbolToken(t)
    ensures Lex(t + s) == Tok(t, Lex(s))
  {
    assert (t + s)[0] == t[0] && (t + s)[1..] == s && [t[0]] == t;
  }

  lemma LexQuoted(t: string, q: char, s: string)
    requires IsQuote(q) && q !in t
    ensures Lex([q] + t + [q] + s) == Tok(t, Lex(s))
  {
    var all := [q] + t + [q] + s;
    assert all[0] == q && all[1..] == t + [q] + s;
    QuoteFound(t, q, s);
    assert all[1..|t| + 1] == t && all[|t| + 2..] == s;
  }

  lemma SpellStarts(p: Piece)
    requires Spellable(p)
    ensures Spell(p) != ""
    ensures IsWordChar(Spell(p)[0]) ==> p.spelling.Bare? && IsWord(p.token)
  {
  }

  /** What follows a piece does not run into it. */
  lemma NotRunOn(ps: seq<Piece>)
    requires WellSpelled(ps) && ps != [] && ps[0].spelling.Bare? && IsWord(ps[0].token)
    ensures var s := ps[0].gap + Text(ps[1..]); s == "" || !IsWordChar(s[0])
  {
    var s := ps[0].gap + Text(ps[1..]);
    if ps[0].gap != "" {
      assert s[0] == ps[0].gap[0];
    } else if |ps| > 1 {
      SpellStarts(ps[1]);
      assert ps[1..][0] == ps[1];
      assert s[0] == Spell(ps[1])[0];
    }
  }

  lemma LexPiece(p: Piece, s: string)
    requires Spellable(p) && (p.spelling.Bare? && IsWord(p.token) ==> s == "" || !IsWordChar(s[0]))
    ensures Lex(Spell(p) + s) == Tok(p.token, Lex(s))
  {
    match p.spelling {
      case Bare =>
        if IsWord(p.token) {
          LexWord(p.token, s);
        } else {
          LexSymbol(p.token, s);
        }
      case Quoted(q) => LexQuoted(p.token, q, s);
    }
  }

  /** However tokens are quoted and spaced, they are read back. */
  lemma {:induction false} LexesBack(ps: seq<Piece>)
    requires WellSpelled(ps)
    ensures Lex(Text(ps)) == TokensOf(ps)
  {
    if ps != [] {
      var p, more := ps[0], ps[1..];
      assert forall i :: 0 <= i < |more| ==> more[i] == ps[i + 1];
      if p.spelling.Bare? && IsWord(p.token) {
        NotRunOn(ps);
      }
      LexPiece(p, p.gap + Text(more));
      SkipGap(p.gap, Text(more));
      LexesBack(more);
    }
  }
}

/** The tokener object: one token of look-ahead over the text. */
module Tokener {
  import opened Lexer

  /** A peeked token, or the error that sticks. */
  datatype Peeked = Token(t: string) | Invalid

  function Head(ts: Tokens): Peeked {
    match ts
    case End => Token("")
    case Broken => Invalid
    case Tok(h, _) => Token(h)
  }

  function Rest(ts: Tokens): Tokens {
    if ts.Tok? then ts.tail else ts
  }

  lemma FindNext(s: string, i: nat, q: char)
    requires i < |s|
    ensures Find(s[i..], q) == if s[i] == q then 0 else 1 + Find(s[i + 1..], q)
  {
    assert s[i..][0] == s[i] && s[i..][1..] == s[i + 1..];
  }

  lemma QuoteAt(s: string, start: nat, end: nat)
    requires start < end < |s| && IsQuote(s[start]) && Find(s[start + 1..], s[start]) == end - start - 1
    ensures Lex(s[start..]) == Tok(s[start + 1..end], Lex(s[end + 1..]))
  {
    var t, n := s[start..], end - start - 1;
    assert t[0] == s[start] && t[1..] == s[start + 1..];
    assert t[1..n + 1] == s[start + 1..end] && t[n + 2..] == s[end + 1..];
  }

  lemma NoQuoteAt(s: string, start: nat)
    requires start < |s| && IsQuote(s[start]) && Find(s[start + 1..], s[start]) == |s| - start - 1
    ensures Lex(s[start..]) == Broken
  {
    var t := s[start..];
    assert t[0] == s[start] && t[1..] == s[start + 1..];
  }

  lemma WordNext(s: string, i: nat)
    requires i < |s|
    ensures WordLen(s[i..]) == if IsWordChar(s[i]) then 1 + WordLen(s[i + 1..]) else 0
  {
    assert s[i..][0] == s[i] && s[i..][1..] == s[i + 1..];
  }

  lemma WordAt(s: string, start: nat, end: nat)
    requires start < end <= |s| && IsWordChar(s[start]) && WordLen(s[start..]) == end - start
    ensures Lex(s[start..]) == Tok(s[start..end], Lex(s[end..]))
  {
    var t, n := s[start..], end - start;
    assert t[0] == s[start] && t[..n] == s[start..end] && t[n..] == s[end..];
  }

  class Scanner {
    const stat: string
    var pos: nat
    var curToken: string
    var flushToken: bool
    var err: bool
    ghost var ahead: Tokens

    /** `ahead` is what is still to be read, the peeked token included. */
    ghost predicate Valid()
      reads this
    {
      && pos <= |stat|
      && (err ==> ahead == Broken)
      && (!err && flushToken ==> ahead == Lex(stat[pos..]))
      && (!err && !flushToken ==> Head(ahead) == Token(curToken) && Rest(ahead) == Lex(stat[pos..]))
      && (!err && !flushToken && ahead == End ==> pos == |stat|)
    }

    constructor (text: string)
      ensures Valid() && ahead == Lex(text) && flushToken
    {
      stat, pos, curToken, flushToken, err := text, 0, "", true, false;
      ahead := Lex(text);
      new;
      assert stat[0..] == text;
    }

    method Peek() returns (r: Peeked)
      requires Valid()
      modifies this`pos, this`curToken, this`flushToken, this`err
      ensures Valid() && r == Head(ahead) && (r.Token? ==> !flushToken)
    {
      if err {
        return Invalid;
      }
      if flushToken {
        var token, ok := NextToken();
        if !ok {
          err := true;
          return Invalid;
        }
        curToken := token;
        flushToken := false;
      }
      return Token(curToken);
    }

    /** Drops the peeked token; without one it does nothing. */
    method Pop()
      requires Valid()
      modifies this
      ensures Valid() && flushToken && ahead == if old(flushToken) then old(ahead) else Rest(old(ahead))
    {
      if !flushToken && !err {
        ahead := Rest(ahead);
      }
      flushToken := true;
    }

    /** `nextMetaState`: skips blanks and decides by the first byte. */
    method NextToken() returns (token: string, ok: bool)
      requires pos <= |stat|
      modifies this`pos
      ensures pos <= |stat|
      ensures ok == !Lex(stat[old(pos)..]).Broken?
      ensures ok ==> Head(Lex(stat[old(pos)..])) == Token(token) && Rest(Lex(stat[old(pos)..])) == Lex(stat[pos..])
      ensures Lex(stat[old(pos)..]) == End ==> pos == |stat|
    {
      ghost var all := Lex(stat[pos..]);
      while true
        invariant pos <= |stat| && Lex(stat[pos..]) == all
        decreases |stat| - pos
      {
        if pos == |stat| {
          assert stat[pos..] == "";
          return "", true;
        }
        assert stat[pos..][0] == stat[pos] && stat[pos..][1..] == stat[pos + 1..];
        if !IsBlank(stat[pos]) {
          break;
        }
        pos := pos + 1;
      }
      assert stat[pos..][0] == stat[pos] && stat[pos..][1..] == stat[pos + 1..];
      var b := stat[pos];
      if IsSymbol(b) {
        pos := pos + 1;
        return [b], true;
      } else if IsQuote(b) {
        token, ok := QuotedToken();
      } else if IsWordChar(b) {
        token := WordToken();
        ok := true;
      } else {
        return "", false;
      }
    }

    /** `nextTokenState`: the word in front, and one blank behind it. */
    method WordToken() returns (token: string)
      requires pos < |stat| && IsWordChar(stat[pos])
      modifies this`pos
      ensures pos <= |stat|
      ensures Lex(stat[old(pos)..]) == Tok(token, Lex(stat[pos..]))
    {
      ghost var start := pos;
      token := "";
      while pos < |stat| && IsWordChar(stat[pos])
        invariant start <= pos <= |stat| && token == stat[start..pos]
        invariant WordLen(stat[start..]) == pos - start + WordLen(stat[pos..])
      {
        WordNext(stat, pos);
        token := token + [stat[pos]];
        pos := pos + 1;
      }
      if pos < |stat| {
        WordNext(stat, pos);
      }
      WordAt(stat, start, pos);
      if pos < |stat| && IsBlank(stat[pos]) {
        assert stat[pos..][1..] == stat[pos + 1..];
        pos := pos + 1;
      }
    }

    /** Collects bytes up to the next `quote` or the end. */
    method UpTo(quote: char) returns (token: string)
      requires pos <= |stat|
      modifies this`pos
      ensures old(pos) <= pos <= |stat| && token == stat[old(pos)..pos]
      ensures pos - old(pos) == Find(stat[old(pos)..], quote)
    {
      ghost var start := pos;
      token := "";
      while pos < |stat|
        invariant start <= pos <= |stat| && token == stat[start..pos]
        invariant Find(stat[start..], quote) == pos - start + Find(stat[pos..], quote)
      {
        FindNext(stat, pos, quote);
        if stat[pos] == quote {
          return;
        }
        token := token + [stat[pos]];
        pos := pos + 1;
      }
    }

    /** `nextQuoteState`: everything up to the same quote again. */
    method QuotedToken() returns (token: string, ok: bool)
      requires pos < |stat| && IsQuote(stat[pos])
      modifies this`pos
      ensures pos <= |stat|
      ensures Lex(stat[old(pos)..]) == if ok then Tok(token, Lex(stat[pos..])) else Broken
    {
      ghost var start := pos;
      var quote := stat[pos];
      pos := pos + 1;
      token := UpTo(quote);
      if pos == |stat| {
        NoQuoteAt(stat, start);
        return "", false;
      }
      QuoteAt(stat, start, pos);
      pos := pos + 1;
      return token, true;
    }
  }
}
