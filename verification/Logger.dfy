/** The log file: a running checksum in front, then records of size, checksum and payload. */
module LogFile {
  import opened Types
  import opened Bytes

  const SEED: nat := 13331
  const MOD: nat := 0x1_0000_0000
  const HEAD: nat := 8

  /** One round of the checksum, in 32-bit arithmetic that wraps around. */
  const MIX: (nat, Byte) -> nat := (acc, b) => (b + acc * SEED) % MOD

  /** `calChecksum`. */
  function Checksum(acc: nat, data: seq<Byte>): (c: nat)
    ensures acc < MOD ==> c < MOD
    decreases |data|
  {
    if data == [] then acc else MIX(Checksum(acc, data[..|data| - 1]), data[|data| - 1])
  }

  lemma {:induction false} ChecksumAppend(acc: nat, a: seq<Byte>, b: seq<Byte>)
    ensures Checksum(acc, a + b) == Checksum(Checksum(acc, a), b)
    decreases |b|
  {
    if b == [] {
      assert a + b == a;
    } else {
      var n := |b| - 1;
      assert (a + b)[..|a + b| - 1] == a + b[..n];
      ChecksumAppend(acc, a, b[..n]);
    }
  }

  /** What times SEED is 1 in 32-bit arithmetic. */
  const INVERSE: nat := 1171764763

  lemma MixOnce(a: nat, b: nat, x: Byte)
    requires a < MOD && b < MOD && MIX(a, x) == MIX(b, x)
    ensures a == b
  {
    var k := (x + a * SEED) / MOD - (x + b * SEED) / MOD;
    assert (a - b) * SEED == k * MOD;
    assert (a - b) * (SEED * INVERSE) == k * INVERSE * MOD;
    assert SEED * INVERSE == 1 + 3637 * MOD;
    assert a - b == (k * INVERSE - 3637 * (a - b)) * MOD;
  }

  lemma {:induction false} ChecksumOnce(a: nat, b: nat, data: seq<Byte>)
    requires a < MOD && b < MOD && Checksum(a, data) == Checksum(b, data)
    ensures a == b
    decreases |data|
  {
    if data != [] {
      var n := |data| - 1;
      MixOnce(Checksum(a, data[..n]), Checksum(b, data[..n]), data[n]);
      ChecksumOnce(a, b, data[..n]);
    }
  }

  /** The checksum notices every change of a single byte. */
  lemma ByteChangeIsSeen(acc: nat, data: seq<Byte>, k: nat, y: Byte)
    requires acc < MOD && k < |data| && y != data[k]
    ensures Checksum(acc, data[k := y]) != Checksum(acc, data)
  {
    var a, b, x := data[..k], data[k + 1..], data[k];
    assert data == a + ([x] + b) && data[k := y] == a + ([y] + b);
    ChecksumAppend(acc, a, [x] + b);
    ChecksumAppend(acc, a, [y] + b);
    var c := Checksum(acc, a);
    ChecksumAppend(c, [x], b);
    ChecksumAppend(c, [y], b);
    assert [x][..0] == [] && [y][..0] == [];
    assert Checksum(c, [x]) == MIX(c, x) && Checksum(c, [y]) == MIX(c, y);
    if Checksum(acc, data[k := y]) == Checksum(acc, data) {
      ChecksumOnce(MIX(c, x), MIX(c, y), b);
      ByteMixes(c, x, y);
    }
  }

  lemma ByteMixes(c: nat, x: Byte, y: Byte)
    requires MIX(c, x) == MIX(c, y)
    ensures x == y
  {
    var k := (x + c * SEED) / MOD - (y + c * SEED) / MOD;
    assert x - y == k * MOD;
  }

  /** `warpLog`. */
  function Record(data: seq<Byte>): (r: seq<Byte>)
    ensures |r| == HEAD + |data|
  {
    Put(|data|, 4) + Put(Checksum(0, data), 4) + data
  }

  /** A payload whose length fits the size field and that is not empty. */
  predicate Loggable(data: seq<Byte>) {
    0 < |data| < MOD
  }

  ghost predicate AllLoggable(ps: seq<seq<Byte>>) {
    forall i :: 0 <= i < |ps| ==> Loggable(ps[i])
  }

  function Cat(rs: seq<seq<Byte>>): seq<Byte> {
    if rs == [] then [] else rs[0] + Cat(rs[1..])
  }

  lemma {:induction false} CatAppend(a: seq<seq<Byte>>, b: seq<seq<Byte>>)
    ensures Cat(a + b) == Cat(a) + Cat(b)
  {
    if a == [] {
      assert a + b == b;
    } else {
      assert (a + b)[1..] == a[1..] + b;
      CatAppend(a[1..], b);
    }
  }

  function Records(ps: seq<seq<Byte>>): seq<seq<Byte>> {
    seq(|ps|, i requires 0 <= i < |ps| => Record(ps[i]))
  }

  function Body(ps: seq<seq<Byte>>): seq<Byte> {
    Cat(Records(ps))
  }

  lemma BodyCons(d: seq<Byte>, ps: seq<seq<Byte>>)
    ensures Body([d] + ps) == Record(d) + Body(ps)
  {
    var rs := Records([d] + ps);
    assert rs[0] == Record(d) && rs[1..] == Records(ps);
  }

  lemma BodyAppend(a: seq<seq<Byte>>, b: seq<seq<Byte>>)
    ensures Body(a + b) == Body(a) + Body(b)
  {
    assert Records(a + b) == Records(a) + Records(b);
    CatAppend(Records(a), Records(b));
  }

  lemma BodyOne(d: seq<Byte>)
    ensures Body([d]) == Record(d)
  {
    BodyCons(d, []);
    assert [d] + [] == [d];
    assert Body([]) == [];
    assert Record(d) + [] == Record(d);
  }

  function Total(ps: seq<seq<Byte>>): (c: nat)
    ensures c < MOD
  {
    Checksum(0, Body(ps))
  }

  /** The file that holds the payloads. */
  function File(ps: seq<seq<Byte>>): seq<Byte> {
    Put(Total(ps), 4) + Body(ps)
  }

  /* ----- reading ----- */

  datatype Step = Got(log: seq<Byte>) | End | ReadError

  /** `next`, for a file of which `size` bytes are believed to exist. */
  function Next(file: seq<Byte>, size: nat, pos: nat): (r: Step)
    ensures r.Got? ==> |r.log| >= HEAD && pos + |r.log| <= |file| && pos + |r.log| <= size
  {
    if pos + HEAD >= size then End
    else if pos + 4 > |file| then ReadError
    else
      var n := Parse(file[pos..pos + 4]);
      if pos + n + HEAD > size then End
      else if pos + HEAD + n > |file| then ReadError
      else
        var log := file[pos..pos + HEAD + n];
        if Checksum(0, log[HEAD..]) != Parse(log[4..8]) then End else Got(log)
  }

  /** Everything `next` gives from `pos` on, and how it ends. */
  function Scan(file: seq<Byte>, size: nat, pos: nat): (seq<seq<Byte>>, nat, Step)
    decreases size - pos
  {
    match Next(file, size, pos)
    case Got(log) =>
      var (rest, end, how) := Scan(file, size, pos + |log|);
      ([log[HEAD..]] + rest, end, how)
    case how => ([], pos, how)
  }

  lemma Parts(a: seq<Byte>, b: seq<Byte>, d: seq<Byte>)
    requires |a| == 4 && |b| == 4
    ensures (a + b + d)[0..4] == a && (a + b + d)[4..8] == b && (a + b + d)[8..] == d
  {
  }

  lemma RecordFields(data: seq<Byte>)
    requires |data| < MOD
    ensures var r := Record(data);
            Parse(r[0..4]) == |data| && Parse(r[4..8]) == Checksum(0, data) && r[HEAD..] == data
  {
    Parts(Put(|data|, 4), Put(Checksum(0, data), 4), data);
    Fits4(|data|);
    Fits4(Checksum(0, data));
  }

  lemma Fits4(n: nat)
    requires n < MOD
    ensures Parse(Put(n, 4)) == n
  {
    Widths();
    ParsePut(n, 4);
  }

  /** A record in the file is read, whatever follows, unless it is empty and the last one. */
  lemma NextRecord(file: seq<Byte>, size: nat, pos: nat, data: seq<Byte>)
    requires |data| < MOD && pos + HEAD + |data| <= |file| && pos + HEAD + |data| <= size && pos + HEAD < size
    requires file[pos..pos + HEAD + |data|] == Record(data)
    ensures Next(file, size, pos) == Got(Record(data))
  {
    RecordFields(data);
    SliceOfSlice(file, pos, pos + HEAD + |data|, 0, 4);
    NextFrom(file, size, pos, Record(data));
  }

  lemma NextFrom(file: seq<Byte>, size: nat, pos: nat, r: seq<Byte>)
    requires |r| >= HEAD && pos + |r| <= |file| && pos + |r| <= size && pos + HEAD < size && file[pos..pos + |r|] == r
    requires Parse(file[pos..pos + 4]) == |r| - HEAD && Parse(r[4..8]) == Checksum(0, r[HEAD..])
    ensures Next(file, size, pos) == Got(r)
  {
  }

  /** A record in whose payload one byte has been changed is not read, whatever stands around it. */
  lemma ChangedRecordIsNotRead(file: seq<Byte>, size: nat, pos: nat, data: seq<Byte>, k: nat, y: Byte)
    requires |data| < MOD && k < |data| && y != data[k]
    requires pos + HEAD + |data| <= |file| && pos + HEAD + |data| <= size
    requires file[pos..pos + HEAD + |data|] == Record(data)[HEAD + k := y]
    ensures Next(file, size, pos) == End
  {
    var r, r' := Record(data), Record(data)[HEAD + k := y];
    RecordFields(data);
    assert r'[0..4] == r[0..4] && r'[4..8] == r[4..8] && r'[HEAD..] == data[k := y];
    SliceOfSlice(file, pos, pos + HEAD + |data|, 0, 4);
    ByteChangeIsSeen(0, data, k, y);
    NextBad(file, size, pos, r');
  }

  lemma NextBad(file: seq<Byte>, size: nat, pos: nat, r: seq<Byte>)
    requires |r| > HEAD && pos + |r| <= |file| && pos + |r| <= size && file[pos..pos + |r|] == r
    requires Parse(file[pos..pos + 4]) == |r| - HEAD && Parse(r[4..8]) != Checksum(0, r[HEAD..])
    ensures Next(file, size, pos) == End
  {
  }

  /** A proper prefix of a record is not read. */
  lemma NextTorn(file: seq<Byte>, pos: nat, data: seq<Byte>)
    requires |data| < MOD && pos <= |file| < pos + HEAD + |data| && file[pos..] == Record(data)[..|file| - pos]
    ensures Next(file, |file|, pos) == End
  {
    if pos + HEAD < |file| {
      RecordFields(data);
      var t := file[pos..];
      assert t[0..4] == Record(data)[0..4];
      assert file[pos..pos + 4] == t[0..4];
    }
  }

  /** The bytes `r` stand at `pos`. */
  predicate StandsAt(file: seq<Byte>, pos: nat, r: seq<Byte>) {
    pos + |r| <= |file| && file[pos..pos + |r|] == r
  }

  lemma StandsSplit(file: seq<Byte>, pos: nat, a: seq<Byte>, b: seq<Byte>)
    requires StandsAt(file, pos, a + b)
    ensures StandsAt(file, pos, a) && StandsAt(file, pos + |a|, b)
  {
    var n := |a + b|;
    SliceOfSlice(file, pos, pos + n, 0, |a|);
    SliceOfSlice(file, pos, pos + n, |a|, n);
    assert (a + b)[0..|a|] == a && (a + b)[|a|..n] == b;
  }

  /** From `pos` the scan yields `ps` and goes on at `to`. */
  ghost predicate Yields(file: seq<Byte>, size: nat, pos: nat, ps: seq<seq<Byte>>, to: nat) {
    var tail := Scan(file, size, to);
    Scan(file, size, pos) == (ps + tail.0, tail.1, tail.2)
  }

  lemma YieldsNothing(file: seq<Byte>, size: nat, pos: nat)
    ensures Yields(file, size, pos, [], pos)
  {
    var tail := Scan(file, size, pos);
    assert [] + tail.0 == tail.0;
  }

  lemma YieldsMore(file: seq<Byte>, size: nat, pos: nat, a: seq<seq<Byte>>, mid: nat, b: seq<seq<Byte>>, to: nat)
    requires Yields(file, size, pos, a, mid) && Yields(file, size, mid, b, to)
    ensures Yields(file, size, pos, a + b, to)
  {
    var tail := Scan(file, size, to);
    assert a + (b + tail.0) == a + b + tail.0;
  }

  lemma ScanStep(file: seq<Byte>, size: nat, pos: nat, d: seq<Byte>)
    requires Loggable(d) && StandsAt(file, pos, Record(d)) && pos + |Record(d)| <= size
    ensures Yields(file, size, pos, [d], pos + |Record(d)|)
  {
    var r := Record(d);
    assert Next(file, size, pos) == Got(r) by {
      NextRecord(file, size, pos, d);
    }
    assert |r| >= HEAD && r[HEAD..] == d by {
      RecordFields(d);
    }
    YieldsGot(file, size, pos, r);
  }

  lemma YieldsGot(file: seq<Byte>, size: nat, pos: nat, r: seq<Byte>)
    requires |r| >= HEAD && Next(file, size, pos) == Got(r)
    ensures Yields(file, size, pos, [r[HEAD..]], pos + |r|)
  {
  }

  /** The scan yields the records that stand at `pos`, and then goes on behind them. */
  lemma {:induction false} ScanBodyTo(file: seq<Byte>, size: nat, pos: nat, ps: seq<seq<Byte>>, to: nat)
    requires AllLoggable(ps) && StandsAt(file, pos, Body(ps)) && to == pos + |Body(ps)| <= size
    ensures Yields(file, size, pos, ps, to)
    decreases |ps|
  {
    if ps == [] {
      YieldsNothing(file, size, pos);
    } else {
      FirstRecord(file, pos, ps);
      var mid := pos + |Record(ps[0])|;
      ScanBodyTo(file, size, mid, ps[1..], to);
      ScanFirst(file, size, pos, ps, mid, to);
    }
  }

  lemma ScanBody(file: seq<Byte>, size: nat, pos: nat, ps: seq<seq<Byte>>)
    requires AllLoggable(ps) && StandsAt(file, pos, Body(ps)) && pos + |Body(ps)| <= size
    ensures Yields(file, size, pos, ps, pos + |Body(ps)|)
  {
    ScanBodyTo(file, size, pos, ps, pos + |Body(ps)|);
  }

  lemma ScanFirst(file: seq<Byte>, size: nat, pos: nat, ps: seq<seq<Byte>>, mid: nat, to: nat)
    requires ps != [] && Loggable(ps[0]) && StandsAt(file, pos, Record(ps[0])) && mid == pos + |Record(ps[0])| <= size
    requires Yields(file, size, mid, ps[1..], to)
    ensures Yields(file, size, pos, ps, to)
  {
    ScanStep(file, size, pos, ps[0]);
    YieldsFirst(file, size, pos, ps, mid, to);
  }

  lemma YieldsFirst(file: seq<Byte>, size: nat, pos: nat, ps: seq<seq<Byte>>, mid: nat, to: nat)
    requires ps != [] && Yields(file, size, pos, [ps[0]], mid) && Yields(file, size, mid, ps[1..], to)
    ensures Yields(file, size, pos, ps, to)
  {
    YieldsMore(file, size, pos, [ps[0]], mid, ps[1..], to);
    assert [ps[0]] + ps[1..] == ps;
  }

  lemma FirstRecord(file: seq<Byte>, pos: nat, ps: seq<seq<Byte>>)
    requires AllLoggable(ps) && ps != [] && StandsAt(file, pos, Body(ps))
    ensures AllLoggable(ps[1..]) && Loggable(ps[0])
    ensures |Body(ps)| == |Record(ps[0])| + |Body(ps[1..])|
    ensures StandsAt(file, pos, Record(ps[0])) && StandsAt(file, pos + |Record(ps[0])|, Body(ps[1..]))
  {
    assert ps == [ps[0]] + ps[1..];
    BodyCons(ps[0], ps[1..]);
    StandsSplit(file, pos, Record(ps[0]), Body(ps[1..]));
  }

  /** Sequences of payloads put together. */
  lemma Together(a: seq<seq<Byte>>, b: seq<seq<Byte>>, c: seq<seq<Byte>>)
    ensures a + b + c == a + (b + c)
    ensures b != [] ==> b[..|b| - 1] + [b[|b| - 1]] == b
  {
  }

  /* ----- opening ----- */

  datatype Opened = Opened(file: seq<Byte>, size: nat, checksum: nat) | BadLogFile | Unreadable

  /** `Open`: everything behind the last whole record is cut off, if the checksum in front is that of the records. */
  function Open(file: seq<Byte>): Opened {
    if |file| < 4 then BadLogFile
    else
      var (ps, end, how) := Scan(file, |file|, 4);
      if how.ReadError? then Unreadable
      else if Total(ps) == Parse(file[..4]) && end <= |file| then Opened(file[..end], |file|, Total(ps))
      else BadLogFile
  }

  /** `Log` on an opened file. */
  function Log(file: seq<Byte>, checksum: nat, data: seq<Byte>): (seq<Byte>, nat)
    requires |file| >= 4
  {
    var c := Checksum(checksum, Record(data));
    (Put(c, 4) + file[4..] + Record(data), c)
  }

  lemma Appended(c: seq<Byte>, body: seq<Byte>, r: seq<Byte>)
    requires |c| == 4
    ensures (c + body)[4..] == body && |c + body| == 4 + |body| && (c + body)[..4] == c
    ensures c + body + r == c + (body + r)
    ensures StandsAt(c + body, 4, body) && StandsAt(c + body + r, 4, body) && StandsAt(c + body + r, 4 + |body|, r)
    ensures (c + body + r)[..4 + |body|] == c + body && (c + body + r)[..4] == c && (c + body + r)[4 + |body|..] == r
  {
  }

  lemma LogKeepsForm(ps: seq<seq<Byte>>, data: seq<Byte>)
    ensures Log(File(ps), Total(ps), data) == (File(ps + [data]), Total(ps + [data]))
  {
    BodyAppend(ps, [data]);
    BodyOne(data);
    ChecksumAppend(0, Body(ps), Record(data));
    Appended(Put(Total(ps), 4), Body(ps), Record(data));
    Appended(Put(Total(ps + [data]), 4), Body(ps), Record(data));
  }

  /**
   * A crash in the middle of writing one more record: under the old header, any proper prefix of the
   * record is cut off again, and the file is exactly the complete records.
   */
  lemma TornTailIsRemoved(ps: seq<seq<Byte>>, data: seq<Byte>, n: nat)
    requires AllLoggable(ps) && |data| < MOD && n < |Record(data)|
    ensures var file := File(ps) + Record(data)[..n]; Open(file) == Opened(File(ps), |file|, Total(ps))
  {
    var t := Record(data)[..n];
    var file := File(ps) + t;
    assert file[4 + |Body(ps)|..] == t;
    NextTorn(file, 4 + |Body(ps)|, data);
    OpensUpTo(Total(ps), ps, t);
  }

  /**
   A log in which one byte of a payload has been changed opens if and only if the records before it
   happen to have the checksum of all, and then these are what is left of it.
   */
  lemma ChangedLogOpensIff(a: seq<seq<Byte>>, data: seq<Byte>, b: seq<seq<Byte>>, k: nat, y: Byte)
    requires AllLoggable(a) && AllLoggable(b) && Loggable(data) && k < |data| && y != data[k]
    ensures var all := a + [data] + b;
            var head, body := Put(Total(all), 4), Body(a);
            var file := head + body + (Record(data)[HEAD + k := y] + Body(b));
            Open(file) == if Total(a) == Total(all) then Opened(head + body, |file|, Total(all)) else BadLogFile
  {
    var c := Total(a + [data] + b);
    var r, tail := Record(data)[HEAD + k := y], Body(b);
    var file := Put(c, 4) + Body(a) + (r + tail);
    RestStands(Put(c, 4), Body(a), r, tail);
    ChangedRecordIsNotRead(file, |file|, 4 + |Body(a)|, data, k, y);
    OpensUpTo(c, a, r + tail);
  }

  lemma RestStands(head: seq<Byte>, body: seq<Byte>, r: seq<Byte>, tail: seq<Byte>)
    requires |head| == 4
    ensures var file, end := head + body + (r + tail), 4 + |body|;
            end + |r| <= |file| && file[end..end + |r|] == r
  {
  }

  /** A file of whole records under the header `c`, and behind them something that is not read. */
  lemma OpensUpTo(c: nat, ps: seq<seq<Byte>>, rest: seq<Byte>)
    requires c < MOD && AllLoggable(ps)
    requires var file := Put(c, 4) + Body(ps) + rest; Next(file, |file|, 4 + |Body(ps)|) == End
    ensures var file := Put(c, 4) + Body(ps) + rest;
            Open(file) == if Total(ps) == c then Opened(Put(c, 4) + Body(ps), |file|, c) else BadLogFile
  {
    var file, end := Put(c, 4) + Body(ps) + rest, 4 + |Body(ps)|;
    Appended(Put(c, 4), Body(ps), rest);
    Fits4(c);
    ScanBody(file, |file|, 4, ps);
    assert Scan(file, |file|, end) == ([], end, End);
    assert ps + [] == ps;
  }

  /** A log that was closed in order opens as it is. */
  lemma WholeFileOpens(ps: seq<seq<Byte>>)
    requires AllLoggable(ps)
    ensures Open(File(ps)) == Opened(File(ps), |File(ps)|, Total(ps))
  {
    TornTailIsRemoved(ps, [], 0);
    assert File(ps) + Record([])[..0] == File(ps);
  }

  /**
   * A crash after the record is written and before the header is: the log opens again if and only
   * if the checksum happens to stay the same.
   */
  lemma UnsealedRecordOpensIff(ps: seq<seq<Byte>>, data: seq<Byte>)
    requires AllLoggable(ps) && Loggable(data)
    ensures var file := File(ps) + Record(data);
            if Total(ps + [data]) == Total(ps) then Open(file) == Opened(file, |file|, Total(ps)) else Open(file) == BadLogFile
  {
    var file, all := File(ps) + Record(data), ps + [data];
    BodyAppend(ps, [data]);
    BodyOne(data);
    Appended(Put(Total(ps), 4), Body(ps), Record(data));
    OpensIff(Total(ps), all);
  }

  /** A file of whole records under the header `c`. */
  lemma OpensIff(c: nat, ps: seq<seq<Byte>>)
    requires c < MOD && AllLoggable(ps)
    ensures var file := Put(c, 4) + Body(ps);
            Open(file) == if Total(ps) == c then Opened(file, |file|, c) else BadLogFile
  {
    var file := Put(c, 4) + Body(ps);
    Appended(Put(c, 4), Body(ps), []);
    Fits4(c);
    ScanBody(file, |file|, 4, ps);
    assert Scan(file, |file|, |file|) == ([], |file|, End);
    assert ps + [] == ps;
    assert file[..|file|] == file;
  }

  /** An opened log yields its payloads in order. */
  lemma ReadsBack(ps: seq<seq<Byte>>, size: nat)
    requires AllLoggable(ps) && |File(ps)| <= size
    ensures var (got, end, how) := Scan(File(ps), size, 4);
            got == ps && end == |File(ps)| && how == if |File(ps)| + HEAD < size then ReadError else End
  {
    var file := File(ps);
    Appended(Put(Total(ps), 4), Body(ps), []);
    ScanBody(file, size, 4, ps);
    var how := if |file| + HEAD < size then ReadError else End;
    assert Scan(file, size, |file|) == ([], |file|, how);
    assert ps + [] == ps;
  }

  /**
   * After a torn tail is cut off, the size is remembered as it was: reading on past the last record
   * is an error if and only if more than 8 bytes were cut.
   */
  lemma NextAfterCutFailsIff(ps: seq<seq<Byte>>, data: seq<Byte>, n: nat)
    requires AllLoggable(ps) && |data| < MOD && n < |Record(data)|
    ensures var o := Open(File(ps) + Record(data)[..n]);
            && o.Opened? && Scan(o.file, o.size, 4).0 == ps
            && (Scan(o.file, o.size, 4).2 == ReadError <==> n > HEAD)
  {
    TornTailIsRemoved(ps, data, n);
    ReadsBack(ps, |File(ps) + Record(data)[..n]|);
  }

  /* ----- sessions ----- */

  /** A session logs payloads and ends in a crash `n` bytes into the record of one more; in order if `n` is 0. */
  datatype Session = Session(logged: seq<seq<Byte>>, torn: seq<Byte>, n: nat)

  predicate Tears(s: Session) {
    |s.torn| < MOD && s.n < |Record(s.torn)|
  }

  function Tail(s: Session): seq<Byte> {
    if Tears(s) then Record(s.torn)[..s.n] else []
  }

  /** The log is opened, the payloads are logged, and what the last write left stays behind them. */
  function RunSession(file: seq<Byte>, s: Session): Option<seq<Byte>> {
    match Open(file)
    case Opened(f, _, c) => if |f| >= 4 then Some(LogAll(f, c, s.logged).0 + Tail(s)) else None
    case _ => None
  }

  function LogAll(file: seq<Byte>, checksum: nat, ps: seq<seq<Byte>>): (r: (seq<Byte>, nat))
    requires |file| >= 4
    ensures |r.0| >= 4
    decreases |ps|
  {
    if ps == [] then (file, checksum)
    else
      var (f, c) := LogAll(file, checksum, ps[..|ps| - 1]);
      Log(f, c, ps[|ps| - 1])
  }

  lemma LogAllNext(file: seq<Byte>, checksum: nat, ps: seq<seq<Byte>>, f: seq<Byte>, c: nat)
    requires |file| >= 4 && ps != [] && LogAll(file, checksum, ps[..|ps| - 1]) == (f, c)
    ensures |f| >= 4 && LogAll(file, checksum, ps) == Log(f, c, ps[|ps| - 1])
  {
  }

  lemma {:induction false} LogAllKeepsForm(ps: seq<seq<Byte>>, more: seq<seq<Byte>>)
    ensures |File(ps)| >= 4 && LogAll(File(ps), Total(ps), more) == (File(ps + more), Total(ps + more))
    decreases |more|
  {
    if more == [] {
      assert ps + more == ps;
    } else {
      var n := |more| - 1;
      var mid := ps + more[..n];
      Together(ps, more[..n], [more[n]]);
      Together(ps, more, []);
      LogAllKeepsForm(ps, more[..n]);
      LogKeepsForm(mid, more[n]);
      LogAllNext(File(ps), Total(ps), more, File(mid), Total(mid));
    }
  }

  /** A session cuts off the tail another one left. */
  lemma SessionKeepsForm(ps: seq<seq<Byte>>, last: Session, s: Session)
    requires AllLoggable(ps)
    ensures RunSession(File(ps) + Tail(last), s) == Some(File(ps + s.logged) + Tail(s))
  {
    TailIsRemoved(ps, last);
    LogAllKeepsForm(ps, s.logged);
  }

  lemma TailIsRemoved(ps: seq<seq<Byte>>, s: Session)
    requires AllLoggable(ps)
    ensures Open(File(ps) + Tail(s)) == Opened(File(ps), |File(ps) + Tail(s)|, Total(ps))
  {
    if Tears(s) {
      TornTailIsRemoved(ps, s.torn, s.n);
    } else {
      WholeFileOpens(ps);
      assert File(ps) + [] == File(ps);
    }
  }

  function Sessions(file: seq<Byte>, ss: seq<Session>): Option<seq<Byte>>
    decreases |ss|
  {
    if ss == [] then Some(file)
    else
      match Sessions(file, ss[..|ss| - 1])
      case None => None
      case Some(f) => RunSession(f, ss[|ss| - 1])
  }

  function Joined(ss: seq<Session>): seq<seq<Byte>>
    decreases |ss|
  {
    if ss == [] then [] else Joined(ss[..|ss| - 1]) + ss[|ss| - 1].logged
  }

  const NONE := Session([], [], 0)

  function Last(ss: seq<Session>): Session {
    if ss == [] then NONE else ss[|ss| - 1]
  }

  lemma SessionsNext(ss: seq<Session>, file: seq<Byte>)
    requires ss != [] && Sessions(File([]), ss[..|ss| - 1]) == Some(file)
    ensures Sessions(File([]), ss) == RunSession(file, ss[|ss| - 1])
  {
  }

  lemma LoggableTogether(a: seq<seq<Byte>>, b: seq<seq<Byte>>)
    requires AllLoggable(a) && AllLoggable(b)
    ensures AllLoggable(a + b)
  {
  }

  lemma {:induction false} SessionsKeepForm(ss: seq<Session>)
    requires forall i :: 0 <= i < |ss| ==> AllLoggable(ss[i].logged)
    ensures AllLoggable(Joined(ss)) && Sessions(File([]), ss) == Some(File(Joined(ss)) + Tail(Last(ss)))
    decreases |ss|
  {
    if ss == [] {
      assert Tail(NONE) == [];
      assert File([]) + [] == File([]);
    } else {
      var n := |ss| - 1;
      var ps := Joined(ss[..n]);
      SessionsKeepForm(ss[..n]);
      SessionsNext(ss, File(ps) + Tail(Last(ss[..n])));
      SessionKeepsForm(ps, Last(ss[..n]), ss[n]);
      LoggableTogether(ps, ss[n].logged);
    }
  }

  /**
   * Whatever is logged over any number of sessions, each of them cut short inside one more record, is
   * read back, all of it and in order.
   */
  lemma SessionsReadBack(ss: seq<Session>)
    requires forall i :: 0 <= i < |ss| ==> AllLoggable(ss[i].logged)
    ensures var file := Sessions(File([]), ss);
            && file.Some?
            && var o := Open(file.value);
            && o == Opened(File(Joined(ss)), |file.value|, Total(Joined(ss)))
            && Scan(o.file, o.size, 4).0 == Joined(ss)
            && (Scan(o.file, o.size, 4).2 == End <==> |Tail(Last(ss))| <= HEAD)
  {
    SessionsKeepForm(ss);
    TailIsRemoved(Joined(ss), Last(ss));
    ReadsBack(Joined(ss), |File(Joined(ss)) + Tail(Last(ss))|);
  }
}

/** The logger object over the bytes of its file. */
module Logger {
  import opened Bytes
  import opened LogFile

  lemma Halves(log: seq<Byte>)
    requires |log| >= 8
    ensures log == log[0..4] + log[4..8] + log[8..]
  {
  }

  /** Whatever is read as a record is the record of its payload. */
  lemma GotIsRecord(file: seq<Byte>, size: nat, pos: nat)
    requires Next(file, size, pos).Got?
    ensures var log := Next(file, size, pos).log; log == Record(log[HEAD..])
  {
    var log := Next(file, size, pos).log;
    SliceOfSlice(file, pos, pos + |log|, 0, 4);
    IsRecord(log);
  }

  lemma IsRecord(log: seq<Byte>)
    requires |log| >= HEAD && Parse(log[0..4]) == |log| - HEAD && Parse(log[4..8]) == Checksum(0, log[HEAD..])
    ensures log == Record(log[HEAD..])
  {
    PutParse(log[0..4]);
    PutParse(log[4..8]);
    Halves(log);
  }

  lemma YieldsOne(file: seq<Byte>, size: nat, start: nat, got: seq<seq<Byte>>, pos: nat)
    requires Yields(file, size, start, got, pos) && Next(file, size, pos).Got?
    ensures var log := Next(file, size, pos).log;
            Yields(file, size, start, got + [log[HEAD..]], pos + |log|)
  {
    var log := Next(file, size, pos).log;
    assert Yields(file, size, pos, [log[HEAD..]], pos + |log|);
    YieldsMore(file, size, start, got, pos, [log[HEAD..]], pos + |log|);
  }

  lemma TotalNext(got: seq<seq<Byte>>, data: seq<Byte>)
    ensures Checksum(Total(got), Record(data)) == Total(got + [data])
  {
    BodyAppend(got, [data]);
    BodyOne(data);
    ChecksumAppend(0, Body(got), Record(data));
  }

  lemma Reheaded(was: seq<Byte>, log: seq<Byte>, head: seq<Byte>)
    requires |was| >= 4 && |head| == 4
    ensures head + (was + log)[4..] == head + was[4..] + log && |head + was[4..] + log| == |was| + |log|
  {
  }

  datatype Status = Fine | Bad | Failed

  class Log {
    var file: seq<Byte>
    var offset: nat
    var pos: nat
    var fileSize: nat
    var xChecksum: nat

    /** `Create`. */
    constructor Create()
      ensures file == File([]) && offset == |file| && xChecksum == Total([]) && fileSize == 0
    {
      file, offset, pos, fileSize, xChecksum := Put(0, 4), 4, 0, 0, 0;
      new;
      assert Body([]) == [];
      assert Put(0, 4) + [] == Put(0, 4);
    }

    constructor (bytes: seq<Byte>)
      ensures file == bytes && pos == 0
    {
      file, offset, pos, fileSize, xChecksum := bytes, 0, 0, 0, 0;
    }

    /** `Log`: the record goes to the end of the file, then the header is replaced. */
    method Append(data: seq<Byte>)
      requires offset == |file| >= 4
      modifies this
      ensures (file, xChecksum) == LogFile.Log(old(file), old(xChecksum), data)
      ensures offset == |file| && pos == old(pos) && fileSize == old(fileSize)
    {
      var log := Record(data);
      Reheaded(file, log, Put(Checksum(xChecksum, log), 4));
      file := file + log;
      offset := offset + |log|;
      xChecksum := Checksum(xChecksum, log);
      file := Put(xChecksum, 4) + file[4..];
    }

    method Rewind()
      modifies this`pos
      ensures pos == 4
    {
      pos := 4;
    }

    /** `next`. */
    method ReadNext() returns (r: Step)
      modifies this`pos
      ensures r == LogFile.Next(file, fileSize, old(pos))
      ensures pos == old(pos) + if r.Got? then |r.log| else 0
    {
      if pos + HEAD >= fileSize {
        return End;
      }
      if pos + 4 > |file| {
        return ReadError;
      }
      var size := Parse(file[pos..pos + 4]);
      if pos + size + HEAD > fileSize {
        return End;
      }
      if pos + HEAD + size > |file| {
        return ReadError;
      }
      var log := file[pos..pos + HEAD + size];
      if Checksum(0, log[HEAD..]) != Parse(log[4..8]) {
        return End;
      }
      pos := pos + |log|;
      return Got(log);
    }

    /** The loop over all records: their checksum, and how reading ended. */
    method Verify() returns (x: nat, how: Step, ghost got: seq<seq<Byte>>)
      modifies this`pos
      ensures Scan(file, fileSize, 4) == (got, pos, how) && x == Total(got) && !how.Got?
    {
      Rewind();
      x, got := 0, [];
      YieldsNothing(file, fileSize, 4);
      assert Total([]) == 0;
      while true
        invariant Yields(file, fileSize, 4, got, pos) && x == Total(got)
        decreases fileSize - pos
      {
        ghost var at := pos;
        how := ReadNext();
        if !how.Got? {
          assert Scan(file, fileSize, at) == ([], at, how);
          assert got + [] == got;
          return;
        }
        GotIsRecord(file, fileSize, at);
        YieldsOne(file, fileSize, 4, got, at);
        TotalNext(got, how.log[HEAD..]);
        x := Checksum(x, how.log);
        got := got + [how.log[HEAD..]];
      }
    }

    /** `init` and `checkAndRemoveTail`: the size is remembered from before the cut. */
    method Init() returns (s: Status)
      modifies this
      ensures s == match LogFile.Open(old(file)) case Opened(_, _, _) => Fine case BadLogFile => Bad case Unreadable => Failed
      ensures s.Fine? ==> LogFile.Open(old(file)) == Opened(file, fileSize, xChecksum) && offset == |file| && pos == 4
      ensures !s.Fine? ==> file == old(file)
    {
      if |file| < 4 {
        return Bad;
      }
      fileSize := |file|;
      xChecksum := Parse(file[..4]);
      ghost var got;
      var x, how;
      x, how, got := Verify();
      if how.ReadError? {
        return Failed;
      }
      ScanEnds(file, fileSize, 4);
      if x != xChecksum {
        return Bad;
      }
      file := file[..pos];
      offset := pos;
      Rewind();
      return Fine;
    }
  }

  lemma {:induction false} ScanEnds(file: seq<Byte>, size: nat, pos: nat)
    requires pos <= size == |file|
    ensures Scan(file, size, pos).1 <= |file|
    decreases size - pos
  {
    var r := Next(file, size, pos);
    if r.Got? {
      ScanEnds(file, size, pos + |r.log|);
    }
  }
}
