/** Where the log of the data manager comes from, and when an insertion gives up, over whole runs. */
module DataTraces {
  import opened Types
  import opened Bytes
  import opened Recovery
  import opened LogRecords
  import opened DataItems
  import opened PageIndex
  import opened DataRuns
  import opened DataGuarantees
  import A = Allocation

  /* ----- who asked for what is logged ----- */

  /** An insertion was begun with this xid and this data, wrapped. */
  ghost predicate Begun(ops: seq<Op>, t: nat, xid: nat, raw: seq<Byte>) {
    exists j :: 0 <= j < |ops| && ops[j].Begin? && ops[j].t == t && ops[j].xid == xid && Wrap(ops[j].data) == raw
  }

  /** It was begun in `ops`, or is in flight in `s`. */
  ghost predicate From(s: State, ops: seq<Op>, t: nat, xid: nat, raw: seq<Byte>) {
    (t in s.ins && s.ins[t].xid == xid && s.ins[t].raw == raw) || Begun(ops, t, xid, raw)
  }

  /** A change was finished with this xid. */
  ghost predicate Changed(ops: seq<Op>, xid: nat) {
    exists j :: 0 <= j < |ops| && ops[j].After? && ops[j].xid == xid
  }

  ghost predicate AskedFor(s: State, ops: seq<Op>, r: Rec) {
    if r.Insertion? then exists t :: From(s, ops, t, r.xid, r.raw) else Changed(ops, r.xid)
  }

  /** What is in flight and what is logged in `s1` goes back to `ops` and `s`. */
  ghost predicate Traced(s: State, ops: seq<Op>, s1: State) {
    && (forall t :: t in s1.ins ==> From(s, ops, t, s1.ins[t].xid, s1.ins[t].raw))
    && |s.log| <= |s1.log| && s1.log[..|s.log|] == s.log
    && (forall i :: |s.log| <= i < |s1.log| ==> AskedFor(s, ops, s1.log[i]))
  }

  /** An insertion keeps its xid and its item from step to step, and only a Begin starts one. */
  ghost predicate Carries(ins: map<nat, Ins>, ins1: map<nat, Ins>, op: Op) {
    && (forall t :: t in ins ==> t in ins1 && ins1[t].xid == ins[t].xid && ins1[t].raw == ins[t].raw)
    && (forall t :: t in ins1 && t !in ins ==>
          op.Begin? && op.t == t && ins1[t].xid == op.xid && ins1[t].raw == Wrap(op.data))
  }

  lemma StartCarries(s: State, op: Op)
    requires Legal(s, op) && (op.Seek? || op.Grow? || op.Shelve? || op.GiveUp? || op.Fetch? || op.FetchFail?)
    ensures Carries(s.ins, Step(s, op).ins, op)
  {
  }

  lemma BeginIs(s: State, t: nat, xid: nat, data: seq<Byte>)
    requires Legal(s, Begin(t, xid, data))
    ensures var s1, raw := Step(s, Begin(t, xid, data)), Wrap(data);
            if |raw| > MAX_FREE then s1 == s.(ins := s.ins[t := Ins(xid, raw, Failed)])
            else s1 == s.(a := A.Begin(s.a, t, |raw|), ins := s.ins[t := Ins(xid, raw, Seeks)])
  {
  }

  lemma OneCarries(ins: map<nat, Ins>, i: Ins, op: Op)
    requires op.Begin? && op.t !in ins && i.xid == op.xid && i.raw == Wrap(op.data)
    ensures Carries(ins, ins[op.t := i], op)
  {
  }

  lemma BeginCarries(s: State, t: nat, xid: nat, data: seq<Byte>)
    requires Legal(s, Begin(t, xid, data))
    ensures Carries(s.ins, Step(s, Begin(t, xid, data)).ins, Begin(t, xid, data))
    ensures forall v :: v in Step(s, Begin(t, xid, data)).a.own ==> v in s.a.own || v == t
  {
    BeginIs(s, t, xid, data);
    OneCarries(s.ins, Ins(xid, Wrap(data), Failed), Begin(t, xid, data));
    OneCarries(s.ins, Ins(xid, Wrap(data), Seeks), Begin(t, xid, data));
  }

  lemma PutCarries(s: State, op: Op)
    requires Legal(s, op) && (op.Log? || op.LogFail? || op.Apply? || op.Release? || op.Return?)
    ensures Carries(s.ins, Step(s, op).ins, op)
  {
  }

  lemma UseCarries(s: State, op: Op)
    requires Legal(s, op) && (op.Open? || op.Before? || op.Modify? || op.UnBefore? || op.After? || op.Close?)
    ensures Carries(s.ins, Step(s, op).ins, op)
  {
  }

  lemma StepCarries(s: State, op: Op)
    requires Legal(s, op)
    ensures Carries(s.ins, Step(s, op).ins, op)
  {
    if op.Log? || op.LogFail? || op.Apply? || op.Release? || op.Return? {
      PutCarries(s, op);
    } else if op.Open? || op.Before? || op.Modify? || op.UnBefore? || op.After? || op.Close? {
      UseCarries(s, op);
    } else if op.Begin? {
      BeginCarries(s, op.t, op.xid, op.data);
    } else {
      StartCarries(s, op);
    }
  }

  lemma StepIns(s: State, op: Op)
    requires Legal(s, op)
    ensures forall t :: t in Step(s, op).ins ==> From(s, [op], t, Step(s, op).ins[t].xid, Step(s, op).ins[t].raw)
  {
    StepCarries(s, op);
    assert [op][0] == op;
  }

  lemma StepLog(s: State, op: Op)
    requires Legal(s, op)
    ensures var s1 := Step(s, op);
            s1.log == s.log || (|s1.log| == |s.log| + 1 && s1.log[..|s.log|] == s.log && AskedFor(s, [op], s1.log[|s.log|]))
  {
    if op.Log? {
      assert From(s, [op], op.t, s.ins[op.t].xid, s.ins[op.t].raw);
    } else if op.After? {
      assert [op][0] == op;
    }
  }

  lemma FromLater(s: State, op: Op, ops: seq<Op>, t: nat, xid: nat, raw: seq<Byte>)
    requires Legal(s, op) && From(Step(s, op), ops, t, xid, raw)
    ensures From(s, [op] + ops, t, xid, raw)
  {
    if Begun(ops, t, xid, raw) {
      var j :| 0 <= j < |ops| && ops[j].Begin? && ops[j].t == t && ops[j].xid == xid && Wrap(ops[j].data) == raw;
      assert ([op] + ops)[j + 1] == ops[j];
    } else {
      StepIns(s, op);
      FromSooner(s, op, ops, t, xid, raw);
    }
  }

  lemma FromSooner(s: State, op: Op, ops: seq<Op>, t: nat, xid: nat, raw: seq<Byte>)
    requires From(s, [op], t, xid, raw)
    ensures From(s, [op] + ops, t, xid, raw)
  {
    if Begun([op], t, xid, raw) {
      assert ([op] + ops)[0] == op;
    }
  }

  lemma AskedLater(s: State, op: Op, ops: seq<Op>, r: Rec)
    requires Legal(s, op) && AskedFor(Step(s, op), ops, r)
    ensures AskedFor(s, [op] + ops, r)
  {
    if r.Insertion? {
      var t :| From(Step(s, op), ops, t, r.xid, r.raw);
      FromLater(s, op, ops, t, r.xid, r.raw);
    } else {
      var j :| 0 <= j < |ops| && ops[j].After? && ops[j].xid == r.xid;
      assert ([op] + ops)[j + 1] == ops[j];
    }
  }

  lemma AskedSooner(s: State, op: Op, ops: seq<Op>, r: Rec)
    requires AskedFor(s, [op], r)
    ensures AskedFor(s, [op] + ops, r)
  {
    if r.Insertion? {
      var t :| From(s, [op], t, r.xid, r.raw);
      FromSooner(s, op, ops, t, r.xid, r.raw);
    } else {
      assert ([op] + ops)[0] == op;
    }
  }

  lemma TracedStep(s: State, op: Op, ops: seq<Op>, s1: State)
    requires Legal(s, op) && Traced(Step(s, op), ops, s1)
    ensures Traced(s, [op] + ops, s1)
  {
    var mid := Step(s, op);
    forall t | t in s1.ins ensures From(s, [op] + ops, t, s1.ins[t].xid, s1.ins[t].raw) {
      FromLater(s, op, ops, t, s1.ins[t].xid, s1.ins[t].raw);
    }
    StepLog(s, op);
    assert s1.log[..|s.log|] == s1.log[..|mid.log|][..|s.log|];
    forall i | |s.log| <= i < |s1.log| ensures AskedFor(s, [op] + ops, s1.log[i]) {
      if i < |mid.log| {
        assert s1.log[i] == s1.log[..|mid.log|][i];
        AskedSooner(s, op, ops, mid.log[i]);
      } else {
        AskedLater(s, op, ops, s1.log[i]);
      }
    }
  }

  lemma {:induction false} TracedRun(s: State, ops: seq<Op>, s1: State)
    requires Reaches(s, ops, s1)
    ensures Traced(s, ops, s1)
    decreases |ops|
  {
    if ops != [] {
      TracedRun(Step(s, ops[0]), ops[1..], s1);
      TracedStep(s, ops[0], ops[1..], s1);
      assert [ops[0]] + ops[1..] == ops;
    }
  }

  /**
   * In every run the log says who did what: an insertion record has the xid and the wrapped data of
   * an insertion that was begun, and an update record the xid of a change that was finished.
   */
  lemma LogSaysWho(page1: seq<Byte>, ops: seq<Op>, s: State, i: nat)
    requires |page1| == PAGE_SIZE && Reaches(Initial(page1), ops, s) && i < |s.log|
    ensures if s.log[i].Insertion? then exists t :: Begun(ops, t, s.log[i].xid, s.log[i].raw) else Changed(ops, s.log[i].xid)
  {
    TracedRun(Initial(page1), ops, s);
    assert AskedFor(Initial(page1), ops, s.log[i]);
    if s.log[i].Insertion? {
      var t :| From(Initial(page1), ops, t, s.log[i].xid, s.log[i].raw);
      assert Begun(ops, t, s.log[i].xid, s.log[i].raw);
    }
  }

  /* ----- when an insertion gives up ----- */

  /** How many new pages insertion `t` has added and left to others. */
  function Shelves(ops: seq<Op>, t: nat): nat
    decreases |ops|
  {
    if ops == [] then 0 else (if ops[0] == Shelve(t) then 1 else 0) + Shelves(ops[1..], t)
  }

  /** The insertion is looking for a page. */
  predicate Looks(s: State, t: nat) {
    t in s.a.own && !s.a.own[t].Holding?
  }

  predicate OwnersInsert(s: State) {
    forall t :: t in s.a.own ==> t in s.ins
  }

  /** No step gives an owner to an insertion that has not begun. */
  lemma OwnersStay(s: State, op: Op)
    requires Legal(s, op) && OwnersInsert(s)
    ensures OwnersInsert(Step(s, op))
  {
    StepCarries(s, op);
    forall t | t in Step(s, op).a.own && t !in s.a.own ensures t in Step(s, op).ins {
      NewOwner(s, op, t);
    }
  }

  lemma NewOwner(s: State, op: Op, t: nat)
    requires Legal(s, op) && t in Step(s, op).a.own && t !in s.a.own
    ensures op.Begin? && op.t == t && t in Step(s, op).ins
  {
    if op.Begin? {
      BeginCarries(s, op.t, op.xid, op.data);
    } else if op.Seek? || op.Grow? || op.Shelve? || op.GiveUp? || op.FetchFail? {
      SearchOwners(s, op, t);
    } else {
      OtherOwners(s, op, t);
    }
  }

  lemma SearchOwners(s: State, op: Op, t: nat)
    requires Legal(s, op) && (op.Seek? || op.Grow? || op.Shelve? || op.GiveUp? || op.FetchFail?)
    ensures t in Step(s, op).a.own ==> t in s.a.own
  {
  }

  lemma OtherOwners(s: State, op: Op, t: nat)
    requires Legal(s, op)
    requires !op.Begin? && !op.Seek? && !op.Grow? && !op.Shelve? && !op.GiveUp? && !op.FetchFail?
    ensures t in Step(s, op).a.own ==> t in s.a.own
  {
  }

  /** No step gives an insertion back to the search once it has left it. */
  lemma LooksStep(s: State, op: Op, t: nat)
    requires Legal(s, op) && Looks(Step(s, op), t) && OwnersInsert(s)
    ensures (Looks(s, t) && Step(s, op).a.own[t].tries == s.a.own[t].tries + if op == Shelve(t) then 1 else 0)
            || (t !in s.ins && !Looks(s, t) && op.Begin? && op.t == t && Step(s, op).a.own[t].tries == 0)
  {
    if op.Begin? {
      BeginIs(s, op.t, op.xid, op.data);
    } else if op.Seek? || op.Grow? || op.Shelve? || op.GiveUp? || op.FetchFail? {
      SearchLooks(s, op, t);
    } else {
      OtherLooks(s, op, t);
    }
  }

  lemma SearchLooks(s: State, op: Op, t: nat)
    requires Legal(s, op) && (op.Seek? || op.Grow? || op.Shelve? || op.GiveUp? || op.FetchFail?) && Looks(Step(s, op), t)
    ensures Looks(s, t) && Step(s, op).a.own[t].tries == s.a.own[t].tries + if op == Shelve(t) then 1 else 0
  {
  }

  lemma OtherLooks(s: State, op: Op, t: nat)
    requires Legal(s, op) && Looks(Step(s, op), t)
    requires !op.Begin? && !op.Seek? && !op.Grow? && !op.Shelve? && !op.GiveUp? && !op.FetchFail?
    ensures Looks(s, t) && Step(s, op).a.own[t] == s.a.own[t]
  {
  }

  lemma InsStay(s: State, op: Op, t: nat)
    requires Legal(s, op) && t in s.ins
    ensures t in Step(s, op).ins
  {
    StepCarries(s, op);
  }

  lemma {:induction false} LooksNoMore(s: State, ops: seq<Op>, s1: State, t: nat)
    requires Reaches(s, ops, s1) && t in s.ins && !Looks(s, t) && OwnersInsert(s)
    ensures !Looks(s1, t)
    decreases |ops|
  {
    if ops != [] {
      OwnersStay(s, ops[0]);
      InsStay(s, ops[0], t);
      if Looks(Step(s, ops[0]), t) {
        LooksStep(s, ops[0], t);
      }
      LooksNoMore(Step(s, ops[0]), ops[1..], s1, t);
    }
  }

  lemma {:induction false} TriesAreShelves(s: State, ops: seq<Op>, s1: State, t: nat)
    requires Reaches(s, ops, s1) && Looks(s1, t) && OwnersInsert(s)
    ensures s1.a.own[t].tries == (if Looks(s, t) then s.a.own[t].tries else 0) + Shelves(ops, t)
    decreases |ops|
  {
    if ops != [] {
      var mid := Step(s, ops[0]);
      OwnersStay(s, ops[0]);
      TriesAreShelves(mid, ops[1..], s1, t);
      if Looks(mid, t) {
        LooksStep(s, ops[0], t);
      } else if t in mid.ins {
        LooksNoMore(mid, ops[1..], s1, t);
      } else {
        NotBegun(s, ops[0], t);
      }
    }
  }

  lemma NotBegun(s: State, op: Op, t: nat)
    requires Legal(s, op) && OwnersInsert(s) && t !in Step(s, op).ins
    ensures op != Shelve(t) && !Looks(s, t)
  {
    if t in s.ins {
      InsStay(s, op, t);
    }
  }

  /** An insertion that finds no page gives up exactly after five new pages of its own have gone to others. */
  lemma GivesUpIff(page1: seq<Byte>, ops: seq<Op>, s: State, t: nat)
    requires |page1| == PAGE_SIZE && Reaches(Initial(page1), ops, s)
    requires t in s.ins && t in s.a.own && s.a.own[t].Seeking?
    ensures Legal(s, GiveUp(t)) <==> Shelves(ops, t) >= 5
    ensures Legal(s, Seek(t)) <==> Shelves(ops, t) < 5 && Roomy(s.a.lists, s.a.own[t].size)
  {
    TriesAreShelves(Initial(page1), ops, s, t);
  }
}
