/** The index of pages by free space: 41 lists, each holding the pages of one size class. */
module PageIndex {
  import opened Types

  const INTERVALS: nat := 40
  /** The page size divided by the number of size classes, rounded down. */
  const THRESHOLD: nat := 204
  const MAX_FREE: nat := PAGE_SIZE - 2

  datatype Pair = Pair(pgno: nat, free: nat)

  type Lists = ls: seq<seq<Pair>> | |ls| == 41 witness seq(41, i => [])

  function Empty(): Lists {
    seq(41, i => [])
  }

  function Bucket(free: nat): nat {
    free / THRESHOLD
  }

  /** The size class the search starts from. */
  function StartBucket(size: nat): nat {
    var no := Bucket(size);
    if no < INTERVALS then no + 1 else no
  }

  function Add(ls: Lists, pr: Pair): Lists
    requires Bucket(pr.free) <= INTERVALS
  {
    var no := Bucket(pr.free);
    ls[no := ls[no] + [pr]]
  }

  /** The first list with a page, from `no` on. */
  function FirstFrom(ls: Lists, no: nat): (r: Option<nat>)
    ensures r.Some? ==> no <= r.value <= INTERVALS && ls[r.value] != []
    ensures r.None? ==> forall i :: no <= i <= INTERVALS ==> ls[i] == []
    decreases 41 - no
  {
    if no > INTERVALS then None
    else if ls[no] != [] then Some(no)
    else FirstFrom(ls, no + 1)
  }

  function Select(ls: Lists, size: nat): (Lists, Option<Pair>) {
    match FirstFrom(ls, StartBucket(size))
    case None => (ls, None)
    case Some(no) => (ls[no := ls[no][1..]], Some(ls[no][0]))
  }

  /* ----- what is in the lists ----- */

  function Multi(ls: seq<seq<Pair>>): multiset<Pair> {
    if ls == [] then multiset{} else Multi(ls[..|ls| - 1]) + multiset(ls[|ls| - 1])
  }

  lemma {:induction false} MultiUpdate(ls: seq<seq<Pair>>, no: nat, l: seq<Pair>)
    requires no < |ls|
    ensures Multi(ls[no := l]) + multiset(ls[no]) == Multi(ls) + multiset(l)
    decreases |ls|
  {
    var n := |ls| - 1;
    var rs := ls[no := l];
    if no < n {
      MultiUpdate(ls[..n], no, l);
      assert rs[..n] == ls[..n][no := l];
      calc {
        Multi(rs) + multiset(ls[no]);
        Multi(rs[..n]) + multiset(ls[n]) + multiset(ls[no]);
        Multi(ls[..n]) + multiset(l) + multiset(ls[n]);
        Multi(ls) + multiset(l);
      }
    } else {
      assert rs[..n] == ls[..n];
    }
  }

  /** Every page is filed under its size class. */
  ghost predicate Filed(ls: Lists) {
    forall no :: 0 <= no <= INTERVALS ==> FiledUnder(ls[no], no)
  }

  ghost predicate FiledUnder(l: seq<Pair>, no: nat) {
    forall k :: 0 <= k < |l| ==> Bucket(l[k].free) == no
  }

  lemma Cancel(a: multiset<Pair>, b: multiset<Pair>, x: multiset<Pair>, pr: Pair)
    requires a + x == b + (x + multiset{pr})
    ensures a == b + multiset{pr}
  {
    forall q ensures a[q] == (b + multiset{pr})[q] {
      assert (a + x)[q] == (b + (x + multiset{pr}))[q];
    }
  }

  lemma AddMulti(ls: Lists, pr: Pair)
    requires Bucket(pr.free) <= INTERVALS
    ensures Multi(Add(ls, pr)) == Multi(ls) + multiset{pr}
  {
    var no := Bucket(pr.free);
    var l := ls[no];
    MultiUpdate(ls, no, l + [pr]);
    assert multiset(l + [pr]) == multiset(l) + multiset{pr};
    Cancel(Multi(Add(ls, pr)), Multi(ls), multiset(l), pr);
  }

  lemma AddFiled(ls: Lists, pr: Pair)
    requires Bucket(pr.free) <= INTERVALS && Filed(ls)
    ensures Filed(Add(ls, pr))
  {
    var no := Bucket(pr.free);
    assert FiledUnder(ls[no], no);
    assert FiledUnder(ls[no] + [pr], no);
  }

  lemma PopMulti(ls: Lists, no: nat)
    requires no <= INTERVALS && ls[no] != []
    ensures ls[no][0] in Multi(ls) && Multi(ls[no := ls[no][1..]]) == Multi(ls) - multiset{ls[no][0]}
  {
    var l := ls[no];
    assert l == [l[0]] + l[1..];
    MultiUpdate(ls, no, l[1..]);
    var less := Multi(ls[no := l[1..]]);
    assert multiset(l) == multiset(l[1..]) + multiset{l[0]};
    Cancel(Multi(ls), less, multiset(l[1..]), l[0]);
  }

  lemma PopFiled(ls: Lists, no: nat)
    requires no <= INTERVALS && ls[no] != [] && Filed(ls)
    ensures Filed(ls[no := ls[no][1..]])
  {
    assert FiledUnder(ls[no], no);
    assert FiledUnder(ls[no][1..], no);
  }

  /** Selecting takes one page out, or finds that no list from the start class on has one. */
  lemma SelectMeans(ls: Lists, size: nat)
    ensures var (rest, found) := Select(ls, size);
            && (found.None? ==> rest == ls && forall no :: StartBucket(size) <= no <= INTERVALS ==> ls[no] == [])
            && (found.Some? ==> found.value in Multi(ls) && Multi(rest) == Multi(ls) - multiset{found.value})
            && (Filed(ls) ==> Filed(rest))
  {
    match FirstFrom(ls, StartBucket(size)) {
      case None =>
      case Some(no) =>
        PopMulti(ls, no);
        if Filed(ls) {
          PopFiled(ls, no);
        }
    }
  }

  lemma {:induction false} InMulti(ls: seq<seq<Pair>>, pr: Pair)
    ensures pr in Multi(ls) <==> exists no :: 0 <= no < |ls| && pr in ls[no]
    decreases |ls|
  {
    if ls != [] {
      var n := |ls| - 1;
      InMulti(ls[..n], pr);
      assert pr in multiset(ls[n]) <==> pr in ls[n];
      assert forall no :: 0 <= no < n ==> ls[..n][no] == ls[no];
    }
  }

  /** What a page must have to be considered for `size` bytes: one step of 204 bytes above it, but no more than 8160. */
  function Wanted(size: nat): nat {
    if size < 8160 then (size / 204 + 1) * 204 else 8160
  }

  /**
   A page is found if and only if some listed page has what is wanted; and then one is taken that is
   in the lowest size class of all these, and has been in it for the longest time.
   */
  lemma SelectFindsIff(ls: Lists, size: nat)
    requires Filed(ls) && size <= MAX_FREE
    ensures Select(ls, size).1.Some? <==> exists pr :: pr in Multi(ls) && pr.free >= Wanted(size)
    ensures Select(ls, size).1.Some? ==>
      var found := Select(ls, size).1.value;
      && found.free >= Wanted(size) && Bucket(found.free) <= INTERVALS && ls[Bucket(found.free)][0] == found
      && forall pr :: pr in Multi(ls) && pr.free >= Wanted(size) ==> found.free / 204 <= pr.free / 204
  {
    forall pr | pr in Multi(ls)
      ensures Bucket(pr.free) <= INTERVALS && pr in ls[Bucket(pr.free)]
    {
      InMulti(ls, pr);
      var no :| 0 <= no < |ls| && pr in ls[no];
      assert FiledUnder(ls[no], no);
    }
    var r := FirstFrom(ls, StartBucket(size));
    if r.Some? {
      assert FiledUnder(ls[r.value], r.value);
      InMulti(ls, ls[r.value][0]);
      Lowest(ls, StartBucket(size));
    }
  }

  /** All lists before the one found are empty. */
  lemma {:induction false} Lowest(ls: Lists, no: nat)
    requires FirstFrom(ls, no).Some?
    ensures forall i :: no <= i < FirstFrom(ls, no).value ==> ls[i] == []
    decreases 41 - no
  {
    if ls[no] == [] {
      Lowest(ls, no + 1);
    }
  }

  /** The largest size for which every selection fits. */
  const SAFE: nat := INTERVALS * THRESHOLD

  /** The oldest page of the last list has room for a larger item, if there is one. */
  predicate Roomy(ls: Lists, size: nat) {
    size > SAFE && ls[INTERVALS] != [] ==> size <= ls[INTERVALS][0].free
  }

  /** Up to 8160 bytes the selected page has the space asked for, and below that more. */
  lemma SelectFits(ls: Lists, size: nat)
    requires Filed(ls) && size <= SAFE && Select(ls, size).1.Some?
    ensures size <= Select(ls, size).1.value.free
    ensures size < SAFE ==> size < Select(ls, size).1.value.free
  {
    var no := FirstFrom(ls, StartBucket(size)).value;
    assert FiledUnder(ls[no], no);
    var free := ls[no][0].free;
    assert free >= no * THRESHOLD;
    assert size < (Bucket(size) + 1) * THRESHOLD;
  }

  lemma SelectOfRoomyFits(ls: Lists, size: nat)
    requires Filed(ls) && size <= MAX_FREE && Roomy(ls, size) && Select(ls, size).1.Some?
    ensures size <= Select(ls, size).1.value.free
  {
    if size <= SAFE {
      SelectFits(ls, size);
    } else {
      assert Bucket(size) == INTERVALS;
    }
  }

  /** Whatever the index holds, a page selected for `size` bytes has room for them. */
  ghost predicate AlwaysFits(size: nat) {
    forall ls: Lists :: Filed(ls) && Select(ls, size).1.Some? ==> size <= Select(ls, size).1.value.free
  }

  /** Of all sizes that fit on a page, just those up to 8160 are always given a page with room. */
  lemma AlwaysFitsIff(size: nat)
    requires size <= MAX_FREE
    ensures AlwaysFits(size) <==> size <= SAFE
  {
    if size <= SAFE {
      forall ls: Lists | Filed(ls) && Select(ls, size).1.Some? ensures size <= Select(ls, size).1.value.free {
        SelectFits(ls, size);
      }
    } else {
      SelectUndershoots(size);
    }
  }

  lemma SelectUndershoots(size: nat)
    requires INTERVALS * THRESHOLD < size <= MAX_FREE
    ensures exists ls: Lists :: Filed(ls) && Select(ls, size).1.Some? && Select(ls, size).1.value.free < size
  {
    var pr := Pair(2, INTERVALS * THRESHOLD);
    assert Bucket(pr.free) == INTERVALS;
    var ls := Add(Empty(), pr);
    AddFiled(Empty(), pr);
    assert ls[INTERVALS] == [pr];
    assert Bucket(size) == INTERVALS;
    assert Select(ls, size).1.value == pr;
  }

  /** The index object. */
  class Pindex {
    var lists: Lists

    constructor ()
      ensures lists == Empty()
    {
      lists := Empty();
    }

    method Insert(pgno: nat, free: nat)
      requires Bucket(free) <= INTERVALS
      modifies this
      ensures lists == Add(old(lists), Pair(pgno, free))
    {
      var no := free / THRESHOLD;
      lists := lists[no := lists[no] + [Pair(pgno, free)]];
    }

    method Take(size: nat) returns (found: Option<Pair>)
      modifies this
      ensures (lists, found) == Select(old(lists), size)
    {
      var no := size / THRESHOLD;
      if no < INTERVALS {
        no := no + 1;
      }
      while no <= INTERVALS
        invariant lists == old(lists)
        invariant FirstFrom(lists, StartBucket(size)) == FirstFrom(lists, no)
      {
        if |lists[no]| == 0 {
          no := no + 1;
          continue;
        }
        var pr := lists[no][0];
        lists := lists[no := lists[no][1..]];
        found := Some(pr);
        return;
      }
      found := None;
    }
  }
}

/** Who has which page: the index, or one insertion in flight. */
module Allocation {
  import opened Types
  import opened PageIndex

  /** How far an insertion is in getting a page. */
  datatype Own =
    | Seeking(size: nat, tries: nat)
    | Growing(size: nat, tries: nat)
    | Fresh(size: nat, tries: nat, pgno: nat)
    | Holding(size: nat, pgno: nat, listed: nat)

  /** `free` is the true free space of every data page, `holder` the insertion that has the page. */
  datatype State = State(lists: Lists, noPages: nat, free: map<nat, nat>, holder: map<nat, nat>, own: map<nat, Own>)

  const TRIES: nat := 5

  predicate Has(o: Own, p: nat) {
    (o.Fresh? || o.Holding?) && o.pgno == p
  }

  /** Insertion `t` asks for `size` bytes. */
  function Begin(s: State, t: nat, size: nat): State {
    s.(own := s.own[t := Seeking(size, 0)])
  }

  function Seek(s: State, t: nat): State
    requires t in s.own && s.own[t].Seeking?
  {
    var o := s.own[t];
    var (rest, found) := Select(s.lists, o.size);
    match found
    case Some(pr) => 
      State(rest, s.noPages, s.free, s.holder[pr.pgno := t], s.own[t := Holding(o.size, pr.pgno, pr.free)])
    case None => s.(own := s.own[t := Growing(o.size, o.tries)])
  }

  function Grow(s: State, t: nat): State
    requires t in s.own && s.own[t].Growing?
  {
    var o := s.own[t];
    var p := s.noPages + 1;
    State(s.lists, p, s.free[p := MAX_FREE], s.holder[p := t], s.own[t := Fresh(o.size, o.tries, p)])
  }

  /** The new page goes to the index, where any insertion may find it first. */
  function Shelve(s: State, t: nat): State
    requires t in s.own && s.own[t].Fresh?
  {
    var o := s.own[t];
    assert Bucket(MAX_FREE) == INTERVALS;
    State(Add(s.lists, Pair(o.pgno, MAX_FREE)), s.noPages, s.free, s.holder - {o.pgno}, s.own[t := Seeking(o.size, o.tries + 1)])
  }

  /** The insertion has used `size` bytes of its page. */
  function Use(s: State, t: nat): State
    requires t in s.own && s.own[t].Holding? && s.own[t].pgno in s.free && s.own[t].size <= s.free[s.own[t].pgno]
  {
    var o := s.own[t];
    s.(free := s.free[o.pgno := s.free[o.pgno] - o.size])
  }

  /** The page goes back to the index under its free space. */
  function Return(s: State, t: nat): State
    requires t in s.own && s.own[t].Holding? && s.own[t].pgno in s.free && Bucket(s.free[s.own[t].pgno]) <= INTERVALS
  {
    var p := s.own[t].pgno;
    State(Add(s.lists, Pair(p, s.free[p])), s.noPages, s.free, s.holder - {p}, s.own - {t})
  }

  /** The page goes back under the free space it was listed with. */
  function Restore(s: State, t: nat): State
    requires t in s.own && s.own[t].Holding? && Bucket(s.own[t].listed) <= INTERVALS
  {
    var o := s.own[t];
    State(Add(s.lists, Pair(o.pgno, o.listed)), s.noPages, s.free, s.holder - {o.pgno}, s.own - {t})
  }

  /** The insertion gives up without a page. */
  function Leave(s: State, t: nat): State {
    s.(own := s.own - {t})
  }

  /* ----- the invariant ----- */

  ghost predicate Measured(noPages: nat, free: map<nat, nat>) {
    && noPages >= 1
    && (forall p :: p in free <==> 2 <= p <= noPages)
    && (forall p :: p in free ==> free[p] <= MAX_FREE)
  }

  /** A page is listed once, under its true free space, or held, and never both. */
  ghost predicate Counts(ms: multiset<Pair>, free: map<nat, nat>, holder: map<nat, nat>) {
    && (forall pr :: pr in ms ==>
          pr.pgno in free && pr.free == free[pr.pgno] && ms[pr] == 1 && pr.pgno !in holder)
    && (forall p :: p in free ==> p in holder || Pair(p, free[p]) in ms)
    && (forall p :: p in holder ==> p in free)
  }

  /** `holder` and the insertions agree. */
  ghost predicate Agree(own: map<nat, Own>, holder: map<nat, nat>) {
    && (forall t, p :: t in own && Has(own[t], p) ==> p in holder && holder[p] == t)
    && (forall p :: p in holder ==> holder[p] in own && Has(own[holder[p]], p))
  }

  ghost predicate FreshIsEmpty(own: map<nat, Own>, free: map<nat, nat>) {
    forall t :: t in own && own[t].Fresh? ==> own[t].pgno in free && free[own[t].pgno] == MAX_FREE
  }

  ghost predicate Inv(s: State) {
    && Filed(s.lists) && Measured(s.noPages, s.free) && Counts(Multi(s.lists), s.free, s.holder)
    && Agree(s.own, s.holder) && FreshIsEmpty(s.own, s.free)
  }

  ghost predicate HeldBy(s: State, t: nat, p: nat) {
    t in s.own && Has(s.own[t], p)
  }

  /**
   * Each data page is at all times in exactly one place: listed once, under its true free space,
   * or with exactly one insertion in flight.
   */
  lemma Conservation(s: State, p: nat)
    requires Inv(s) && 2 <= p <= s.noPages
    ensures p in s.free
    ensures (exists t :: HeldBy(s, t, p)) <==> Multi(s.lists)[Pair(p, s.free[p])] == 0
    ensures (forall t :: !HeldBy(s, t, p)) <==> Multi(s.lists)[Pair(p, s.free[p])] == 1
    ensures forall t, v :: HeldBy(s, t, p) && HeldBy(s, v, p) ==> t == v
    ensures forall f :: f != s.free[p] ==> Multi(s.lists)[Pair(p, f)] == 0
  {
    if p in s.holder {
      assert HeldBy(s, s.holder[p], p);
    }
    forall f | f != s.free[p] ensures Multi(s.lists)[Pair(p, f)] == 0 {
      assert Pair(p, f) !in Multi(s.lists);
    }
  }

  /* ----- every step keeps it ----- */

  lemma BucketBound(free: nat)
    requires free <= MAX_FREE
    ensures Bucket(free) <= INTERVALS
  {
  }

  /** Only `t` may stand differently. */
  ghost predicate Others(own: map<nat, Own>, own1: map<nat, Own>, t: nat) {
    forall v :: v != t ==> (v in own1 <==> v in own) && (v in own ==> own1[v] == own[v])
  }

  ghost predicate NoPage(own: map<nat, Own>, t: nat) {
    t in own ==> own[t].Seeking? || own[t].Growing?
  }

  /** Changing how `t` stands without touching pages. */
  lemma OwnFrame(s: State, s1: State, t: nat)
    requires Inv(s) && s1.lists == s.lists && s1.noPages == s.noPages && s1.free == s.free && s1.holder == s.holder
    requires NoPage(s.own, t)
    requires Others(s.own, s1.own, t)
    requires NoPage(s1.own, t)
    ensures Inv(s1)
  {
    AgreeFrame(s.own, s1.own, s.holder, t);
    FreshFrame(s.own, s1.own, s.free, t);
  }

  lemma AgreeFrame(own: map<nat, Own>, own1: map<nat, Own>, holder: map<nat, nat>, t: nat)
    requires Agree(own, holder)
    requires NoPage(own, t)
    requires Others(own, own1, t)
    requires NoPage(own1, t)
    ensures Agree(own1, holder)
  {
  }

  lemma FreshFrame(own: map<nat, Own>, own1: map<nat, Own>, free: map<nat, nat>, t: nat)
    requires FreshIsEmpty(own, free)
    requires Others(own, own1, t)
    requires t in own1 && own1[t].Fresh? ==> own1[t].pgno in free && free[own1[t].pgno] == MAX_FREE
    ensures FreshIsEmpty(own1, free)
  {
  }

  lemma BeginKeeps(s: State, t: nat, size: nat)
    requires Inv(s) && t !in s.own
    ensures Inv(Begin(s, t, size))
  {
    OwnFrame(s, Begin(s, t, size), t);
  }

  lemma LeaveKeeps(s: State, t: nat)
    requires Inv(s) && (t in s.own ==> s.own[t].Seeking? || s.own[t].Growing?)
    ensures Inv(Leave(s, t))
  {
    OwnFrame(s, Leave(s, t), t);
  }

  lemma CountsTake(ms: multiset<Pair>, free: map<nat, nat>, holder: map<nat, nat>, pr: Pair, t: nat)
    requires Counts(ms, free, holder) && pr in ms
    ensures pr.pgno in free && pr.free == free[pr.pgno] && pr.pgno !in holder
    ensures Counts(ms - multiset{pr}, free, holder[pr.pgno := t])
  {
  }

  lemma CountsGive(ms: multiset<Pair>, free: map<nat, nat>, holder: map<nat, nat>, p: nat)
    requires Counts(ms, free, holder) && p in holder
    ensures Counts(ms + multiset{Pair(p, free[p])}, free, holder - {p})
  {
  }

  lemma CountsGrow(ms: multiset<Pair>, free: map<nat, nat>, holder: map<nat, nat>, p: nat, f: nat, t: nat)
    requires Counts(ms, free, holder) && p !in free
    ensures Counts(ms, free[p := f], holder[p := t])
  {
  }

  lemma CountsUse(ms: multiset<Pair>, free: map<nat, nat>, holder: map<nat, nat>, p: nat, f: nat)
    requires Counts(ms, free, holder) && p in holder
    ensures Counts(ms, free[p := f], holder)
  {
  }

  /** No two insertions hold the same page. */
  lemma OneHolder(own: map<nat, Own>, holder: map<nat, nat>, t: nat, v: nat)
    requires Agree(own, holder) && t in own && own[t].Holding? && v in own && own[v].Holding? && t != v
    ensures own[t].pgno != own[v].pgno
  {
    var p, q := own[t].pgno, own[v].pgno;
    assert Has(own[t], p) && Has(own[v], q);
    assert p in holder && holder[p] == t;
    assert q in holder && holder[q] == v;
  }

  lemma FreshSet(own: map<nat, Own>, free: map<nat, nat>, t: nat, o: Own)
    requires FreshIsEmpty(own, free) && !o.Fresh?
    ensures FreshIsEmpty(own[t := o], free)
  {
  }

  lemma AgreeTake(own: map<nat, Own>, holder: map<nat, nat>, t: nat, o: Own, p: nat)
    requires Agree(own, holder) && p !in holder && Has(o, p) && NoPage(own, t)
    ensures Agree(own[t := o], holder[p := t])
  {
  }

  lemma AgreeGive(own: map<nat, Own>, own1: map<nat, Own>, holder: map<nat, nat>, t: nat, p: nat)
    requires Agree(own, holder) && t in own && Has(own[t], p)
    requires Others(own, own1, t)
    requires NoPage(own1, t)
    ensures Agree(own1, holder - {p})
  {
    forall v, q | v in own1 && Has(own1[v], q) ensures q in holder - {p} && holder[q] == v {
      assert v != t && Has(own[v], q);
      assert holder[q] == v && holder[p] == t;
    }
    forall q | q in holder - {p} ensures holder[q] in own1 && Has(own1[holder[q]], q) {
      assert holder[q] != t;
    }
  }

  lemma SeekKeeps(s: State, t: nat)
    requires Inv(s) && t in s.own && s.own[t].Seeking?
    ensures Inv(Seek(s, t))
  {
    var s1 := Seek(s, t);
    SelectMeans(s.lists, s.own[t].size);
    match Select(s.lists, s.own[t].size).1 {
      case None => OwnFrame(s, s1, t);
      case Some(pr) =>
        CountsTake(Multi(s.lists), s.free, s.holder, pr, t);
        AgreeTake(s.own, s.holder, t, s1.own[t], pr.pgno);
        FreshSet(s.own, s.free, t, s1.own[t]);
    }
  }

  lemma GrowKeeps(s: State, t: nat)
    requires Inv(s) && t in s.own && s.own[t].Growing?
    ensures Inv(Grow(s, t))
  {
    var s1, n := Grow(s, t), s.noPages + 1;
    CountsGrow(Multi(s.lists), s.free, s.holder, n, MAX_FREE, t);
    AgreeTake(s.own, s.holder, t, s1.own[t], n);
    FreshSet(s.own, s.free, t, s.own[t]);
    assert FreshIsEmpty(s1.own, s1.free);
  }

  /** A page goes from insertion `t` to the index. */
  lemma GiveKeeps(s: State, s1: State, t: nat, p: nat)
    requires Inv(s) && t in s.own && Has(s.own[t], p) && p in s.free && Bucket(s.free[p]) <= INTERVALS
    requires s1.lists == Add(s.lists, Pair(p, s.free[p])) && s1.noPages == s.noPages && s1.free == s.free
    requires s1.holder == s.holder - {p}
    requires Others(s.own, s1.own, t)
    requires NoPage(s1.own, t)
    ensures Inv(s1)
  {
    GiveCounts(s.lists, s.free, s.holder, p);
    AgreeGive(s.own, s1.own, s.holder, t, p);
    FreshGive(s.own, s1.own, s.free, t);
  }

  lemma GiveCounts(ls: Lists, free: map<nat, nat>, holder: map<nat, nat>, p: nat)
    requires Filed(ls) && Counts(Multi(ls), free, holder) && p in holder && p in free && Bucket(free[p]) <= INTERVALS
    ensures Filed(Add(ls, Pair(p, free[p]))) && Counts(Multi(Add(ls, Pair(p, free[p]))), free, holder - {p})
  {
    AddMulti(ls, Pair(p, free[p]));
    AddFiled(ls, Pair(p, free[p]));
    CountsGive(Multi(ls), free, holder, p);
  }

  lemma FreshGive(own: map<nat, Own>, own1: map<nat, Own>, free: map<nat, nat>, t: nat)
    requires FreshIsEmpty(own, free) && Others(own, own1, t) && NoPage(own1, t)
    ensures FreshIsEmpty(own1, free)
  {
  }

  lemma ShelveKeeps(s: State, t: nat)
    requires Inv(s) && t in s.own && s.own[t].Fresh?
    ensures Inv(Shelve(s, t))
  {
    assert Has(s.own[t], s.own[t].pgno);
    BucketBound(MAX_FREE);
    GiveKeeps(s, Shelve(s, t), t, s.own[t].pgno);
  }

  lemma ReturnKeeps(s: State, t: nat)
    requires Inv(s) && t in s.own && s.own[t].Holding?
    ensures s.own[t].pgno in s.free && Bucket(s.free[s.own[t].pgno]) <= INTERVALS
    ensures Inv(Return(s, t))
  {
    assert Has(s.own[t], s.own[t].pgno);
    BucketBound(s.free[s.own[t].pgno]);
    GiveKeeps(s, Return(s, t), t, s.own[t].pgno);
  }

  lemma UseKeeps(s: State, t: nat)
    requires Inv(s) && t in s.own && s.own[t].Holding? && s.own[t].pgno in s.free
    requires s.own[t].size <= s.free[s.own[t].pgno]
    ensures Inv(Use(s, t))
  {
    var p := s.own[t].pgno;
    assert Has(s.own[t], p);
    CountsUse(Multi(s.lists), s.free, s.holder, p, s.free[p] - s.own[t].size);
    forall v | v in s.own && s.own[v].Fresh? ensures s.own[v].pgno != p {
      assert Has(s.own[v], s.own[v].pgno);
    }
  }

  /** The page found is fit for the item. */
  lemma SeekFits(s: State, t: nat)
    requires Inv(s) && t in s.own && s.own[t].Seeking? && s.own[t].size <= MAX_FREE && Roomy(s.lists, s.own[t].size)
    requires Seek(s, t).own[t].Holding?
    ensures var o := Seek(s, t).own[t]; o.size == s.own[t].size && o.pgno in s.free && o.listed == s.free[o.pgno] && o.size <= o.listed
  {
    SelectMeans(s.lists, s.own[t].size);
    SelectOfRoomyFits(s.lists, s.own[t].size);
  }

  /** With nobody else around, an insertion has its page after at most one new page. */
  lemma LoneInsertNotBusy(s: State, t: nat)
    requires Inv(s) && t in s.own && s.own[t].Seeking? && s.own[t].tries == 0 && s.own[t].size <= MAX_FREE
    ensures var s1 := Seek(s, t);
            s1.own[t].Holding? || (s1.own[t].Growing? && Seek(Shelve(Grow(s1, t), t), t).own[t].Holding?)
  {
    var s1 := Seek(s, t);
    if s1.own[t].Growing? {
      var s3 := Shelve(Grow(s1, t), t);
      ShelvedIsFound(Grow(s1, t).lists, s1.noPages + 1, s.own[t].size);
    }
  }

  lemma ShelvedIsFound(ls: Lists, p: nat, size: nat)
    requires size <= MAX_FREE
    ensures Bucket(MAX_FREE) == INTERVALS && Select(Add(ls, Pair(p, MAX_FREE)), size).1.Some?
    ensures Select(ls, size).1.None? ==> Roomy(Add(ls, Pair(p, MAX_FREE)), size)
  {
    BucketBound(size);
    var ls1 := Add(ls, Pair(p, MAX_FREE));
    assert ls1[INTERVALS] != [];
    if Select(ls, size).1.None? {
      assert ls[INTERVALS] == [];
      assert ls1[INTERVALS] == [Pair(p, MAX_FREE)];
    }
  }
}
