/**
 How empty lands are shared out: first to the flower demands, race demands before all others, then by the two
 auto-replant loops to the flowers with the least stock. Stocks and counts are unbounded integers.
 */
module Replant {
  import opened Common

  datatype Candidate = Candidate(flower: int, stock: int)

  datatype Assignment = Assignment(flower: int, count: int)

  // ----- the order of candidates: least stock first, then least id -----

  predicate Before(a: Candidate, b: Candidate) { a.stock < b.stock || (a.stock == b.stock && a.flower <= b.flower) }

  predicate Sorted(s: seq<Candidate>) { forall i, j :: 0 <= i <= j < |s| ==> Before(s[i], s[j]) }

  function Insert(c: Candidate, s: seq<Candidate>): (r: seq<Candidate>)
    ensures |r| == |s| + 1
  {
    if s == [] then [c]
    else if Before(c, s[0]) then [c] + s
    else [s[0]] + Insert(c, s[1..])
  }

  lemma {:induction false} InsertMembers(c: Candidate, s: seq<Candidate>)
    ensures forall x :: x in Insert(c, s) <==> x == c || x in s
  {
    if s != [] && !Before(c, s[0]) { InsertMembers(c, s[1..]); }
  }

  lemma {:induction false} InsertBag(c: Candidate, s: seq<Candidate>)
    ensures multiset(Insert(c, s)) == multiset(s) + multiset{c}
  {
    if s != [] {
      assert s == [s[0]] + s[1..];
      if !Before(c, s[0]) { InsertBag(c, s[1..]); }
    }
  }

  lemma {:induction false} InsertSorted(c: Candidate, s: seq<Candidate>)
    requires Sorted(s)
    ensures Sorted(Insert(c, s))
  {
    if s != [] && !Before(c, s[0]) {
      InsertSorted(c, s[1..]);
      InsertMembers(c, s[1..]);
      var r := Insert(c, s[1..]);
      forall i | 0 <= i < |r| ensures Before(s[0], r[i]) {
        assert r[i] in r;
      }
    }
  }

  /** `sort.Slice` by stock and id. */
  function SortOf(s: seq<Candidate>): (r: seq<Candidate>)
    ensures |r| == |s|
  {
    if s == [] then [] else Insert(s[0], SortOf(s[1..]))
  }

  lemma {:induction false} SortOfSorts(s: seq<Candidate>)
    ensures Sorted(SortOf(s)) && multiset(SortOf(s)) == multiset(s)
  {
    if s != [] {
      assert s == [s[0]] + s[1..];
      SortOfSorts(s[1..]);
      InsertBag(s[0], SortOf(s[1..]));
      InsertSorted(s[0], SortOf(s[1..]));
    }
  }

  lemma HeadOut(s: seq<Candidate>)
    requires s != []
    ensures multiset(s) == multiset(s[1..]) + multiset{s[0]}
  {
    assert s == [s[0]] + s[1..];
  }

  lemma SameHead(s: seq<Candidate>, t: seq<Candidate>)
    requires Sorted(s) && Sorted(t) && multiset(s) == multiset(t) && s != [] && t != []
    ensures s[0] == t[0]
  {
    assert s[0] in multiset(t) && t[0] in multiset(s);
    var i :| 0 <= i < |t| && t[i] == s[0];
    var j :| 0 <= j < |s| && s[j] == t[0];
    assert Before(s[0], s[j]) && Before(t[0], t[i]);
  }

  lemma {:induction false} SortedUnique(s: seq<Candidate>, t: seq<Candidate>)
    requires Sorted(s) && Sorted(t) && multiset(s) == multiset(t)
    ensures s == t
  {
    assert |s| == |multiset(s)| == |multiset(t)| == |t|;
    if s != [] {
      SameHead(s, t);
      HeadOut(s);
      HeadOut(t);
      Rest(multiset(s[1..]), multiset(t[1..]), multiset{s[0]});
      SortedUnique(s[1..], t[1..]);
    }
  }

  lemma Rest(a: multiset<Candidate>, b: multiset<Candidate>, c: multiset<Candidate>)
    requires a + c == b + c
    ensures a == b
  {
    assert a == (a + c) - c && b == (b + c) - c;
  }

  /** Sorting forgets the order the candidates came in. */
  lemma SortOfPermutation(s: seq<Candidate>, t: seq<Candidate>)
    requires multiset(s) == multiset(t)
    ensures SortOf(s) == SortOf(t)
  {
    SortOfSorts(s);
    SortOfSorts(t);
    SortedUnique(SortOf(s), SortOf(t));
  }

  lemma SortOfSorted(s: seq<Candidate>)
    ensures SortOf(SortOf(s)) == SortOf(s)
  {
    SortOfSorts(s);
    SortOfPermutation(SortOf(s), s);
  }

  // ----- one step: the flower with the least stock gets the next lands -----

  datatype Mode = LowestStockBatch | Balance

  const BATCH := 4

  /** The least stock above the minimum, or one more than the minimum if all are level. */
  function NextTier(s: seq<Candidate>, low: int): (tier: int)
    ensures tier > low
  {
    if s == [] then low + 1
    else if s[0].stock > low then s[0].stock
    else NextTier(s[1..], low)
  }

  /** How many lands the head of the sorted candidates gets. */
  function Amount(mode: Mode, s: seq<Candidate>, remaining: int): (n: int)
    requires s != [] && remaining > 0
    ensures 1 <= n <= remaining
  {
    Min(if mode.LowestStockBatch? then BATCH else NextTier(s, s[0].stock) - s[0].stock, remaining)
  }

  function Raised(s: seq<Candidate>, n: int): (r: seq<Candidate>)
    requires s != []
    ensures |r| == |s|
  {
    Insert(s[0].(stock := s[0].stock + n), s[1..])
  }

  /** The assignments of a whole run over sorted candidates. */
  function Replanted(mode: Mode, s: seq<Candidate>, remaining: int): seq<Assignment>
    requires s != []
    decreases remaining
  {
    if remaining <= 0 then []
    else
      var n := Amount(mode, s, remaining);
      [Assignment(s[0].flower, n)] + Replanted(mode, Raised(s, n), remaining - n)
  }

  /** The candidates a whole run leaves. */
  function Final(mode: Mode, s: seq<Candidate>, remaining: int): (r: seq<Candidate>)
    requires s != []
    ensures |r| == |s|
    decreases remaining
  {
    if remaining <= 0 then s
    else
      var n := Amount(mode, s, remaining);
      Final(mode, Raised(s, n), remaining - n)
  }

  function Total(out: seq<Assignment>): int { if out == [] then 0 else out[0].count + Total(out[1..]) }

  /** Exactly as many lands are handed out as are empty, each assignment a positive number. */
  lemma {:induction false} HandsOutExactly(mode: Mode, s: seq<Candidate>, limit: int)
    requires s != [] && limit >= 0
    ensures Total(Replanted(mode, s, limit)) == limit
    ensures forall k :: 0 <= k < |Replanted(mode, s, limit)| ==>
              1 <= Replanted(mode, s, limit)[k].count && (mode.LowestStockBatch? ==> Replanted(mode, s, limit)[k].count <= BATCH)
    decreases limit
  {
    hide NextTier, Insert;
    if limit > 0 {
      var n := Amount(mode, s, limit);
      var rest := Replanted(mode, Raised(s, n), limit - n);
      assert Replanted(mode, s, limit) == [Assignment(s[0].flower, n)] + rest;
      HandsOutExactly(mode, Raised(s, n), limit - n);
    }
  }

  function Lowest(s: seq<Candidate>): int
    requires s != []
  {
    s[0].stock
  }

  function Highest(s: seq<Candidate>): int
    requires s != []
  {
    s[|s| - 1].stock
  }

  function Slack(mode: Mode): int { if mode.LowestStockBatch? then BATCH else 1 }

  lemma {:induction false} NextTierIsThere(s: seq<Candidate>, low: int)
    ensures NextTier(s, low) == low + 1 || exists i :: 0 <= i < |s| && s[i].stock == NextTier(s, low)
  {
    if s != [] && s[0].stock <= low {
      NextTierIsThere(s[1..], low);
      if NextTier(s, low) != low + 1 {
        var i :| 0 <= i < |s[1..]| && s[1..][i].stock == NextTier(s, low);
        assert s[i + 1].stock == NextTier(s, low);
      }
    }
  }

  lemma {:induction false} InsertBounds(c: Candidate, s: seq<Candidate>)
    requires Sorted(s)
    ensures Insert(c, s)[0] == if s == [] || Before(c, s[0]) then c else s[0]
    ensures Highest(Insert(c, s)) == if s == [] then c.stock else Max(Highest(s), c.stock)
  {
    if s != [] {
      if Before(c, s[0]) {
        assert Before(s[0], s[|s| - 1]);
      } else {
        InsertBounds(c, s[1..]);
      }
    }
  }

  lemma RaisedBounds(s: seq<Candidate>, n: int)
    requires s != [] && Sorted(s) && n >= 0
    ensures Sorted(Raised(s, n)) && Lowest(s) <= Lowest(Raised(s, n))
    ensures Highest(Raised(s, n)) == Max(Highest(s), Lowest(s) + n)
  {
    var c := s[0].(stock := s[0].stock + n);
    InsertSorted(c, s[1..]);
    InsertBounds(c, s[1..]);
    hide Insert;
    if |s| > 1 { assert Before(s[0], s[1]) && Before(s[0], s[|s| - 1]); }
  }

  /**
   The spread afterwards: no flower ends up above what the fullest had at first, unless it is within one (balance)
   or one batch (lowest stock first) of the flower that ends up lowest.
   */
  lemma {:induction false} SpreadStaysNarrow(mode: Mode, s: seq<Candidate>, limit: int)
    requires s != [] && Sorted(s)
    ensures Highest(Final(mode, s, limit)) <= Max(Highest(s), Lowest(Final(mode, s, limit)) + Slack(mode))
    ensures Lowest(s) <= Lowest(Final(mode, s, limit))
    decreases limit
  {
    if limit > 0 {
      var n := Amount(mode, s, limit);
      RaisedBounds(s, n);
      SpreadStaysNarrow(mode, Raised(s, n), limit - n);
      if mode.Balance? {
        NextTierIsThere(s, s[0].stock);
        if NextTier(s, s[0].stock) != s[0].stock + 1 {
          var i :| 0 <= i < |s| && s[i].stock == NextTier(s, s[0].stock);
          assert Before(s[i], s[|s| - 1]);
        }
      }
    }
  }

  // ----- the same, in terms of the stock each flower has at a time -----

  predicate DistinctFlowers(s: seq<Candidate>) { forall i, j :: 0 <= i < j < |s| ==> s[i].flower != s[j].flower }

  /** How many lands a flower was given. */
  function Given(out: seq<Assignment>, flower: int): int {
    if out == [] then 0 else (if out[0].flower == flower then out[0].count else 0) + Given(out[1..], flower)
  }

  /** A candidate with what it was given on top. */
  function With(c: Candidate, out: seq<Assignment>): Candidate { c.(stock := c.stock + Given(out, c.flower)) }

  lemma RaisedMembers(s: seq<Candidate>, n: int, c: Candidate)
    requires s != [] && DistinctFlowers(s)
    ensures c in s ==> With(c, [Assignment(s[0].flower, n)]) in Raised(s, n)
    ensures forall x :: x in Raised(s, n) ==> exists y :: y in s && y.flower == x.flower
    ensures DistinctFlowers(Raised(s, n))
  {
    var head := s[0].(stock := s[0].stock + n);
    InsertMembers(head, s[1..]);
    InsertKeepsDistinct(head, s[1..]);
    hide Insert;
    assert forall x :: x in s <==> x == s[0] || x in s[1..];
    var one := [Assignment(s[0].flower, n)];
    assert one[1..] == [] && Given(one, c.flower) == if c.flower == s[0].flower then n else 0;
    if c in s && c != s[0] {
      var i :| 0 <= i < |s| && s[i] == c;
      assert s[0].flower != s[i].flower;
      assert With(c, one) == c;
    }
  }

  lemma {:induction false} InsertKeepsDistinct(c: Candidate, s: seq<Candidate>)
    requires DistinctFlowers(s) && forall i :: 0 <= i < |s| ==> s[i].flower != c.flower
    ensures DistinctFlowers(Insert(c, s))
  {
    if s != [] && !Before(c, s[0]) {
      InsertKeepsDistinct(c, s[1..]);
      InsertMembers(c, s[1..]);
      var r := Insert(c, s[1..]);
      forall i | 0 <= i < |r| ensures r[i].flower != s[0].flower {
        assert r[i] in r;
      }
    }
  }

  lemma {:induction false} GivenConcat(one: seq<Assignment>, two: seq<Assignment>, flower: int)
    ensures Given(one + two, flower) == Given(one, flower) + Given(two, flower)
  {
    if one == [] {
      assert one + two == two;
    } else {
      assert (one + two)[1..] == one[1..] + two;
      GivenConcat(one[1..], two, flower);
    }
  }

  /**
   Greedy at every moment: whenever a flower is given lands, no candidate has less stock at that moment, counting
   what was handed out before, and none of the same stock has a smaller id.
   */
  lemma {:induction false} GoesToTheLowest(mode: Mode, s: seq<Candidate>, limit: int, k: nat, c: Candidate)
    requires s != [] && Sorted(s) && DistinctFlowers(s) && k < |Replanted(mode, s, limit)| && c in s
    ensures var out := Replanted(mode, s, limit);
            exists low :: low in s && low.flower == out[k].flower && Before(With(low, out[..k]), With(c, out[..k]))
    decreases limit
  {
    hide Amount, Raised, Given;
    var out := Replanted(mode, s, limit);
    var n := Amount(mode, s, limit);
    var one := [Assignment(s[0].flower, n)];
    assert out == one + Replanted(mode, Raised(s, n), limit - n);
    if k == 0 {
      HeadIsLowest(s, c);
      assert out[..0] == [];
    } else {
      var r := Raised(s, n);
      RaisedMembers(s, n, c);
      RaisedSorted(s, n);
      GoesToTheLowest(mode, r, limit - n, k - 1, With(c, one));
      var rest := Replanted(mode, r, limit - n)[..k - 1];
      assert out[..k] == one + rest && out[k] == Replanted(mode, r, limit - n)[k - 1];
      var low :| low in r && low.flower == out[k].flower && Before(With(low, rest), With(With(c, one), rest));
      var was :| was in s && was.flower == low.flower;
      RaisedMembers(s, n, was);
      SameFlowerSame(r, low, With(was, one));
      GivenConcat(one, rest, was.flower);
      GivenConcat(one, rest, c.flower);
      assert With(was, out[..k]) == With(low, rest) && With(c, out[..k]) == With(With(c, one), rest);
    }
  }

  lemma HeadIsLowest(s: seq<Candidate>, c: Candidate)
    requires s != [] && Sorted(s) && c in s
    ensures s[0] in s && Before(With(s[0], []), With(c, []))
  {
    var i :| 0 <= i < |s| && s[i] == c;
    assert Before(s[0], s[i]);
  }

  lemma RaisedSorted(s: seq<Candidate>, n: int)
    requires s != [] && Sorted(s)
    ensures Sorted(Raised(s, n))
  {
    InsertSorted(s[0].(stock := s[0].stock + n), s[1..]);
  }

  lemma SameFlowerSame(s: seq<Candidate>, a: Candidate, b: Candidate)
    requires DistinctFlowers(s) && a in s && b in s && a.flower == b.flower
    ensures a == b
  {
  }

  // ----- the two loops -----

  /** `sortPlantableByStock`, in place. */
  method SortPlantableByStock(a: array<Candidate>)
    modifies a
    ensures a[..] == SortOf(old(a[..]))
  {
    var s := SortOf(a[..]);
    for i := 0 to a.Length
      invariant a[..i] == s[..i]
    {
      a[i] := s[i];
    }
  }

  lemma RaiseHead(was: seq<Candidate>, i: nat, n: int)
    requires i < |was| && was[i] == SortOf(was)[0]
    ensures SortOf(was[i := was[i].(stock := was[i].stock + n)]) == Raised(SortOf(was), n)
  {
    hide SortOf, Insert, Sorted;
    var s, c := SortOf(was), was[i].(stock := was[i].stock + n);
    SortOfSorts(was);
    SortOfSorts(was[i := c]);
    TailSorted(s);
    SameBagAfter(was, i, c, s);
    InsertBag(c, s[1..]);
    InsertSorted(c, s[1..]);
    SortedUnique(SortOf(was[i := c]), Insert(c, s[1..]));
  }

  lemma TailSorted(s: seq<Candidate>)
    requires s != [] && Sorted(s)
    ensures Sorted(s[1..])
  {
  }

  lemma SameBagAfter(was: seq<Candidate>, i: nat, c: Candidate, s: seq<Candidate>)
    requires i < |was| && s != [] && was[i] == s[0] && multiset(was) == multiset(s)
    ensures multiset(was[i := c]) == multiset(s[1..]) + multiset{c}
  {
    HeadOut(s);
    var others := was[..i] + was[i + 1..];
    assert was == was[..i] + [was[i]] + was[i + 1..];
    assert was[i := c] == was[..i] + [c] + was[i + 1..];
    assert multiset(was) == multiset(others) + multiset{s[0]};
    assert multiset(was[i := c]) == multiset(others) + multiset{c};
    Rest(multiset(others), multiset(s[1..]), multiset{s[0]});
  }

  /** `autoReplantLowestStockBatchAssignments` */
  method LowestStockBatchAssignments(a: array<Candidate>, limit: int) returns (out: seq<Assignment>)
    requires a.Length > 0
    modifies a
    ensures out == Replanted(LowestStockBatch, SortOf(old(a[..])), limit)
    ensures SortOf(a[..]) == Final(LowestStockBatch, SortOf(old(a[..])), limit)
  {
    hide SortOf, Raised;
    out := [];
    var remaining := limit;
    ghost var start := SortOf(a[..]);
    while remaining > 0
      invariant out + Replanted(LowestStockBatch, SortOf(a[..]), remaining) == Replanted(LowestStockBatch, start, limit)
      invariant Final(LowestStockBatch, SortOf(a[..]), remaining) == Final(LowestStockBatch, start, limit)
      decreases remaining
    {
      SortOfSorted(a[..]);
      SortPlantableByStock(a);
      var count := BATCH;
      if count > remaining { count := remaining; }
      ghost var was := a[..];
      RaiseHead(was, 0, count);
      ReplantedStep(out, LowestStockBatch, was, remaining);
      out := out + [Assignment(a[0].flower, count)];
      a[0] := a[0].(stock := a[0].stock + count);
      assert a[..] == was[0 := a[0]];
      remaining := remaining - count;
    }
  }

  lemma ReplantedStep(out: seq<Assignment>, mode: Mode, s: seq<Candidate>, remaining: int)
    requires s != [] && remaining > 0
    ensures var n := Amount(mode, s, remaining);
            && out + Replanted(mode, s, remaining)
               == out + [Assignment(s[0].flower, n)] + Replanted(mode, Raised(s, n), remaining - n)
            && Final(mode, s, remaining) == Final(mode, Raised(s, n), remaining - n)
  {
    hide Amount, Raised;
  }

  /** What each flower ends up with is what it had and what it was given. */
  lemma {:induction false} FinalIsGiven(mode: Mode, s: seq<Candidate>, limit: int, c: Candidate)
    requires s != [] && DistinctFlowers(s) && c in s
    ensures With(c, Replanted(mode, s, limit)) in Final(mode, s, limit)
    decreases limit
  {
    hide Amount, Raised, Given;
    if limit > 0 {
      var n := Amount(mode, s, limit);
      var one := [Assignment(s[0].flower, n)];
      var rest := Replanted(mode, Raised(s, n), limit - n);
      RaisedMembers(s, n, c);
      FinalIsGiven(mode, Raised(s, n), limit - n, With(c, one));
      GivenConcat(one, rest, c.flower);
      assert Replanted(mode, s, limit) == one + rest;
      assert With(With(c, one), rest) == With(c, one + rest);
    } else {
      NothingGiven(c);
    }
  }

  lemma NothingGiven(c: Candidate)
    ensures With(c, []) == c
  {
  }

  lemma LeastIsHead(s: seq<Candidate>, i: nat)
    requires i < |s| && forall j :: 0 <= j < |s| ==> Before(s[i], s[j])
    ensures SortOf(s)[0] == s[i]
  {
    SortOfSorts(s);
    var r := SortOf(s);
    assert r[0] in multiset(s) && s[i] in multiset(r);
    var j :| 0 <= j < |s| && s[j] == r[0];
    var k :| 0 <= k < |r| && r[k] == s[i];
    assert Before(r[0], r[k]) && Before(s[i], s[j]);
  }

  lemma {:induction false} NextTierIs(s: seq<Candidate>, low: int, tier: int)
    requires Sorted(s) && tier > low
    requires forall j :: 0 <= j < |s| ==> s[j].stock <= low || s[j].stock >= tier
    requires (exists j :: 0 <= j < |s| && s[j].stock == tier) || (tier == low + 1 && forall j :: 0 <= j < |s| ==> s[j].stock <= low)
    ensures NextTier(s, low) == tier
  {
    if s != [] {
      if s[0].stock > low {
        var j :| 0 <= j < |s| && s[j].stock == tier;
        assert Before(s[0], s[j]);
      } else {
        if exists j :: 0 <= j < |s| && s[j].stock == tier {
          var j :| 0 <= j < |s| && s[j].stock == tier;
          assert s[1..][j - 1].stock == tier;
        }
        NextTierIs(s[1..], low, tier);
      }
    }
  }

  /** The first `i` candidates were just lifted to the next tier, the rest are as they were sorted. */
  predicate Lifted(s: seq<Candidate>, was: seq<Candidate>, i: nat, tier: int) {
    && i <= |s| == |was| && s[i..] == was[i..]
    && forall j :: 0 <= j < i ==> s[j].stock == tier && s[j].flower == was[j].flower
  }

  /** In the middle of a round the next candidate at the old minimum is still the head, and the next tier the same. */
  lemma RoundStep(s: seq<Candidate>, was: seq<Candidate>, i: nat)
    requires was != [] && Sorted(was) && i < |was| && Lifted(s, was, i, NextTier(was, was[0].stock))
    requires was[i].stock == was[0].stock
    ensures SortOf(s)[0] == s[i] && NextTier(SortOf(s), was[0].stock) == NextTier(was, was[0].stock)
  {
    var low := was[0].stock;
    var tier := NextTier(was, low);
    assert forall j :: i <= j < |s| ==> s[j] == s[i..][j - i] == was[i..][j - i] == was[j];
    forall j | 0 <= j < |s| ensures Before(s[i], s[j]) {
      if j >= i { assert Before(was[i], was[j]); }
    }
    LeastIsHead(s, i);
    TierGap(was, low);
    if i == 0 {
      assert s == was;
      SortOfSorts(was);
      SortedUnique(SortOf(was), was);
    } else {
      SortOfSorts(s);
      forall j | 0 <= j < |s| ensures SortOf(s)[j].stock <= low || SortOf(s)[j].stock >= tier {
        assert SortOf(s)[j] in multiset(s);
      }
      assert s[0] in multiset(SortOf(s));
      var j :| 0 <= j < |SortOf(s)| && SortOf(s)[j] == s[0];
      NextTierIs(SortOf(s), low, tier);
    }
  }

  lemma {:induction false} TierGap(s: seq<Candidate>, low: int)
    requires Sorted(s)
    ensures forall j :: 0 <= j < |s| ==> s[j].stock <= low || s[j].stock >= NextTier(s, low)
  {
    if s != [] {
      if s[0].stock > low {
        assert forall j :: 0 <= j < |s| ==> Before(s[0], s[j]);
      } else {
        TierGap(s[1..], low);
        assert forall j :: 0 < j < |s| ==> s[j] == s[1..][j - 1];
      }
    }
  }

  method NextStock(a: array<Candidate>, low: int) returns (tier: int)
    ensures tier == NextTier(a[..], low)
  {
    tier := low + 1;
    assert a[0..] == a[..];
    for i := 0 to a.Length
      invariant NextTier(a[i..], low) == NextTier(a[..], low)
    {
      assert a[i..][1..] == a[i + 1..];
      if a[i].stock > low { return a[i].stock; }
    }
  }

  /**
   `autoReplantBalanceAssignments`: round by round every candidate at the minimum is lifted to the next tier. The
   two guards of the source, for a count that is not positive and for a round without progress, never act.
   */
  method BalanceAssignments(a: array<Candidate>, limit: int) returns (out: seq<Assignment>)
    requires a.Length > 0
    modifies a
    ensures out == Replanted(Balance, SortOf(old(a[..])), limit)
    ensures SortOf(a[..]) == Final(Balance, SortOf(old(a[..])), limit)
  {
    ghost var start := SortOf(a[..]);
    SortOfSorted(a[..]);
    SortPlantableByStock(a);
    out := [];
    var remaining := limit;
    hide SortOf, Raised, NextTier;
    while remaining > 0
      invariant SortOf(a[..]) == a[..]
      invariant out + Replanted(Balance, SortOf(a[..]), remaining) == Replanted(Balance, start, limit)
      invariant Final(Balance, SortOf(a[..]), remaining) == Final(Balance, start, limit)
      decreases remaining
    {
      SortOfSorts(a[..]);
      ghost var before := remaining;
      var minStock := a[0].stock;
      var nextStock := NextStock(a, minStock);
      out, remaining := LiftRound(a, minStock, nextStock, out, remaining, start, limit);
      assert remaining < before;
      SortOfSorted(a[..]);
      SortPlantableByStock(a);
    }
  }

  /** One round over the sorted candidates. */
  method LiftRound(a: array<Candidate>, minStock: int, nextStock: int, done: seq<Assignment>, limit: int,
                   ghost start: seq<Candidate>, ghost whole: int)
    returns (out: seq<Assignment>, remaining: int)
    requires a.Length > 0 && limit > 0 && Sorted(a[..]) && start != []
    requires minStock == a[0].stock && nextStock == NextTier(a[..], minStock)
    requires done + Replanted(Balance, SortOf(a[..]), limit) == Replanted(Balance, start, whole)
    requires Final(Balance, SortOf(a[..]), limit) == Final(Balance, start, whole)
    modifies a
    ensures remaining < limit
    ensures out + Replanted(Balance, SortOf(a[..]), remaining) == Replanted(Balance, start, whole)
    ensures Final(Balance, SortOf(a[..]), remaining) == Final(Balance, start, whole)
  {
    hide SortOf, Raised, NextTier, Sorted;
    out, remaining := done, limit;
    ghost var was := a[..];
    for i := 0 to a.Length
      invariant i == 0 ==> remaining == limit
      invariant i > 0 ==> remaining < limit
      invariant remaining > 0 ==> Lifted(a[..], was, i, nextStock)
      invariant out + Replanted(Balance, SortOf(a[..]), remaining) == Replanted(Balance, start, whole)
      invariant Final(Balance, SortOf(a[..]), remaining) == Final(Balance, start, whole)
    {
      if remaining <= 0 { break; }
      assert a[i] == a[..][i..][0] == was[i];
      if a[i].stock > minStock { break; }
      AtMinimum(was, i);
      RoundStep(a[..], was, i);
      ghost var now := a[..];
      var count := nextStock - a[i].stock;
      assert count > 0;
      if count > remaining { count := remaining; }
      RaiseHead(now, i, count);
      ReplantedStep(out, Balance, SortOf(now), remaining);
      out := out + [Assignment(a[i].flower, count)];
      a[i] := a[i].(stock := a[i].stock + count);
      assert a[..] == now[i := a[i]];
      assert a[..][i + 1..] == now[i..][1..] == was[i..][1..];
      remaining := remaining - count;
    }
  }

  lemma AtMinimum(s: seq<Candidate>, i: nat)
    requires i < |s| && Sorted(s) && s[i].stock <= s[0].stock
    ensures s[i].stock == s[0].stock
  {
    assert Before(s[0], s[i]);
  }

  // ----- the plan for all empty lands -----

  /** The part of a demand the plant planner reads; `item` is the flower it asks for. */
  datatype Demand = Demand(isRace: bool, isFlower: bool, missing: int, blocked: bool, item: int)

  /** Flowers that can be planted at all, whether other than race demands may plant, and the flowers on the lands. */
  datatype Garden = Garden(plantable: set<int>, demandPlanting: bool, mode: Mode, suppressFallback: bool, onLands: seq<int>)

  predicate Qualifies(g: Garden, d: Demand) {
    d.isFlower && d.missing > 0 && !d.blocked && (g.demandPlanting || d.isRace)
  }

  predicate Served(g: Garden, d: Demand) { Qualifies(g, d) && d.item in g.plantable }

  function Grant(g: Garden, d: Demand, remaining: int): int {
    if Served(g, d) && remaining > 0 then Min(d.missing, remaining) else 0
  }

  function OfRace(ds: seq<Demand>, race: bool): seq<Demand> {
    if ds == [] then [] else (if ds[0].isRace == race then [ds[0]] else []) + OfRace(ds[1..], race)
  }

  /** The order of service: race demands before all others. */
  function RaceFirst(ds: seq<Demand>): seq<Demand> { OfRace(ds, true) + OfRace(ds, false) }

  function Left(g: Garden, ds: seq<Demand>, remaining: int): int
    decreases |ds|
  {
    if ds == [] then remaining else Left(g, ds[1..], remaining - Grant(g, ds[0], remaining))
  }

  function ForDemands(g: Garden, ds: seq<Demand>, remaining: int): seq<Assignment>
    decreases |ds|
  {
    if ds == [] then []
    else
      var n := Grant(g, ds[0], remaining);
      (if n > 0 then [Assignment(ds[0].item, n)] else []) + ForDemands(g, ds[1..], remaining - n)
  }

  /** The demands that would be served if their flower could be planted. */
  function Unplantable(g: Garden, ds: seq<Demand>): seq<int> {
    if ds == [] then []
    else (if Qualifies(g, ds[0]) && ds[0].item !in g.plantable then [ds[0].item] else []) + Unplantable(g, ds[1..])
  }

  function CountOf(flowers: seq<int>, flower: int): int {
    if flowers == [] then 0 else CountOf(flowers[..|flowers| - 1], flower) + if flowers[|flowers| - 1] == flower then 1 else 0
  }

  /** Lowest-stock mode also counts what grows on the lands and what was just assigned. */
  function Effective(g: Garden, c: Candidate, out: seq<Assignment>): Candidate {
    if g.mode.Balance? then c
    else c.(stock := c.stock + (if c.flower != 0 then CountOf(g.onLands, c.flower) else 0)
                             + (if c.flower > 0 then Given(out, c.flower) else 0))
  }

  function EffectiveAll(g: Garden, cs: seq<Candidate>, out: seq<Assignment>): (r: seq<Candidate>)
    ensures |r| == |cs| && forall i :: 0 <= i < |cs| ==> r[i] == Effective(g, cs[i], out)
  {
    seq(|cs|, i requires 0 <= i < |cs| => Effective(g, cs[i], out))
  }

  datatype Plan = Plan(executable: seq<Assignment>, blocked: seq<int>)

  /** `planPlantAssignments` */
  function PlanFor(g: Garden, cs: seq<Candidate>, demands: seq<Demand>, empty: int): Plan {
    if empty <= 0 then Plan([], [])
    else
      var order := RaceFirst(demands);
      var out := ForDemands(g, order, empty);
      var left := Left(g, order, empty);
      if left <= 0 || g.suppressFallback then Plan(out, Unplantable(g, order))
      else Plan(out + FallbackFor(g, cs, out, left), Unplantable(g, order))
  }

  function FallbackFor(g: Garden, cs: seq<Candidate>, out: seq<Assignment>, left: int): seq<Assignment> {
    if cs == [] then [] else Replanted(g.mode, SortOf(EffectiveAll(g, cs, out)), left)
  }

  lemma {:induction false} TotalConcat(one: seq<Assignment>, two: seq<Assignment>)
    ensures Total(one + two) == Total(one) + Total(two)
  {
    if one == [] {
      assert one + two == two;
    } else {
      assert (one + two)[1..] == one[1..] + two;
      TotalConcat(one[1..], two);
    }
  }

  predicate AllPositive(out: seq<Assignment>) { forall k :: 0 <= k < |out| ==> out[k].count >= 1 }

  lemma {:induction false} DemandsTake(g: Garden, ds: seq<Demand>, remaining: int)
    requires remaining >= 0
    ensures Total(ForDemands(g, ds, remaining)) == remaining - Left(g, ds, remaining)
    ensures 0 <= Left(g, ds, remaining) <= remaining && AllPositive(ForDemands(g, ds, remaining))
    decreases |ds|
  {
    if ds != [] {
      var n := Grant(g, ds[0], remaining);
      var one := if n > 0 then [Assignment(ds[0].item, n)] else [];
      DemandsTake(g, ds[1..], remaining - n);
      TotalConcat(one, ForDemands(g, ds[1..], remaining - n));
      assert Total(one) == n by { if n > 0 { assert one[1..] == []; } }
    }
  }

  /**
   Assignments never exceed the empty lands, and use up exactly all of them when the fallback is allowed and there
   is a candidate.
   */
  lemma PlanFillsExactly(g: Garden, cs: seq<Candidate>, demands: seq<Demand>, empty: int)
    ensures var plan := PlanFor(g, cs, demands, empty);
            && AllPositive(plan.executable) && 0 <= Total(plan.executable) <= Max(0, empty)
            && (empty > 0 && !g.suppressFallback && cs != [] ==> Total(plan.executable) == empty)
  {
    if empty > 0 {
      var order := RaceFirst(demands);
      DemandsTake(g, order, empty);
      var out := ForDemands(g, order, empty);
      var left := Left(g, order, empty);
      if left > 0 && !g.suppressFallback && cs == [] {
        assert out + [] == out;
      }
      if left > 0 && !g.suppressFallback && cs != [] {
        var s := SortOf(EffectiveAll(g, cs, out));
        HandsOutExactly(g.mode, s, left);
        TotalConcat(out, Replanted(g.mode, s, left));
      }
    }
  }

  /** What the demand at position `i` of the service order is granted. */
  function GrantAt(g: Garden, order: seq<Demand>, empty: int, i: nat): int
    requires i < |order|
  {
    Grant(g, order[i], Left(g, order[..i], empty))
  }

  lemma {:induction false} LeftNext(g: Garden, ds: seq<Demand>, remaining: int, i: nat)
    requires i < |ds|
    ensures Left(g, ds[..i + 1], remaining)
            == Left(g, ds[..i], remaining) - Grant(g, ds[i], Left(g, ds[..i], remaining))
    decreases i
  {
    if i == 0 {
      assert ds[..1] == [ds[0]] && [ds[0]][1..] == [];
    } else {
      var n := Grant(g, ds[0], remaining);
      LeftNext(g, ds[1..], remaining - n, i - 1);
      assert ds[..i + 1][1..] == ds[1..][..i] && ds[..i][1..] == ds[1..][..i - 1];
    }
  }

  lemma {:induction false} OutStaysOut(g: Garden, ds: seq<Demand>, remaining: int, i: nat, j: nat)
    requires i <= j <= |ds| && Left(g, ds[..i], remaining) <= 0
    ensures Left(g, ds[..j], remaining) <= 0
  {
    if i < j {
      OutStaysOut(g, ds, remaining, i, j - 1);
      LeftNext(g, ds, remaining, j - 1);
    }
  }

  /** A demand gets a land only after every served demand ahead of it got its full missing count. */
  lemma ServedInOrder(g: Garden, order: seq<Demand>, empty: int, i: nat, j: nat)
    requires i < j < |order| && Served(g, order[i])
    ensures GrantAt(g, order, empty, j) > 0 ==> GrantAt(g, order, empty, i) == order[i].missing
  {
    if GrantAt(g, order, empty, i) < order[i].missing {
      LeftNext(g, order, empty, i);
      OutStaysOut(g, order, empty, i + 1, j);
    }
  }

  lemma {:induction false} OfRaceAll(ds: seq<Demand>, race: bool)
    ensures forall i :: 0 <= i < |OfRace(ds, race)| ==> OfRace(ds, race)[i].isRace == race
    ensures forall d :: d in OfRace(ds, race) <==> d in ds && d.isRace == race
  {
    if ds != [] { OfRaceAll(ds[1..], race); }
  }

  /** Race first, whatever the priorities say: no other demand is granted a land while a served race demand lacks one. */
  lemma RaceComesFirst(g: Garden, demands: seq<Demand>, empty: int, race: nat, other: nat)
    requires race < |RaceFirst(demands)| && other < |RaceFirst(demands)|
    requires RaceFirst(demands)[race].isRace && !RaceFirst(demands)[other].isRace && Served(g, RaceFirst(demands)[race])
    requires GrantAt(g, RaceFirst(demands), empty, other) > 0
    ensures GrantAt(g, RaceFirst(demands), empty, race) == RaceFirst(demands)[race].missing
  {
    OfRaceAll(demands, true);
    OfRaceAll(demands, false);
    assert race < |OfRace(demands, true)| <= other;
    ServedInOrder(g, RaceFirst(demands), empty, race, other);
  }

  /** No demand is lost or made up by the service order. */
  lemma RaceFirstKeepsDemands(demands: seq<Demand>, d: Demand)
    ensures d in RaceFirst(demands) <==> d in demands
  {
    OfRaceAll(demands, true);
    OfRaceAll(demands, false);
  }

  lemma {:induction false} GrantsAreAssigned(g: Garden, ds: seq<Demand>, remaining: int, i: nat)
    requires i < |ds| && GrantAt(g, ds, remaining, i) > 0
    ensures Assignment(ds[i].item, GrantAt(g, ds, remaining, i)) in ForDemands(g, ds, remaining)
    decreases i
  {
    if i > 0 {
      var n := Grant(g, ds[0], remaining);
      assert ds[..i][1..] == ds[1..][..i - 1];
      GrantsAreAssigned(g, ds[1..], remaining - n, i - 1);
    }
  }

  // ----- the planner as it runs -----

  method AssignFlowerDemand(g: Garden, d: Demand, remaining: int, out: seq<Assignment>, blocked: seq<int>)
    returns (left: int, more: seq<Assignment>, diagnostics: seq<int>)
    ensures left == remaining - Grant(g, d, remaining)
    ensures more == out + if Grant(g, d, remaining) > 0 then [Assignment(d.item, Grant(g, d, remaining))] else []
    ensures diagnostics == blocked + if Qualifies(g, d) && d.item !in g.plantable then [d.item] else []
  {
    left, more, diagnostics := remaining, out, blocked;
    if !d.isFlower || d.missing <= 0 || d.blocked { return; }
    if !g.demandPlanting && !d.isRace { return; }
    if d.item !in g.plantable {
      diagnostics := blocked + [d.item];
      return;
    }
    if remaining <= 0 { return; }
    var count := d.missing;
    if count > remaining { count := remaining; }
    if count <= 0 { return; }
    more := out + [Assignment(d.item, count)];
    left := remaining - count;
  }

  /** One of the two passes over the demands; the second one goes on where the first one ended. */
  method AssignPass(g: Garden, demands: seq<Demand>, race: bool, remaining: int, out: seq<Assignment>, blocked: seq<int>)
    returns (left: int, more: seq<Assignment>, diagnostics: seq<int>)
    ensures left == Left(g, OfRace(demands, race), remaining)
    ensures more == out + ForDemands(g, OfRace(demands, race), remaining)
    ensures diagnostics == blocked + Unplantable(g, OfRace(demands, race))
  {
    left, more, diagnostics := remaining, out, blocked;
    assert demands[0..] == demands;
    hide Grant, Qualifies;
    for i := 0 to |demands|
      invariant Left(g, OfRace(demands[i..], race), left) == Left(g, OfRace(demands, race), remaining)
      invariant more + ForDemands(g, OfRace(demands[i..], race), left) == out + ForDemands(g, OfRace(demands, race), remaining)
      invariant diagnostics + Unplantable(g, OfRace(demands[i..], race)) == blocked + Unplantable(g, OfRace(demands, race))
    {
      assert demands[i..][1..] == demands[i + 1..];
      ghost var rest := OfRace(demands[i + 1..], race);
      assert OfRace(demands[i..], race) == if demands[i].isRace == race then [demands[i]] + rest else rest;
      if demands[i].isRace == race {
        PassOn(g, demands[i], OfRace(demands[i + 1..], race), left, more, diagnostics);
        left, more, diagnostics := AssignFlowerDemand(g, demands[i], left, more, diagnostics);
      }
    }
  }

  lemma PassOn(g: Garden, d: Demand, rest: seq<Demand>, remaining: int, out: seq<Assignment>, blocked: seq<int>)
    ensures var n := Grant(g, d, remaining);
            && Left(g, [d] + rest, remaining) == Left(g, rest, remaining - n)
            && out + ForDemands(g, [d] + rest, remaining)
               == out + (if n > 0 then [Assignment(d.item, n)] else []) + ForDemands(g, rest, remaining - n)
            && blocked + Unplantable(g, [d] + rest)
               == blocked + (if Qualifies(g, d) && d.item !in g.plantable then [d.item] else []) + Unplantable(g, rest)
  {
    PassOnTail(g, d, rest, remaining);
    hide *;
  }

  lemma PassOnTail(g: Garden, d: Demand, rest: seq<Demand>, remaining: int)
    ensures var n := Grant(g, d, remaining);
            && Left(g, [d] + rest, remaining) == Left(g, rest, remaining - n)
            && ForDemands(g, [d] + rest, remaining)
               == (if n > 0 then [Assignment(d.item, n)] else []) + ForDemands(g, rest, remaining - n)
            && Unplantable(g, [d] + rest)
               == (if Qualifies(g, d) && d.item !in g.plantable then [d.item] else []) + Unplantable(g, rest)
  {
    hide Grant, Qualifies;
    assert ([d] + rest)[1..] == rest && ([d] + rest)[0] == d;
  }

  lemma {:induction false} PassesJoin(g: Garden, one: seq<Demand>, two: seq<Demand>, remaining: int)
    ensures Left(g, one + two, remaining) == Left(g, two, Left(g, one, remaining))
    ensures ForDemands(g, one + two, remaining) == ForDemands(g, one, remaining) + ForDemands(g, two, Left(g, one, remaining))
    ensures Unplantable(g, one + two) == Unplantable(g, one) + Unplantable(g, two)
    decreases |one|
  {
    hide Grant, Qualifies;
    if one == [] {
      assert one + two == two;
    } else {
      assert (one + two)[1..] == one[1..] + two;
      PassesJoin(g, one[1..], two, remaining - Grant(g, one[0], remaining));
    }
  }

  /** `applyPlantedLandStock` and `applyAssignmentStock`, which add to the candidates' stocks in place. */
  method ApplyStock(g: Garden, a: array<Candidate>, out: seq<Assignment>)
    requires g.mode.LowestStockBatch?
    modifies a
    ensures a[..] == EffectiveAll(g, old(a[..]), out)
  {
    for i := 0 to a.Length
      invariant forall j :: 0 <= j < a.Length ==> a[j] == if j < i then Effective(g, old(a[j]), out) else old(a[j])
    {
      if a[i].flower != 0 { a[i] := a[i].(stock := a[i].stock + CountOf(g.onLands, a[i].flower)); }
      if a[i].flower > 0 { a[i] := a[i].(stock := a[i].stock + Given(out, a[i].flower)); }
    }
  }

  /** `autoReplantAssignments` over the candidates' effective stocks. */
  method Fallback(g: Garden, candidates: array<Candidate>, out: seq<Assignment>, remaining: int) returns (fallback: seq<Assignment>)
    requires remaining > 0
    modifies candidates
    ensures fallback == FallbackFor(g, old(candidates[..]), out, remaining)
  {
    hide SortOf, Effective;
    if candidates.Length == 0 { return []; }
    if g.mode.LowestStockBatch? {
      ApplyStock(g, candidates, out);
      fallback := LowestStockBatchAssignments(candidates, remaining);
    } else {
      BalanceKeepsStock(g, candidates[..], out);
      fallback := BalanceAssignments(candidates, remaining);
    }
  }

  lemma BalanceKeepsStock(g: Garden, cs: seq<Candidate>, out: seq<Assignment>)
    requires g.mode.Balance?
    ensures EffectiveAll(g, cs, out) == cs
  {
  }

  /** The two passes over the demands, one after the other. */
  method ServeDemands(g: Garden, demands: seq<Demand>, empty: int) returns (left: int, out: seq<Assignment>, blocked: seq<int>)
    ensures left == Left(g, RaceFirst(demands), empty) && out == ForDemands(g, RaceFirst(demands), empty)
    ensures blocked == Unplantable(g, RaceFirst(demands))
  {
    PassesJoin(g, OfRace(demands, true), OfRace(demands, false), empty);
    hide OfRace, ForDemands, Unplantable, Left;
    left, out, blocked := AssignPass(g, demands, true, empty, [], []);
    assert out == ForDemands(g, OfRace(demands, true), empty) && blocked == Unplantable(g, OfRace(demands, true));
    left, out, blocked := AssignPass(g, demands, false, left, out, blocked);
  }

  /** `planPlantAssignments` */
  method PlanPlantAssignments(g: Garden, candidates: array<Candidate>, demands: seq<Demand>, empty: int) returns (plan: Plan)
    modifies candidates
    ensures plan == PlanFor(g, old(candidates[..]), demands, empty)
  {
    hide RaceFirst, FallbackFor, ForDemands, Unplantable, Left;
    if empty <= 0 { return Plan([], []); }
    var remaining, out, blocked := ServeDemands(g, demands, empty);
    if remaining <= 0 || g.suppressFallback { return Plan(out, blocked); }
    var fallback := Fallback(g, candidates, out, remaining);
    return Plan(out + fallback, blocked);
  }
}
