/** Vocabulary shared by every component: options, bounds, finite sums and sorted key lists. */
module Common {

  datatype Option<+T> = None | Some(value: T)

  function Min(a: int, b: int): int { if a <= b then a else b }

  function Max(a: int, b: int): int { if a >= b then a else b }

  predicate StrictlyIncreasing(ids: seq<int>) {
    forall i, j :: 0 <= i < j < |ids| ==> ids[i] < ids[j]
  }

  predicate Distinct<T(==)>(xs: seq<T>) {
    forall i, j :: 0 <= i < j < |xs| ==> xs[i] != xs[j]
  }

  /** Some element of a non-empty set. */
  lemma AnyOf<T>(s: set<T>) returns (k: T)
    requires s != {}
    ensures k in s
  {
    k :| k in s;
  }

  lemma SubsetSize<T>(small: set<T>, large: set<T>)
    requires small <= large
    ensures |small| <= |large|
  {
    assert large == small + (large - small);
  }

  lemma LeastExists(s: set<int>)
    requires s != {}
    ensures exists m :: m in s && forall x :: x in s ==> m <= x
    decreases |s|
  {
    var k := AnyOf(s);
    var rest := s - {k};
    if rest == {} {
      assert s == {k};
    } else {
      LeastExists(rest);
      var m :| m in rest && forall x :: x in rest ==> m <= x;
      var least := Min(k, m);
      forall x | x in s ensures least <= x {
        if x != k { assert x in rest; }
      }
      assert least in s;
    }
  }

  function Least(s: set<int>): (m: int)
    requires s != {}
    ensures m in s && forall x :: x in s ==> m <= x
  {
    LeastExists(s);
    var m :| m in s && forall x :: x in s ==> m <= x;
    m
  }

  /** The keys of a Go map after `sort.Slice` by id: ascending, each key once. */
  function Ascending(s: set<int>): (ids: seq<int>)
    ensures StrictlyIncreasing(ids)
    ensures forall x :: x in ids <==> x in s
    ensures |ids| == |s|
  {
    if s == {} then []
    else
      var m := Least(s);
      var rest := Ascending(s - {m});
      assert forall i :: 0 <= i < |rest| ==> rest[i] in s - {m};
      [m] + rest
  }

  /** The sum of `f` over a finite set of keys; the order of a Go map range does not matter. */
  ghost function Sum<T(!new)>(keys: set<T>, f: T -> int): int {
    if keys == {} then 0
    else
      var k :| k in keys;
      f(k) + Sum(keys - {k}, f)
  }

  /** Any key may be taken out first. */
  lemma {:induction false} SumSplit<T(!new)>(keys: set<T>, k: T, f: T -> int)
    requires k in keys
    ensures Sum(keys, f) == f(k) + Sum(keys - {k}, f)
    decreases |keys|
  {
    var first :| first in keys && Sum(keys, f) == f(first) + Sum(keys - {first}, f);
    if first != k {
      SumSplit(keys - {first}, k, f);
      SumSplit(keys - {k}, first, f);
      assert keys - {first} - {k} == keys - {k} - {first};
    }
  }

  lemma {:induction false} SumAgree<T(!new)>(keys: set<T>, f: T -> int, g: T -> int)
    requires forall k :: k in keys ==> f(k) == g(k)
    ensures Sum(keys, f) == Sum(keys, g)
    decreases |keys|
  {
    if keys != {} {
      var k :| k in keys;
      SumSplit(keys, k, f);
      SumSplit(keys, k, g);
      SumAgree(keys - {k}, f, g);
    }
  }

  lemma {:induction false} SumAtMost<T(!new)>(keys: set<T>, f: T -> int, g: T -> int)
    requires forall k :: k in keys ==> f(k) <= g(k)
    ensures Sum(keys, f) <= Sum(keys, g)
    decreases |keys|
  {
    if keys != {} {
      var k :| k in keys;
      SumSplit(keys, k, f);
      SumSplit(keys, k, g);
      SumAtMost(keys - {k}, f, g);
    }
  }

  lemma {:induction false} SumSubset<T(!new)>(small: set<T>, large: set<T>, f: T -> int)
    requires small <= large
    requires forall k :: k in large ==> 0 <= f(k)
    ensures Sum(small, f) <= Sum(large, f)
    decreases |large|
  {
    if small != {} {
      var k :| k in small;
      SumSplit(small, k, f);
      SumSplit(large, k, f);
      SumSubset(small - {k}, large - {k}, f);
    } else if large != {} {
      var k :| k in large;
      SumSplit(large, k, f);
      SumSubset(small, large - {k}, f);
    }
  }

  // ----- `sort.SliceStable` with a comparison that need not be an order -----

  ghost predicate Transitive<T(!new)>(before: (T, T) -> bool, s: set<T>) {
    forall a, b, c :: a in s && b in s && c in s && before(a, b) && before(b, c) ==> before(a, c)
  }

  predicate Tied<T>(before: (T, T) -> bool, a: T, b: T) { !before(a, b) && !before(b, a) }

  ghost predicate TiesTransitive<T(!new)>(before: (T, T) -> bool, s: set<T>) {
    forall a, b, c :: a in s && b in s && c in s && Tied(before, a, b) && Tied(before, b, c) ==> Tied(before, a, c)
  }

  ghost predicate Irreflexive<T(!new)>(before: (T, T) -> bool, s: set<T>) { forall a :: a in s ==> !before(a, a) }

  /** A strict weak order on a set: what a sort needs of its comparison. */
  ghost predicate StrictWeak<T(!new)>(before: (T, T) -> bool, s: set<T>) {
    Irreflexive(before, s) && Transitive(before, s) && TiesTransitive(before, s)
  }

  function InsertBy<T>(before: (T, T) -> bool, t: T, s: seq<T>): seq<T> {
    if s == [] then [t] else if before(s[0], t) then [s[0]] + InsertBy(before, t, s[1..]) else [t] + s
  }

  /** A stable sort. */
  function SortBy<T>(before: (T, T) -> bool, s: seq<T>): seq<T> {
    if s == [] then [] else InsertBy(before, s[0], SortBy(before, s[1..]))
  }

  /** No element comes before one that is placed ahead of it. */
  ghost predicate OrderedBy<T>(before: (T, T) -> bool, s: seq<T>) {
    forall i, j :: 0 <= i < j < |s| ==> !before(s[j], s[i])
  }

  predicate DrawnFrom<T(==)>(pool: seq<T>, s: set<T>) { forall i :: 0 <= i < |pool| ==> pool[i] in s }

  lemma {:induction false} InsertByPermutes<T>(before: (T, T) -> bool, t: T, s: seq<T>)
    ensures multiset(InsertBy(before, t, s)) == multiset(s) + multiset{t}
  {
    if s != [] && before(s[0], t) {
      InsertByPermutes(before, t, s[1..]);
      assert s == [s[0]] + s[1..];
    }
  }

  lemma {:induction false} SortByPermutes<T>(before: (T, T) -> bool, s: seq<T>)
    ensures multiset(SortBy(before, s)) == multiset(s)
  {
    if s != [] {
      SortByPermutes(before, s[1..]);
      InsertByPermutes(before, s[0], SortBy(before, s[1..]));
      assert s == [s[0]] + s[1..];
    }
  }

  lemma PermutationDrawn<T>(r: seq<T>, s: seq<T>, all: set<T>)
    requires multiset(r) == multiset(s) && DrawnFrom(s, all)
    ensures DrawnFrom(r, all)
  {
    forall i | 0 <= i < |r| ensures r[i] in all {
      assert r[i] in multiset(r) && r[i] in multiset(s);
    }
  }

  lemma OrderedTriple<T(!new)>(before: (T, T) -> bool, all: set<T>, t: T, u: T, v: T)
    requires StrictWeak(before, all) && t in all && u in all && v in all && !before(u, t) && !before(v, u)
    ensures !before(v, t)
  {
    assert before(u, v) && before(v, t) ==> before(u, t);
    assert before(v, t) && before(t, u) ==> before(v, u);
    assert Tied(before, t, u) && Tied(before, u, v) ==> Tied(before, t, v);
  }

  lemma {:induction false} InsertByOrders<T(!new)>(before: (T, T) -> bool, t: T, s: seq<T>, all: set<T>)
    requires StrictWeak(before, all) && t in all && DrawnFrom(s, all) && OrderedBy(before, s)
    ensures OrderedBy(before, InsertBy(before, t, s))
  {
    if s != [] {
      var rest := s[1..];
      assert forall i :: 0 <= i < |rest| ==> rest[i] == s[i + 1];
      if before(s[0], t) {
        InsertByOrders(before, t, rest, all);
        InsertByPermutes(before, t, rest);
        var r := InsertBy(before, t, rest);
        assert !before(t, s[0]);
        forall j | 0 <= j < |r| ensures !before(r[j], s[0]) {
          assert r[j] in multiset(r) && (r[j] == t || r[j] in multiset(rest));
        }
      } else {
        forall j | 0 <= j < |s| ensures !before(s[j], t) {
          if j > 0 { OrderedTriple(before, all, t, s[0], s[j]); }
        }
      }
    }
  }

  /** With a strict weak order the sort sorts. */
  lemma {:induction false} SortByOrders<T(!new)>(before: (T, T) -> bool, s: seq<T>, all: set<T>)
    requires StrictWeak(before, all) && DrawnFrom(s, all)
    ensures OrderedBy(before, SortBy(before, s)) && DrawnFrom(SortBy(before, s), all)
  {
    SortByPermutes(before, s);
    PermutationDrawn(SortBy(before, s), s, all);
    if s != [] {
      SortByOrders(before, s[1..], all);
      InsertByOrders(before, s[0], SortBy(before, s[1..]), all);
    }
  }

  lemma SortOfThree<T>(before: (T, T) -> bool, a: T, b: T, c: T)
    requires !before(c, b) && !before(b, a)
    ensures SortBy(before, [a, b, c]) == [a, b, c]
  {
    assert [a, b, c][1..] == [b, c] && [b, c][1..] == [c] && [c][1..] == [];
    assert SortBy(before, [c]) == [c] && SortBy(before, [b, c]) == [b, c];
  }

  /** The sort orders every list drawn from a set exactly if the comparison is a strict weak order on the set. */
  lemma SortOrdersExactly<T(!new)>(before: (T, T) -> bool, all: set<T>)
    requires forall a, b :: a in all && b in all ==> !(before(a, b) && before(b, a))
    ensures (forall pool: seq<T> :: DrawnFrom(pool, all) ==> OrderedBy(before, SortBy(before, pool))) <==> StrictWeak(before, all)
  {
    if StrictWeak(before, all) {
      forall pool: seq<T> | DrawnFrom(pool, all) ensures OrderedBy(before, SortBy(before, pool)) {
        SortByOrders(before, pool, all);
      }
    } else {
      var pool := UnsortedPool(before, all);
    }
  }

  lemma UnsortedPool<T(!new)>(before: (T, T) -> bool, all: set<T>) returns (pool: seq<T>)
    requires forall a, b :: a in all && b in all ==> !(before(a, b) && before(b, a))
    requires !StrictWeak(before, all)
    ensures DrawnFrom(pool, all) && !OrderedBy(before, SortBy(before, pool))
  {
    var a, b, c;
    if Transitive(before, all) {
      a, b, c :| a in all && b in all && c in all && Tied(before, a, b) && Tied(before, b, c) && !Tied(before, a, c);
      pool := if before(c, a) then [a, b, c] else [c, b, a];
      if before(c, a) { SortOfThree(before, a, b, c); } else { SortOfThree(before, c, b, a); }
    } else {
      a, b, c :| a in all && b in all && c in all && before(a, b) && before(b, c) && !before(a, c);
      pool := [c, a, b];
      SortOfThree(before, c, a, b);
    }
    assert !OrderedBy(before, pool) by { assert before(pool[2], pool[0]); }
  }
}
