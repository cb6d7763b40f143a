/**
 The order in which operations are queued, and for which sets of operations it is one. Texts that are only compared
 (domains, operation ids) are given by their place in the text order.
 */
module OpOrder {
  import opened Common

  datatype Category =
    | Race | Plant | Order | FlowerArt | Water | Basic | Union | Activity | Account
    | Other(name: int)

  /** `categoryRank`: orders, flower art and watering share a rank, and so do all unlisted categories. */
  function CategoryRank(c: Category): int {
    match c
    case Race => 0
    case Plant => 1
    case Order => 2
    case FlowerArt => 2
    case Water => 2
    case Basic => 3
    case Union => 4
    case Activity => 5
    case Account => 6
    case Other(_) => 9
  }

  /** The fields the comparison reads; `lane` is the rank of the lane. */
  datatype Rank = Rank(lane: int, priority: int, category: Category, domain: int, id: int)

  /** An operation as far as its place goes; `replant` marks auto-replant planting, which keeps its insertion order. */
  datatype Placed = Placed(rank: Rank, replant: bool)

  /** `operationComesBefore` */
  predicate Before(a: Placed, b: Placed) {
    var l, r := a.rank, b.rank;
    if l.lane != r.lane then l.lane < r.lane
    else if l.priority != r.priority then l.priority > r.priority
    else if l.category != r.category then CategoryRank(l.category) < CategoryRank(r.category)
    else if l.domain != r.domain then l.domain < r.domain
    else if a.replant && b.replant then false
    else l.id < r.id
  }

  /** The part of the order that always is one: lane, then priority. */
  predicate CoarseBefore(a: Placed, b: Placed) {
    a.rank.lane < b.rank.lane || (a.rank.lane == b.rank.lane && a.rank.priority > b.rank.priority)
  }

  /** `sortOperations` */
  function Sorted(ops: seq<Placed>): seq<Placed> { SortBy((a, b) => Before(a, b), ops) }

  // ----- when it is an order -----

  predicate SameClass(a: Placed, b: Placed) { a.rank.lane == b.rank.lane && a.rank.priority == b.rank.priority }

  predicate SameCell(a: Placed, b: Placed) {
    SameClass(a, b) && a.rank.category == b.rank.category && a.rank.domain == b.rank.domain
  }

  /** Two operations of one class and category that the comparison leaves where they are. */
  predicate SameSlot(a: Placed, b: Placed) {
    a.rank.domain == b.rank.domain && ((a.replant && b.replant) || a.rank.id == b.rank.id)
  }

  /** Next to an operation of another category with the same rank, a category may not order its own operations. */
  predicate SharedRankIsFlat(a: Placed, b: Placed, c: Placed) {
    (&& SameClass(a, b) && SameClass(a, c) && a.rank.category == c.rank.category
     && a.rank.category != b.rank.category && CategoryRank(a.rank.category) == CategoryRank(b.rank.category)) ==> SameSlot(a, c)
  }

  /** An operation that is no auto-replant planting has the same place towards any two that are. */
  predicate ReplantsAreClosed(a: Placed, b: Placed, x: Placed) {
    (SameCell(a, b) && SameCell(a, x) && a.replant && b.replant && !x.replant) ==>
      (x.rank.id < a.rank.id <==> x.rank.id < b.rank.id) && (a.rank.id < x.rank.id <==> b.rank.id < x.rank.id)
  }

  predicate Orderly(ops: set<Placed>) {
    forall a, b, c :: a in ops && b in ops && c in ops ==> SharedRankIsFlat(a, b, c) && ReplantsAreClosed(a, b, c)
  }

  /** Transitivity at one triple. */
  predicate TransitiveAt(a: Placed, b: Placed, c: Placed) { Before(a, b) && Before(b, c) ==> Before(a, c) }

  predicate Ties(a: Placed, b: Placed) { !Before(a, b) && !Before(b, a) }

  predicate TiesTransitiveAt(a: Placed, b: Placed, c: Placed) { Ties(a, b) && Ties(b, c) ==> Ties(a, c) }

  lemma NeverBothWays(a: Placed, b: Placed)
    ensures !(Before(a, b) && Before(b, a))
  {
  }

  lemma OrderlyTriple(a: Placed, b: Placed, c: Placed)
    requires Orderly({a, b, c})
    ensures TransitiveAt(a, b, c) && TiesTransitiveAt(a, b, c)
  {
    var s := {a, b, c};
    assert a in s && b in s && c in s;
    assert SharedRankIsFlat(a, b, c) && SharedRankIsFlat(a, c, b) && SharedRankIsFlat(b, c, a) && SharedRankIsFlat(b, a, c);
    assert SharedRankIsFlat(c, a, b) && SharedRankIsFlat(c, b, a);
    assert ReplantsAreClosed(a, b, c) && ReplantsAreClosed(a, c, b) && ReplantsAreClosed(b, c, a);
  }

  /** Two operations of a category that are ordered, and one of another category with the same rank: ties do not chain. */
  lemma SharedRankBreaksTies(a: Placed, b: Placed, c: Placed)
    requires !SharedRankIsFlat(a, b, c)
    ensures !TiesTransitiveAt(a, b, c)
  {
  }

  /** An operation between or beside two auto-replant plantings breaks transitivity, of ties or of the order itself. */
  lemma OpenReplantsBreakOrder(a: Placed, b: Placed, x: Placed)
    requires !ReplantsAreClosed(a, b, x)
    ensures || !TransitiveAt(a, x, b) || !TransitiveAt(b, x, a)
            || !TiesTransitiveAt(x, a, b) || !TiesTransitiveAt(x, b, a)
  {
  }

  /** The operation order is a strict weak order on a set of operations exactly if the set is orderly. */
  lemma StrictWeakExactly(ops: set<Placed>)
    ensures StrictWeak((a, b) => Before(a, b), ops) <==> Orderly(ops)
  {
    var before := (a: Placed, b: Placed) => Before(a, b);
    forall a: Placed, b: Placed ensures before(a, b) == Before(a, b) && Tied(before, a, b) == Ties(a, b) {
    }
    if Orderly(ops) {
      forall a, b, c | a in ops && b in ops && c in ops
        ensures TransitiveAt(a, b, c) && TiesTransitiveAt(a, b, c)
      {
        OrderlyTriple(a, b, c);
      }
      assert Transitive(before, ops) && TiesTransitive(before, ops) by { hide Before, Tied, Ties; }
    } else {
      var a, b, c :| a in ops && b in ops && c in ops && !(SharedRankIsFlat(a, b, c) && ReplantsAreClosed(a, b, c));
      if !SharedRankIsFlat(a, b, c) { SharedRankBreaksTies(a, b, c); } else { OpenReplantsBreakOrder(a, b, c); }
    }
  }

  /** So the queue comes out in order, whatever list of those operations goes in, exactly if the set is orderly. */
  lemma QueueIsOrderedExactly(ops: set<Placed>)
    ensures (forall pool: seq<Placed> :: DrawnFrom(pool, ops) ==> OrderedBy((a, b) => Before(a, b), Sorted(pool)))
            <==> Orderly(ops)
  {
    var before := (a: Placed, b: Placed) => Before(a, b);
    forall a, b | a in ops && b in ops ensures !(before(a, b) && before(b, a)) { NeverBothWays(a, b); }
    SortOrdersExactly(before, ops);
    StrictWeakExactly(ops);
  }

  /** Ties do not chain: two operations of one category, in order, can both tie with one of another category. */
  lemma TiesAreNotTransitive(lane: int, priority: int, domain: int, id: int)
    ensures var first := Placed(Rank(lane, priority, Order, domain, id), false);
            var second := Placed(Rank(lane, priority, Order, domain, id + 1), false);
            var other := Placed(Rank(lane, priority, Water, domain, id), false);
            Before(first, second) && Ties(first, other) && Ties(other, second) && !Orderly({first, second, other})
  {
    var first := Placed(Rank(lane, priority, Order, domain, id), false);
    var second := Placed(Rank(lane, priority, Order, domain, id + 1), false);
    var other := Placed(Rank(lane, priority, Water, domain, id), false);
    assert !SharedRankIsFlat(first, other, second);
  }

  /** Nor is the order transitive: an ordinary planting between two auto-replant ones is ordered with both, they are not. */
  lemma OrderIsNotTransitive(lane: int, priority: int, domain: int, id: int)
    ensures var first := Placed(Rank(lane, priority, Plant, domain, id), true);
            var between := Placed(Rank(lane, priority, Plant, domain, id + 1), false);
            var last := Placed(Rank(lane, priority, Plant, domain, id + 2), true);
            Before(first, between) && Before(between, last) && Ties(first, last) && !Orderly({first, between, last})
  {
    var first := Placed(Rank(lane, priority, Plant, domain, id), true);
    var between := Placed(Rank(lane, priority, Plant, domain, id + 1), false);
    var last := Placed(Rank(lane, priority, Plant, domain, id + 2), true);
    assert !ReplantsAreClosed(first, last, between);
  }
}
