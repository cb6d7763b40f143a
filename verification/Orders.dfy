/**
 One plan over the orders of a player: the direct demands of all orders, then the flowers for the flower arts that
 customer orders still miss, are reserved in two sorted batches; then orders are accepted and crafts planned.
 */
module Orders {
  import opened Common
  import opened Ledger

  /** What the catalog and the vases say: the flowers of each art, and the arts whose vase is unlocked. */
  datatype Facts = Facts(recipes: map<int, seq<int>>, unlocked: set<int>)

  predicate HasRecipe(f: Facts, art: int) { art > 0 && art in f.recipes }

  /** `place` is where a demand id stands in the text order; `listed` is the order in which the orders are ranged over. */
  datatype Plan = Plan(facts: Facts, inventory: map<int, int>, orders: map<OrderKey, Order>, listed: seq<OrderKey>,
                       priority: OrderKey -> int, place: DemandId -> int)

  // ----- the direct demands -----

  /** A flower art without a recipe is never reserved, one that is short in stock only if it could be made. */
  predicate RowBlocked(f: Facts, inventory: map<int, int>, r: Row) {
    r.kind.FlowerArt? && (!HasRecipe(f, r.item) || (At(inventory, r.item) < r.count && r.item !in f.unlocked))
  }

  function DemandOf(p: Plan, key: OrderKey, r: Row): Demand {
    var have := At(p.inventory, r.item);
    Demand(RowId(key, r), r.kind, r.item, r.count, RowBlocked(p.facts, p.inventory, r), p.priority(key),
           have, 0, have, Max(0, r.count - have))
  }

  function DemandsOf(p: Plan, key: OrderKey, rows: seq<Row>): seq<Demand> {
    if rows == [] then []
    else
      var r := rows[|rows| - 1];
      DemandsOf(p, key, rows[..|rows| - 1]) + if r.item > 0 && r.count > 0 then [DemandOf(p, key, r)] else []
  }

  function Built(p: Plan, listed: seq<OrderKey>): seq<Demand> {
    if listed == [] then []
    else
      var key := listed[|listed| - 1];
      Built(p, listed[..|listed| - 1]) + if key in p.orders then DemandsOf(p, key, p.orders[key].rows) else []
  }

  /** `buildDirectDemands` */
  function Direct(p: Plan): seq<Demand> { SortDemands(p.place, Built(p, p.listed)) }

  function AfterDirect(p: Plan): Book { AllocatedAll(NewBook(p.inventory), Direct(p)) }

  // ----- the production demands -----

  /** A direct demand as the first batch leaves it. */
  function Served(p: Plan, i: nat): Demand
    requires i < |Direct(p)|
  {
    Annotated(Before(NewBook(p.inventory), Direct(p), i), Direct(p)[i])
  }

  function CraftId(key: OrderKey, art: int, flower: int): DemandId { DemandId(key, Craft(art), Flower, flower) }

  function FlowerDemand(b: Book, d: Demand, flowers: seq<int>, flower: int): Demand {
    var required := FlowerCounts(flowers, flower) * d.missing;
    Demand(CraftId(d.id.key, d.item, flower), Flower, flower, required, false, d.priority,
           Owned(b, flower), 0, Available(b, flower), Max(0, required - Available(b, flower)))
  }

  /** `appendCraftFlowerDemands` */
  function FlowerDemands(b: Book, d: Demand, flowers: seq<int>, ids: seq<int>): (ds: seq<Demand>)
    ensures |ds| == |ids| && forall i :: 0 <= i < |ids| ==> ds[i] == FlowerDemand(b, d, flowers, ids[i])
  {
    seq(|ids|, i requires 0 <= i < |ids| => FlowerDemand(b, d, flowers, ids[i]))
  }

  function CraftDemands(f: Facts, b: Book, d: Demand): seq<Demand> {
    if !d.id.key.goal.Customer? || !d.kind.FlowerArt? || d.missing <= 0 || d.blocked then []
    else if !HasRecipe(f, d.item) || d.item !in f.unlocked then []
    else FlowerDemands(b, d, f.recipes[d.item], Ascending(PositiveFlowers(f.recipes[d.item])))
  }

  function ProductionOf(p: Plan, n: nat): seq<Demand>
    requires n <= |Direct(p)|
  {
    if n == 0 then [] else ProductionOf(p, n - 1) + CraftDemands(p.facts, AfterDirect(p), Served(p, n - 1))
  }

  /** `buildProductionDemands` */
  function Production(p: Plan): seq<Demand> { SortDemands(p.place, ProductionOf(p, |Direct(p)|)) }

  /** The ledger when orders are judged. */
  function PlanBook(p: Plan): Book { AllocatedAll(AfterDirect(p), Production(p)) }

  // ----- crafts for customer orders -----

  /** `allocatedCraftFlowerCounts`: what the demands with this id were granted. */
  function GrantedTo(b: Book, demands: seq<Demand>, id: DemandId): nat
    decreases |demands|
  {
    if demands == [] then 0
    else
      var front, d := demands[..|demands| - 1], demands[|demands| - 1];
      GrantedTo(b, front, id) + if d.id == id then Granted(AllocatedAll(b, front), d) else 0
  }

  /** The first flower art of the order that is short in stock, and how many are missing. */
  function MissingArt(b: Book, rows: seq<Row>): Option<(int, int)> {
    if rows == [] then None
    else
      var r := rows[0];
      if r.kind.FlowerArt? && r.item != 0 && r.count > 0 && r.count > Owned(b, r.item)
      then Some((r.item, r.count - Owned(b, r.item)))
      else MissingArt(b, rows[1..])
  }

  /** `FlowerArtAvailabilityWithAllocated`: what is available and the craft's own reservations suffice for every flower. */
  ghost predicate Craftable(p: Plan, key: OrderKey, art: int, count: int) {
    && HasRecipe(p.facts, art) && art in p.facts.unlocked
    && forall flower: int :: flower > 0 && flower in p.facts.recipes[art] ==>
         FlowerCounts(p.facts.recipes[art], flower) * count
           <= Available(PlanBook(p), flower) + GrantedTo(AfterDirect(p), Production(p), CraftId(key, art, flower))
  }

  /** `craftOperationForCustomerOrder` plans an executable craft. */
  ghost predicate PlansCraft(p: Plan, key: OrderKey) {
    && key in p.orders && key in p.listed && key.goal.Customer?
    && var missing := MissingArt(PlanBook(p), p.orders[key].rows);
       missing.Some? && Craftable(p, key, missing.value.0, missing.value.1)
  }

  /** What the craft takes of a flower. */
  function CraftNeed(p: Plan, key: OrderKey, flower: int): int {
    var missing := if key in p.orders then MissingArt(PlanBook(p), p.orders[key].rows) else None;
    if missing.None? || missing.value.0 !in p.facts.recipes || flower <= 0 then 0
    else FlowerCounts(p.facts.recipes[missing.value.0], flower) * missing.value.1
  }

  lemma {:induction false} GrantedToIsReserved(b: Book, demands: seq<Demand>, id: DemandId)
    requires forall i :: 0 <= i < |demands| && demands[i].id == id ==> demands[i].item == id.item
    ensures ReservedFor(AllocatedAll(b, demands), id, id.item) == ReservedFor(b, id, id.item) + GrantedTo(b, demands, id)
    decreases |demands|
  {
    if demands != [] {
      var front, d := demands[..|demands| - 1], demands[|demands| - 1];
      assert forall i :: 0 <= i < |front| ==> front[i] == demands[i];
      GrantedToIsReserved(b, front, id);
      AllocatedChanges(AllocatedAll(b, front), d, id, id.item);
    }
  }

  /** Every single grant is part of the whole. */
  lemma {:induction false} OneGrantCounts(b: Book, demands: seq<Demand>, i: nat)
    requires i < |demands|
    ensures GrantedTo(b, demands, demands[i].id) >= Granted(Before(b, demands, i), demands[i])
    decreases |demands|
  {
    var front := demands[..|demands| - 1];
    if i < |front| {
      OneGrantCounts(b, front, i);
      assert front[..i] == demands[..i] && front[i] == demands[i];
    }
  }

  lemma {:induction false} DemandsOfHas(p: Plan, key: OrderKey, rows: seq<Row>, i: nat)
    requires i < |rows| && rows[i].item > 0 && rows[i].count > 0
    ensures DemandOf(p, key, rows[i]) in DemandsOf(p, key, rows)
  {
    if i < |rows| - 1 { DemandsOfHas(p, key, rows[..|rows| - 1], i); }
  }

  lemma {:induction false} BuiltHas(p: Plan, listed: seq<OrderKey>, key: OrderKey, i: nat)
    requires key in listed && key in p.orders && i < |p.orders[key].rows|
    requires p.orders[key].rows[i].item > 0 && p.orders[key].rows[i].count > 0
    ensures DemandOf(p, key, p.orders[key].rows[i]) in Built(p, listed)
  {
    var last := listed[|listed| - 1];
    if last == key {
      DemandsOfHas(p, key, p.orders[key].rows, i);
    } else {
      assert key in listed[..|listed| - 1];
      BuiltHas(p, listed[..|listed| - 1], key, i);
    }
  }

  lemma SortedHas(place: DemandId -> int, demands: seq<Demand>, d: Demand)
    ensures d in SortDemands(place, demands) <==> d in demands
  {
    hide SortDemands;
    SortDemandsSorts(place, demands);
    assert d in demands <==> d in multiset(demands);
    assert d in SortDemands(place, demands) <==> d in multiset(SortDemands(place, demands));
  }

  lemma {:induction false} ProductionOfHas(p: Plan, n: nat, i: nat, d: Demand)
    requires i < n <= |Direct(p)| && d in CraftDemands(p.facts, AfterDirect(p), Served(p, i))
    ensures d in ProductionOf(p, n)
  {
    hide Direct, AfterDirect, Served, CraftDemands;
    if i < n - 1 { ProductionOfHas(p, n - 1, i, d); }
  }

  /** The ids of production demands. */
  lemma {:induction false} ProductionIds(p: Plan, n: nat)
    requires n <= |Direct(p)|
    ensures forall d :: d in ProductionOf(p, n) ==> d.id.source.Craft? && d.item == d.id.item
  {
    hide Direct, AfterDirect, Served, FlowerCounts, Ascending;
    if n > 0 { ProductionIds(p, n - 1); }
  }

  lemma SortedProductionIds(p: Plan)
    ensures forall i :: 0 <= i < |Production(p)| ==> Production(p)[i].id.source.Craft? && Production(p)[i].item == Production(p)[i].id.item
  {
    ProductionIds(p, |Direct(p)|);
    forall i | 0 <= i < |Production(p)|
      ensures Production(p)[i].id.source.Craft? && Production(p)[i].item == Production(p)[i].id.item
    {
      SortedHas(p.place, ProductionOf(p, |Direct(p)|), Production(p)[i]);
    }
  }

  lemma BooksOk(p: Plan)
    ensures BookOk(NewBook(p.inventory)) && BookOk(AfterDirect(p)) && BookOk(PlanBook(p))
    ensures forall item: int :: Owned(AfterDirect(p), item) == Owned(PlanBook(p), item) == Owned(NewBook(p.inventory), item)
  {
    NewBookOk(p.inventory);
    AllocatedAllKeepsBook(NewBook(p.inventory), Direct(p));
    AllocatedAllKeepsBook(AfterDirect(p), Production(p));
    forall item: int ensures Owned(AfterDirect(p), item) == Owned(PlanBook(p), item) == Owned(NewBook(p.inventory), item) {
      BatchIsGreedy(NewBook(p.inventory), Direct(p), item);
      BatchIsGreedy(AfterDirect(p), Production(p), item);
    }
  }

  lemma {:induction false} MissingArtIs(b: Book, rows: seq<Row>)
    requires MissingArt(b, rows).Some?
    ensures exists i :: 0 <= i < |rows| && rows[i].kind.FlowerArt? && rows[i].count > 0
              && rows[i].count > Owned(b, rows[i].item) && MissingArt(b, rows).value == (rows[i].item, rows[i].count - Owned(b, rows[i].item))
  {
    var r := rows[0];
    if r.kind.FlowerArt? && r.item != 0 && r.count > 0 && r.count > Owned(b, r.item) {
      assert MissingArt(b, rows).value == (rows[0].item, rows[0].count - Owned(b, rows[0].item));
    } else {
      MissingArtIs(b, rows[1..]);
      var i :| 0 <= i < |rows[1..]| && rows[1..][i].kind.FlowerArt? && rows[1..][i].count > 0
               && rows[1..][i].count > Owned(b, rows[1..][i].item)
               && MissingArt(b, rows[1..]).value == (rows[1..][i].item, rows[1..][i].count - Owned(b, rows[1..][i].item));
      assert rows[i + 1] == rows[1..][i];
    }
  }

  /** A direct demand never gets more than is owned, so it misses at least what is short in stock. */
  lemma MissesAtLeast(p: Plan, j: nat)
    requires j < |Direct(p)|
    ensures Served(p, j).missing >= Direct(p)[j].count - Max(0, Owned(PlanBook(p), Direct(p)[j].item))
    ensures Served(p, j) == Direct(p)[j].(have := Served(p, j).have, granted := Served(p, j).granted,
                                          available := Served(p, j).available, missing := Served(p, j).missing)
  {
    var d := Direct(p)[j];
    BooksOk(p);
    hide Direct, PlanBook, AfterDirect, NewBook;
    AllocatedAllKeepsBook(NewBook(p.inventory), Direct(p)[..j]);
    BatchIsGreedy(NewBook(p.inventory), Direct(p)[..j], d.item);
    assert ItemOk(Before(NewBook(p.inventory), Direct(p), j), d.item);
  }

  /** The direct demand of a flower-art row that can be made, after the first batch. */
  lemma ServedRow(p: Plan, key: OrderKey, i: nat) returns (k: nat)
    requires key in p.orders && key in p.listed && i < |p.orders[key].rows|
    requires var r := p.orders[key].rows[i];
             && r.kind.FlowerArt? && HasRecipe(p.facts, r.item) && r.item in p.facts.unlocked
             && r.count > 0 && Owned(PlanBook(p), r.item) >= 0
    ensures var r := p.orders[key].rows[i];
            && k < |Direct(p)| && Served(p, k).id.key == key && Served(p, k).kind.FlowerArt? && Served(p, k).item == r.item
            && !Served(p, k).blocked && Served(p, k).missing >= r.count - Owned(PlanBook(p), r.item)
  {
    var r := p.orders[key].rows[i];
    BuiltHas(p, p.listed, key, i);
    SortedHas(p.place, Built(p, p.listed), DemandOf(p, key, r));
    k :| 0 <= k < |Direct(p)| && Direct(p)[k] == DemandOf(p, key, r);
    hide Direct, PlanBook, Served;
    MissesAtLeast(p, k);
  }

  /** And the production demands it leads to. */
  lemma FlowerIsProduced(p: Plan, k: nat, flower: int) returns (j: nat)
    requires k < |Direct(p)|
    requires var d := Served(p, k);
             && d.id.key.goal.Customer? && d.kind.FlowerArt? && d.missing > 0 && !d.blocked
             && HasRecipe(p.facts, d.item) && d.item in p.facts.unlocked
             && flower > 0 && flower in p.facts.recipes[d.item]
    ensures j < |Production(p)|
    ensures Production(p)[j] == FlowerDemand(AfterDirect(p), Served(p, k), p.facts.recipes[Served(p, k).item], flower)
  {
    hide Direct, AfterDirect, Served, SortDemands, FlowerDemand;
    var served := Served(p, k);
    var flowers := p.facts.recipes[served.item];
    var d := FlowerDemand(AfterDirect(p), served, flowers, flower);
    assert flower in Ascending(PositiveFlowers(flowers));
    assert d in CraftDemands(p.facts, AfterDirect(p), served);
    ProductionOfHas(p, |Direct(p)|, k, d);
    SortedHas(p.place, ProductionOf(p, |Direct(p)|), d);
    j :| 0 <= j < |Production(p)| && Production(p)[j] == d;
  }

  lemma FlowerDemandIs(b: Book, d: Demand, flowers: seq<int>, flower: int, n: int)
    requires flower > 0 && flower in flowers && d.missing >= n >= 1
    ensures var f := FlowerDemand(b, d, flowers, flower);
            && f.id == CraftId(d.id.key, d.item, flower) && f.item == flower && Eligible(f)
            && f.count >= FlowerCounts(flowers, flower) * n
  {
    FlowerCounted(flowers, flower);
    FewerIsLess(FlowerCounts(flowers, flower), n, d.missing);
    FewerIsLess(FlowerCounts(flowers, flower), 1, d.missing);
  }

  /** For each flower of a missing art that can be made there is a production demand of at least what the craft takes. */
  lemma ProductionCovers(p: Plan, key: OrderKey, i: nat, flower: int) returns (j: nat)
    requires key in p.orders && key in p.listed && key.goal.Customer? && i < |p.orders[key].rows|
    requires var r := p.orders[key].rows[i];
             && r.kind.FlowerArt? && HasRecipe(p.facts, r.item) && r.item in p.facts.unlocked
             && r.count > 0 && r.count > Owned(PlanBook(p), r.item) && Owned(PlanBook(p), r.item) >= 0
             && flower > 0 && flower in p.facts.recipes[r.item]
    ensures var r := p.orders[key].rows[i];
            && j < |Production(p)| && Production(p)[j].id == CraftId(key, r.item, flower)
            && Eligible(Production(p)[j]) && Production(p)[j].item == flower
            && Production(p)[j].count >= FlowerCounts(p.facts.recipes[r.item], flower) * (r.count - Owned(PlanBook(p), r.item))
  {
    var r := p.orders[key].rows[i];
    hide Direct, PlanBook, AfterDirect, Served, Production, FlowerCounts, FlowerDemand, Eligible, Owned;
    var k := ServedRow(p, key, i);
    j := FlowerIsProduced(p, k, flower);
    FlowerDemandIs(AfterDirect(p), Served(p, k), p.facts.recipes[r.item], flower, r.count - Owned(PlanBook(p), r.item));
  }

  /** What a craft was granted is what its id holds. */
  lemma CraftGrants(p: Plan, key: OrderKey, art: int, flower: int)
    ensures GrantedTo(AfterDirect(p), Production(p), CraftId(key, art, flower))
            <= ReservedFor(PlanBook(p), CraftId(key, art, flower), flower)
  {
    BooksOk(p);
    SortedProductionIds(p);
    GrantedToIsReserved(AfterDirect(p), Production(p), CraftId(key, art, flower));
    assert ItemOk(AfterDirect(p), flower);
  }

  lemma CraftableIsReserved(p: Plan, key: OrderKey, i: nat, flower: int)
    requires key in p.orders && key in p.listed && key.goal.Customer? && i < |p.orders[key].rows|
    requires var r := p.orders[key].rows[i];
             && r.kind.FlowerArt? && r.count > 0 && r.count > Owned(PlanBook(p), r.item) && Owned(PlanBook(p), r.item) >= 0
             && Craftable(p, key, r.item, r.count - Owned(PlanBook(p), r.item))
             && flower > 0 && flower in p.facts.recipes[r.item]
    ensures var r := p.orders[key].rows[i];
            FlowerCounts(p.facts.recipes[r.item], flower) * (r.count - Owned(PlanBook(p), r.item))
              <= ReservedFor(PlanBook(p), CraftId(key, r.item, flower), flower)
  {
    var r := p.orders[key].rows[i];
    hide Direct, AfterDirect, Production, PlanBook, FlowerCounts, GrantedTo, ReservedFor, Available, Owned;
    var j := ProductionCovers(p, key, i, flower);
    GrantedOrExhausted(p, j);
    CraftGrants(p, key, r.item, flower);
  }

  /** A planned craft takes no more of a flower than its own production demands have reserved. */
  lemma CraftIsReserved(p: Plan, key: OrderKey, flower: int)
    requires PlansCraft(p, key)
    ensures var art := MissingArt(PlanBook(p), p.orders[key].rows).value.0;
            CraftNeed(p, key, flower) <= ReservedFor(PlanBook(p), CraftId(key, art, flower), flower)
  {
    hide PlanBook, FlowerCounts, Craftable, ReservedFor, Reserved, MissingArt, Owned, BookOk;
    var i := CraftRow(p, key);
    var art := p.orders[key].rows[i].item;
    BooksOk(p);
    BookIsSound(PlanBook(p), CraftId(key, art, flower), art);
    BookIsSound(PlanBook(p), CraftId(key, art, flower), flower);
    if flower > 0 {
      if flower in p.facts.recipes[art] {
        CraftableIsReserved(p, key, i, flower);
      } else {
        FlowerCounted(p.facts.recipes[art], flower);
      }
    }
  }

  /** The row a planned craft is for. */
  lemma CraftRow(p: Plan, key: OrderKey) returns (i: nat)
    requires PlansCraft(p, key)
    ensures i < |p.orders[key].rows|
    ensures var r := p.orders[key].rows[i];
            && r.kind.FlowerArt? && r.count > 0 && r.count > Owned(PlanBook(p), r.item) && r.item in p.facts.recipes
            && MissingArt(PlanBook(p), p.orders[key].rows) == Some((r.item, r.count - Owned(PlanBook(p), r.item)))
            && Craftable(p, key, r.item, r.count - Owned(PlanBook(p), r.item))
  {
    var rows := p.orders[key].rows;
    hide PlanBook, FlowerCounts, Craftable, MissingArt, Owned;
    MissingArtIs(PlanBook(p), rows);
    i :| 0 <= i < |rows| && rows[i].kind.FlowerArt? && rows[i].count > 0 && rows[i].count > Owned(PlanBook(p), rows[i].item)
         && MissingArt(PlanBook(p), rows).value == (rows[i].item, rows[i].count - Owned(PlanBook(p), rows[i].item));
    CraftableHasRecipe(p, key, rows[i].item, rows[i].count - Owned(PlanBook(p), rows[i].item));
  }

  lemma BookIsSound(b: Book, id: DemandId, item: int)
    requires BookOk(b)
    ensures Owned(b, item) >= 0 && ReservedFor(b, id, item) >= 0
  {
    assert ItemOk(b, item);
  }

  lemma CraftableHasRecipe(p: Plan, key: OrderKey, art: int, count: int)
    requires Craftable(p, key, art, count)
    ensures art in p.facts.recipes
  {
  }

  /** A production demand is granted in full, or nothing of its flower is left. */
  lemma GrantedOrExhausted(p: Plan, j: nat)
    requires j < |Production(p)| && Eligible(Production(p)[j])
    ensures || GrantedTo(AfterDirect(p), Production(p), Production(p)[j].id) >= Production(p)[j].count
            || Available(PlanBook(p), Production(p)[j].item) == 0
  {
    var b, demands := AfterDirect(p), Production(p);
    var d := demands[j];
    OneGrantCounts(b, demands, j);
    BooksOk(p);
    hide Direct, AfterDirect, Production, NewBook;
    if Granted(Before(b, demands, j), d) < d.count {
      AllocatedAllKeepsBook(b, demands[..j]);
      assert ItemOk(Before(b, demands, j), d.item);
      BeforeNext(b, demands, j);
      AllocatedChanges(Before(b, demands, j), d, d.id, d.item);
      ExhaustedStays(b, demands, j + 1, |demands|, d.item);
      NothingYet(b, demands);
    }
  }

  /** The reservations of orders and of crafts are different entries of the ledger. */
  lemma {:induction false} CraftsApart(b: Book, keys: set<OrderKey>, crafting: set<OrderKey>, art: OrderKey -> int,
                                       ids: set<DemandId>, flower: int)
    requires ItemOk(b, flower)
    requires forall id: DemandId :: id.key in keys && id.source.Direct? && id !in ids ==> ReservedFor(b, id, flower) == 0
    requires forall id: DemandId :: id.key in crafting && id.source.Craft? && id !in ids ==> ReservedFor(b, id, flower) == 0
    ensures Sum(keys, key => ReservedFor(b, DemandId(key, Source.Direct, Flower, flower), flower)
                             + ReservedFor(b, DemandId(key, Source.Direct, FlowerArt, flower), flower))
            + Sum(crafting, key => ReservedFor(b, CraftId(key, art(key), flower), flower))
            <= Sum(ids, id => ReservedFor(b, id, flower))
    decreases |crafting|
  {
    var f := (key: OrderKey) => ReservedFor(b, CraftId(key, art(key), flower), flower);
    var g := (id: DemandId) => ReservedFor(b, id, flower);
    if crafting == {} {
      ReservationsApart(b, keys, ids, flower);
    } else {
      var key :| key in crafting;
      var id := CraftId(key, art(key), flower);
      SumSplit(crafting, key, f);
      CraftsApart(b, keys, crafting - {key}, art, ids - {id}, flower);
      TakeOut(ids, id, g);
    }
  }

  /**
   Everything one plan promises at once: the accepted orders, each listing its items once, and one craft for every
   customer order that plans one, can be served together from the inventory, and what is still available on top of it.
   */
  lemma OrdersAndCraftsTogether(p: Plan, accepted: set<OrderKey>, crafting: set<OrderKey>, item: int)
    requires accepted <= p.orders.Keys
    requires forall key :: key in accepted ==> CanFulfill(PlanBook(p), key, p.orders[key]) && ListsOnce(p.orders[key].rows)
    requires forall key :: key in crafting ==> PlansCraft(p, key)
    ensures TotalNeed(p.orders, accepted, item) + Sum(crafting, key => CraftNeed(p, key, item)) + Available(PlanBook(p), item)
            <= Owned(PlanBook(p), item)
  {
    var b := PlanBook(p);
    BooksOk(p);
    assert ItemOk(b, item);
    var art := (key: OrderKey) =>
      if key in p.orders && MissingArt(PlanBook(p), p.orders[key].rows).Some? then MissingArt(PlanBook(p), p.orders[key].rows).value.0 else 0;
    var needs := (key: OrderKey) => if key in p.orders then Need(p.orders[key], item) else 0;
    var mine := (key: OrderKey) => ReservedFor(b, DemandId(key, Source.Direct, Flower, item), item)
                                   + ReservedFor(b, DemandId(key, Source.Direct, FlowerArt, item), item);
    var crafts := (key: OrderKey) => CraftNeed(p, key, item);
    var reserved := (key: OrderKey) => ReservedFor(b, CraftId(key, art(key), item), item);
    forall key | key in accepted ensures needs(key) <= mine(key) { AcceptedIsReserved(b, key, p.orders[key], item); }
    SumAtMost(accepted, needs, mine);
    forall key | key in crafting ensures crafts(key) <= reserved(key) { CraftIsReserved(p, key, item); }
    SumAtMost(crafting, crafts, reserved);
    CraftsApart(b, accepted, crafting, art, b.byDemand.Keys, item);
  }

  // ----- an order that lists an item twice -----

  /** The plan of a player with this one order. */
  function Sole(f: Facts, inventory: map<int, int>, place: DemandId -> int, priority: OrderKey -> int,
                key: OrderKey, order: Order): Plan {
    Plan(f, inventory, map[key := order], [key], priority, place)
  }

  ghost predicate Accepted(p: Plan, key: OrderKey) { key in p.orders && CanFulfill(PlanBook(p), key, p.orders[key]) }

  ghost predicate Deliverable(p: Plan, key: OrderKey) {
    key in p.orders && forall item: int :: Need(p.orders[key], item) <= Owned(PlanBook(p), item)
  }

  /** Some inventory gets the order accepted: the rows it looks at name items that can be reserved. */
  predicate Acceptable(f: Facts, order: Order) {
    && RowsReservable(f, order.rows)
    && match order.style
       case Boxed => |order.rows| > 0 && forall i :: 0 <= i < |order.rows| ==> Counted(order.rows[i])
       case Single => |order.rows| == 1 && order.rows[0].item > 0 && order.rows[0].count > 0
       case ForCustomer => exists i :: 0 <= i < |order.rows| && Counted(order.rows[i])
  }

  predicate Reservable(f: Facts, r: Row) { r.item > 0 && (r.kind.Flower? || (r.kind.FlowerArt? && HasRecipe(f, r.item))) }

  predicate RowsReservable(f: Facts, rows: seq<Row>) {
    forall i :: 0 <= i < |rows| && Counted(rows[i]) ==> Reservable(f, rows[i])
  }

  /** No item is listed both as a flower and as a flower art; the catalog keeps their ids apart. */
  predicate KindsApart(rows: seq<Row>) {
    forall i, j :: 0 <= i < |rows| && 0 <= j < |rows| && Counted(rows[i]) && Counted(rows[j]) && rows[i].item == rows[j].item ==>
      rows[i].kind == rows[j].kind
  }

  predicate NoneBlocked(f: Facts, inventory: map<int, int>, rows: seq<Row>) {
    forall i :: 0 <= i < |rows| && Counted(rows[i]) ==> !RowBlocked(f, inventory, rows[i])
  }

  // What a batch wants of an item does not depend on its order.

  function Want(d: Demand, item: int): nat { if Eligible(d) && d.item == item then d.count else 0 }

  lemma {:induction false} WantedWithout(demands: seq<Demand>, i: nat, item: int)
    requires i < |demands|
    ensures Wanted(demands, item) == Wanted(demands[..i] + demands[i + 1..], item) + Want(demands[i], item)
    decreases |demands|
  {
    var n := |demands| - 1;
    if i == n {
      assert demands[..i] + demands[i + 1..] == demands[..n];
    } else {
      var rest := demands[..i] + demands[i + 1..];
      WantedWithout(demands[..n], i, item);
      assert rest[..n - 1] == demands[..n][..i] + demands[..n][i + 1..];
      assert rest[n - 1] == demands[n];
    }
  }

  lemma WithoutOne<T>(s: seq<T>, i: nat)
    requires i < |s|
    ensures multiset(s[..i] + s[i + 1..]) == multiset(s) - multiset{s[i]}
  {
    assert s == s[..i] + [s[i]] + s[i + 1..];
  }

  lemma {:induction false} WantedPermuted(a: seq<Demand>, b: seq<Demand>, item: int)
    requires multiset(a) == multiset(b)
    ensures Wanted(a, item) == Wanted(b, item)
    decreases |a|
  {
    if a == [] {
      assert |multiset(b)| == |b|;
    } else {
      var n := |a| - 1;
      assert a[n] in multiset(a);
      var i :| 0 <= i < |b| && b[i] == a[n];
      WithoutOne(a, n);
      WithoutOne(b, i);
      assert a[..n] + a[n + 1..] == a[..n];
      WantedPermuted(a[..n], b[..i] + b[i + 1..], item);
      WantedWithout(a, n, item);
      WantedWithout(b, i, item);
    }
  }

  lemma {:induction false} KindNeedLast(rows: seq<Row>, r: Row, kind: Kind, item: int)
    ensures KindNeed(rows + [r], kind, item)
            == KindNeed(rows, kind, item) + if Counted(r) && r.kind == kind && r.item == item then r.count else 0
  {
    if rows == [] {
      assert rows + [r] == [r] && [r][1..] == [];
    } else {
      assert (rows + [r])[1..] == rows[1..] + [r];
      KindNeedLast(rows[1..], r, kind, item);
    }
  }

  lemma WantedLast(demands: seq<Demand>, d: Demand, item: int)
    ensures Wanted(demands + [d], item) == Wanted(demands, item) + Want(d, item)
  {
    assert (demands + [d])[..|demands|] == demands;
  }

  function RowNeed(r: Row, kind: Kind, item: int): nat {
    if Counted(r) && r.kind == kind && r.item == item then r.count else 0
  }

  lemma RowWants(p: Plan, key: OrderKey, r: Row, item: int)
    requires Counted(r) ==> Reservable(p.facts, r) && !RowBlocked(p.facts, p.inventory, r)
    ensures (if r.item > 0 && r.count > 0 then Want(DemandOf(p, key, r), item) else 0)
            == RowNeed(r, Flower, item) + RowNeed(r, FlowerArt, item)
  {
  }

  lemma NeedLast(rows: seq<Row>, item: int)
    requires rows != []
    ensures var front, r := rows[..|rows| - 1], rows[|rows| - 1];
            KindNeed(rows, Flower, item) + KindNeed(rows, FlowerArt, item)
            == KindNeed(front, Flower, item) + KindNeed(front, FlowerArt, item) + RowNeed(r, Flower, item) + RowNeed(r, FlowerArt, item)
  {
    var front, r := rows[..|rows| - 1], rows[|rows| - 1];
    KindNeedLast(front, r, Flower, item);
    KindNeedLast(front, r, FlowerArt, item);
    assert front + [r] == rows;
  }

  /** What the demands of an order want of an item is what delivering it takes. */
  lemma {:induction false} WantedIsNeeded(p: Plan, key: OrderKey, rows: seq<Row>, item: int)
    requires RowsReservable(p.facts, rows) && NoneBlocked(p.facts, p.inventory, rows)
    ensures Wanted(DemandsOf(p, key, rows), item) == KindNeed(rows, Flower, item) + KindNeed(rows, FlowerArt, item)
  {
    if rows != [] {
      hide KindNeed, Wanted, RowBlocked, Reservable, DemandOf, Want, RowNeed, Counted;
      var front, r := rows[..|rows| - 1], rows[|rows| - 1];
      assert forall i :: 0 <= i < |front| ==> front[i] == rows[i];
      WantedIsNeeded(p, key, front, item);
      NeedLast(rows, item);
      RowWants(p, key, r, item);
      WantedLast(DemandsOf(p, key, front), DemandOf(p, key, r), item);
      assert DemandsOf(p, key, front) + [] == DemandsOf(p, key, front);
    }
  }

  lemma {:induction false} TwoRowsNeed(rows: seq<Row>, i: nat, j: nat)
    requires i < j < |rows| && Clash(rows[i], rows[j])
    ensures KindNeed(rows, rows[i].kind, rows[i].item) >= rows[i].count + rows[j].count
  {
    if i > 0 { TwoRowsNeed(rows[1..], i - 1, j - 1); } else { OneRowNeeds(rows[1..], j - 1); }
  }

  lemma {:induction false} OneRowNeeds(rows: seq<Row>, i: nat)
    requires i < |rows| && Counted(rows[i])
    ensures KindNeed(rows, rows[i].kind, rows[i].item) >= rows[i].count
  {
    if i > 0 { OneRowNeeds(rows[1..], i - 1); }
  }

  /** The demands of an order carry its key, the kind of their row and no source but the order itself. */
  lemma {:induction false} DemandsOfIds(p: Plan, key: OrderKey, rows: seq<Row>)
    ensures forall d :: d in DemandsOf(p, key, rows) ==>
              exists i :: 0 <= i < |rows| && Counted(rows[i]) && d.id == RowId(key, rows[i]) && d.item == rows[i].item
  {
    if rows != [] {
      var front, last := rows[..|rows| - 1], rows[|rows| - 1];
      DemandsOfIds(p, key, front);
      forall d | d in DemandsOf(p, key, rows)
        ensures exists i :: 0 <= i < |rows| && Counted(rows[i]) && d.id == RowId(key, rows[i]) && d.item == rows[i].item
      {
        if d in DemandsOf(p, key, front) {
          var i :| 0 <= i < |front| && Counted(front[i]) && d.id == RowId(key, front[i]) && d.item == front[i].item;
          assert rows[i] == front[i];
        } else {
          assert d.id == RowId(key, rows[|rows| - 1]);
        }
      }
    }
  }

  /** If one id takes all that is reserved of an item, it holds all of it. */
  lemma {:induction false} OneIdHoldsAll(b: Book, demands: seq<Demand>, id: DemandId)
    requires forall i :: 0 <= i < |demands| && demands[i].item == id.item ==> demands[i].id == id
    ensures ReservedFor(AllocatedAll(b, demands), id, id.item) - ReservedFor(b, id, id.item)
            == Reserved(AllocatedAll(b, demands), id.item) - Reserved(b, id.item)
    decreases |demands|
  {
    if demands != [] {
      var front, d := demands[..|demands| - 1], demands[|demands| - 1];
      assert forall i :: 0 <= i < |front| ==> front[i] == demands[i];
      OneIdHoldsAll(b, front, id);
      AllocatedChanges(AllocatedAll(b, front), d, id, id.item);
    }
  }

  /** The second batch leaves the reservations of the orders alone. */
  lemma {:induction false} OtherIdsUntouched(b: Book, demands: seq<Demand>, id: DemandId)
    requires forall i :: 0 <= i < |demands| ==> demands[i].id != id
    ensures ReservedFor(AllocatedAll(b, demands), id, id.item) == ReservedFor(b, id, id.item)
    decreases |demands|
  {
    if demands != [] {
      var front, d := demands[..|demands| - 1], demands[|demands| - 1];
      assert forall i :: 0 <= i < |front| ==> front[i] == demands[i];
      OtherIdsUntouched(b, front, id);
      AllocatedChanges(AllocatedAll(b, front), d, id, id.item);
    }
  }

  lemma DirectUntouched(p: Plan, key: OrderKey, r: Row)
    ensures ReservedFor(PlanBook(p), RowId(key, r), r.item) == ReservedFor(AfterDirect(p), RowId(key, r), r.item)
  {
    SortedProductionIds(p);
    OtherIdsUntouched(AfterDirect(p), Production(p), RowId(key, r));
  }

  lemma SoleBuilt(p: Plan, key: OrderKey)
    requires p.listed == [key] && key in p.orders
    ensures Built(p, p.listed) == DemandsOf(p, key, p.orders[key].rows)
  {
    assert [key][..0] == [] && Built(p, []) == [];
    assert [] + DemandsOf(p, key, p.orders[key].rows) == DemandsOf(p, key, p.orders[key].rows);
  }

  lemma SoleWants(p: Plan, key: OrderKey, item: int)
    requires p.listed == [key] && key in p.orders
    requires RowsReservable(p.facts, p.orders[key].rows) && NoneBlocked(p.facts, p.inventory, p.orders[key].rows)
    ensures Wanted(Direct(p), item) == Need(p.orders[key], item)
  {
    var demands := DemandsOf(p, key, p.orders[key].rows);
    SoleBuilt(p, key);
    SortDemandsSorts(p.place, demands);
    hide SortDemands, DemandsOf;
    WantedPermuted(Direct(p), demands, item);
    WantedIsNeeded(p, key, p.orders[key].rows, item);
  }

  /** All demands of a sole order for the item of a row have the id of that row. */
  lemma SoleIds(p: Plan, key: OrderKey, i: nat)
    requires p.listed == [key] && key in p.orders && i < |p.orders[key].rows| && Counted(p.orders[key].rows[i])
    requires KindsApart(p.orders[key].rows)
    ensures var r := p.orders[key].rows[i];
            forall k :: 0 <= k < |Direct(p)| && Direct(p)[k].item == r.item ==> Direct(p)[k].id == RowId(key, r)
  {
    var rows := p.orders[key].rows;
    var r := rows[i];
    SoleBuilt(p, key);
    DemandsOfIds(p, key, rows);
    hide SortDemands, DemandsOf;
    forall k | 0 <= k < |Direct(p)| && Direct(p)[k].item == r.item ensures Direct(p)[k].id == RowId(key, r) {
      SortedHas(p.place, DemandsOf(p, key, rows), Direct(p)[k]);
    }
  }

  /** What a sole order ends up with for one of its rows: all it needs of the item, or all there is. */
  lemma SoleReservation(p: Plan, key: OrderKey, i: nat)
    requires p.listed == [key] && key in p.orders && i < |p.orders[key].rows| && Counted(p.orders[key].rows[i])
    requires RowsReservable(p.facts, p.orders[key].rows) && NoneBlocked(p.facts, p.inventory, p.orders[key].rows)
    requires KindsApart(p.orders[key].rows)
    ensures var r := p.orders[key].rows[i];
            && ReservedFor(PlanBook(p), RowId(key, r), r.item) == Min(Need(p.orders[key], r.item), Owned(PlanBook(p), r.item))
            && Owned(PlanBook(p), r.item) == Owned(NewBook(p.inventory), r.item)
  {
    var r := p.orders[key].rows[i];
    SoleIds(p, key, i);
    SoleWants(p, key, r.item);
    BooksOk(p);
    DirectUntouched(p, key, r);
    hide Direct, PlanBook, Need, RowsReservable, NoneBlocked, KindsApart, Wanted;
    BatchIsGreedy(NewBook(p.inventory), Direct(p), r.item);
    OneIdHoldsAll(NewBook(p.inventory), Direct(p), RowId(key, r));
  }

  /** All that the rows need of each item they count, but one unit less of `item`. */
  function Stock(rows: seq<Row>, item: int): map<int, int> {
    map y | y in (set i | 0 <= i < |rows| && Counted(rows[i]) :: rows[i].item)
      :: KindNeed(rows, Flower, y) + KindNeed(rows, FlowerArt, y) - if y == item then 1 else 0
  }

  /** The item is not counted at all, or counted twice. */
  predicate Spare(rows: seq<Row>, item: int) {
    || (forall i :: 0 <= i < |rows| && Counted(rows[i]) ==> rows[i].item != item)
    || (exists i, j :: 0 <= i < j < |rows| && Clash(rows[i], rows[j]) && rows[i].item == item)
  }

  /** That stock still covers every single row. */
  lemma StockCoversRow(rows: seq<Row>, item: int, k: nat)
    requires KindsApart(rows) && Spare(rows, item) && k < |rows| && Counted(rows[k])
    requires rows[k].kind.Flower? || rows[k].kind.FlowerArt?
    ensures rows[k].item in Stock(rows, item) && Stock(rows, item)[rows[k].item] >= rows[k].count
  {
    OneRowNeeds(rows, k);
    if rows[k].item == item {
      var i, j :| 0 <= i < j < |rows| && Clash(rows[i], rows[j]) && rows[i].item == item;
      assert rows[i].kind == rows[k].kind;
      if k == i { TwoRowsNeed(rows, i, j); } else if k < i { TwoRowsNeed(rows, k, i); } else { TwoRowsNeed(rows, i, k); }
    }
  }

  lemma StockBlocksNothing(f: Facts, rows: seq<Row>, item: int)
    requires KindsApart(rows) && RowsReservable(f, rows) && Spare(rows, item)
    ensures NoneBlocked(f, Stock(rows, item), rows)
  {
    hide Spare, KindsApart;
    forall k | 0 <= k < |rows| && Counted(rows[k]) ensures !RowBlocked(f, Stock(rows, item), rows[k]) {
      assert Reservable(f, rows[k]);
      hide Stock;
      StockCoversRow(rows, item, k);
    }
  }

  /** In a plan with that stock every counted row is covered. */
  lemma StockServesRow(p: Plan, key: OrderKey, item: int, k: nat)
    requires p.listed == [key] && key in p.orders && p.inventory == Stock(p.orders[key].rows, item)
    requires var rows := p.orders[key].rows;
             KindsApart(rows) && RowsReservable(p.facts, rows) && Spare(rows, item) && k < |rows| && Counted(rows[k])
    ensures var r := p.orders[key].rows[k];
            && r.item in p.inventory && Owned(PlanBook(p), r.item) == p.inventory[r.item] >= r.count
            && RowCovered(PlanBook(p), key, r)
  {
    var rows := p.orders[key].rows;
    hide PlanBook, Stock, Spare, KindsApart, Need;
    StockBlocksNothing(p.facts, rows, item);
    assert Reservable(p.facts, rows[k]);
    StockCoversRow(rows, item, k);
    SoleReservation(p, key, k);
    NeedOfRow(p.orders[key], k);
  }

  /** With that stock the order is accepted. */
  lemma StockIsAccepted(f: Facts, place: DemandId -> int, priority: OrderKey -> int, key: OrderKey, order: Order, item: int)
    requires KindsApart(order.rows) && Acceptable(f, order) && Spare(order.rows, item)
    ensures var p := Sole(f, Stock(order.rows, item), place, priority, key, order);
            && Accepted(p, key)
            && forall k :: 0 <= k < |order.rows| && Counted(order.rows[k]) ==>
                 order.rows[k].item in Stock(order.rows, item)
                 && Owned(PlanBook(p), order.rows[k].item) == Stock(order.rows, item)[order.rows[k].item]
  {
    var p := Sole(f, Stock(order.rows, item), place, priority, key, order);
    hide PlanBook, Stock, Spare, KindsApart, RowsReservable, RowCovered;
    forall k | 0 <= k < |order.rows| && Counted(order.rows[k])
      ensures var r := order.rows[k];
              && r.item in p.inventory && Owned(PlanBook(p), r.item) == p.inventory[r.item] >= r.count
              && RowCovered(PlanBook(p), key, r)
    {
      StockServesRow(p, key, item, k);
    }
  }

  lemma NeedOfRow(order: Order, k: nat)
    requires k < |order.rows| && Counted(order.rows[k]) && (order.rows[k].kind.Flower? || order.rows[k].kind.FlowerArt?)
    ensures Need(order, order.rows[k].item) >= order.rows[k].count
  {
    OneRowNeeds(order.rows, k);
  }

  /** An order that cannot be reserved is never accepted. */
  lemma NotAcceptable(p: Plan, key: OrderKey)
    requires p.listed == [key] && key in p.orders && !Acceptable(p.facts, p.orders[key])
    ensures !Accepted(p, key)
  {
    var order := p.orders[key];
    forall i | 0 <= i < |order.rows| && Counted(order.rows[i]) && !Reservable(p.facts, order.rows[i])
      ensures !RowCovered(PlanBook(p), key, order.rows[i])
    {
      NothingReserved(p, key, i);
    }
  }

  /** A row that is counted and not reservable holds nothing. */
  lemma NothingReserved(p: Plan, key: OrderKey, i: nat)
    requires p.listed == [key] && key in p.orders && i < |p.orders[key].rows|
    requires Counted(p.orders[key].rows[i]) && !Reservable(p.facts, p.orders[key].rows[i])
    ensures ReservedFor(PlanBook(p), RowId(key, p.orders[key].rows[i]), p.orders[key].rows[i].item) == 0
  {
    var r := p.orders[key].rows[i];
    SoleBuilt(p, key);
    DirectUntouched(p, key, r);
    BlockedDemands(p, key, p.orders[key].rows, r);
    forall k | 0 <= k < |Direct(p)| && Direct(p)[k].id == RowId(key, r) ensures !Eligible(Direct(p)[k]) {
      SortedHas(p.place, Built(p, p.listed), Direct(p)[k]);
    }
    IneligibleGetNothing(NewBook(p.inventory), Direct(p), RowId(key, r));
  }

  lemma {:induction false} BlockedDemands(p: Plan, key: OrderKey, rows: seq<Row>, r: Row)
    requires !Reservable(p.facts, r)
    ensures forall d :: d in DemandsOf(p, key, rows) && d.id == RowId(key, r) ==> !Eligible(d)
  {
    if rows != [] { BlockedDemands(p, key, rows[..|rows| - 1], r); }
  }

  lemma {:induction false} IneligibleGetNothing(b: Book, demands: seq<Demand>, id: DemandId)
    requires forall i :: 0 <= i < |demands| && demands[i].id == id ==> !Eligible(demands[i])
    ensures ReservedFor(AllocatedAll(b, demands), id, id.item) == ReservedFor(b, id, id.item)
    decreases |demands|
  {
    if demands != [] {
      var front, d := demands[..|demands| - 1], demands[|demands| - 1];
      assert forall i :: 0 <= i < |front| ==> front[i] == demands[i];
      IneligibleGetNothing(b, front, id);
      AllocatedChanges(AllocatedAll(b, front), d, id, id.item);
    }
  }

  /** Accepted sometimes: exactly the acceptable orders are, with enough in stock. */
  lemma AcceptedSometimesExactly(f: Facts, place: DemandId -> int, priority: OrderKey -> int, key: OrderKey, order: Order)
    requires KindsApart(order.rows)
    ensures (exists inventory: map<int, int> :: Accepted(Sole(f, inventory, place, priority, key, order), key)) <==> Acceptable(f, order)
  {
    if Acceptable(f, order) {
      assert Spare(order.rows, 0);
      StockIsAccepted(f, place, priority, key, order, 0);
    } else {
      forall inventory: map<int, int> ensures !Accepted(Sole(f, inventory, place, priority, key, order), key) {
        NotAcceptable(Sole(f, inventory, place, priority, key, order), key);
      }
    }
  }

  /** An order that lists each item once and is accepted can be delivered. */
  lemma ListedOnceIsDeliverable(p: Plan, key: OrderKey)
    requires Accepted(p, key) && ListsOnce(p.orders[key].rows)
    ensures Deliverable(p, key)
  {
    BooksOk(p);
    forall item: int ensures Need(p.orders[key], item) <= Owned(PlanBook(p), item) {
      JointFulfilment(PlanBook(p), p.orders, {key}, item);
      var needs := (k: OrderKey) => if k in p.orders then Need(p.orders[k], item) else 0;
      SumSplit({key}, key, needs);
      assert {key} - {key} == {};
    }
  }

  /**
   When accepting an order means that it can be delivered, whatever is in stock: for resident, single-flower and
   customer orders alike, with flowers, flower arts and rows that are skipped, exactly if it lists each item once or
   no stock gets it accepted.
   */
  lemma DeliverableExactly(f: Facts, place: DemandId -> int, priority: OrderKey -> int, key: OrderKey, order: Order)
    requires KindsApart(order.rows)
    ensures (forall inventory: map<int, int> ::
               var p := Sole(f, inventory, place, priority, key, order);
               Accepted(p, key) ==> Deliverable(p, key))
            <==> ListsOnce(order.rows) || !Acceptable(f, order)
  {
    if !Acceptable(f, order) {
      forall inventory: map<int, int> ensures !Accepted(Sole(f, inventory, place, priority, key, order), key) {
        NotAcceptable(Sole(f, inventory, place, priority, key, order), key);
      }
    } else if ListsOnce(order.rows) {
      forall inventory: map<int, int> | Accepted(Sole(f, inventory, place, priority, key, order), key)
        ensures Deliverable(Sole(f, inventory, place, priority, key, order), key)
      {
        ListedOnceIsDeliverable(Sole(f, inventory, place, priority, key, order), key);
      }
    } else {
      var i, j :| 0 <= i < j < |order.rows| && Clash(order.rows[i], order.rows[j]);
      DoubledFails(f, place, priority, key, order, i, j);
    }
  }

  /** The failing input: all that is needed but one unit of the doubled item. */
  lemma DoubledFails(f: Facts, place: DemandId -> int, priority: OrderKey -> int, key: OrderKey, order: Order, i: nat, j: nat)
    requires KindsApart(order.rows) && Acceptable(f, order) && i < j < |order.rows| && Clash(order.rows[i], order.rows[j])
    ensures var p := Sole(f, Stock(order.rows, order.rows[i].item), place, priority, key, order);
            Accepted(p, key) && !Deliverable(p, key)
  {
    var item := order.rows[i].item;
    StockIsAccepted(f, place, priority, key, order, item);
    var p := Sole(f, Stock(order.rows, item), place, priority, key, order);
    assert Need(p.orders[key], item) == Stock(order.rows, item)[item] + 1;
  }

  /** A customer who asks for the same flower twice is promised it with one flower too few. */
  lemma DoubledCustomerOrder(f: Facts, place: DemandId -> int, priority: OrderKey -> int, key: OrderKey, flower: int, count: int)
    requires flower > 0 && count > 0
    ensures var order := Order(ForCustomer, [Row(Flower, flower, count), Row(Flower, flower, count)]);
            var p := Sole(f, map[flower := 2 * count - 1], place, priority, key, order);
            Accepted(p, key) && !Deliverable(p, key)
  {
    var rows := [Row(Flower, flower, count), Row(Flower, flower, count)];
    var r := rows[0];
    assert [] + [r] == [r] && [r] + [r] == rows;
    KindNeedLast([], r, Flower, flower);
    KindNeedLast([r], r, Flower, flower);
    KindNeedLast([], r, FlowerArt, flower);
    KindNeedLast([r], r, FlowerArt, flower);
    assert KindNeed(rows, Flower, flower) == 2 * count && KindNeed(rows, FlowerArt, flower) == 0;
    assert Clash(rows[0], rows[1]) && Counted(rows[0]);
    assert Stock(rows, flower) == map[flower := 2 * count - 1];
    DoubledFails(f, place, priority, key, Order(ForCustomer, rows), 0, 1);
  }

  // ----- as it is computed -----

  /** `buildDirectDemands`: orders in any range order, rows as listed, then sorted. */
  method BuildDirectDemands(p: Plan) returns (demands: seq<Demand>)
    ensures demands == Direct(p)
  {
    demands := [];
    for i := 0 to |p.listed|
      invariant demands == Built(p, p.listed[..i])
    {
      var key := p.listed[i];
      assert p.listed[..i + 1][..i] == p.listed[..i];
      assert demands + [] == demands;
      if key !in p.orders { continue; }
      var rows := p.orders[key].rows;
      for j := 0 to |rows|
        invariant demands == Built(p, p.listed[..i]) + DemandsOf(p, key, rows[..j])
      {
        var r := rows[j];
        assert rows[..j + 1][..j] == rows[..j];
        if r.item <= 0 || r.count <= 0 { continue; }
        demands := demands + [DemandOf(p, key, r)];
      }
      assert rows[..|rows|] == rows;
    }
    assert p.listed[..|p.listed|] == p.listed;
    demands := SortDemands(p.place, demands);
  }

  /** `appendCraftFlowerDemands` with the tests before it. */
  method CraftFlowerDemands(f: Facts, b: Book, d: Demand) returns (demands: seq<Demand>)
    ensures demands == CraftDemands(f, b, d)
  {
    if !d.id.key.goal.Customer? || !d.kind.FlowerArt? || d.missing <= 0 || d.blocked { return []; }
    if !HasRecipe(f, d.item) || d.item !in f.unlocked { return []; }
    var flowers := f.recipes[d.item];
    var ids := Ascending(PositiveFlowers(flowers));
    demands := [];
    for j := 0 to |ids|
      invariant demands == FlowerDemands(b, d, flowers, ids[..j])
    {
      hide FlowerDemand;
      demands := demands + [FlowerDemand(b, d, flowers, ids[j])];
    }
    assert ids[..|ids|] == ids;
  }

  /** `buildProductionDemands`, from the direct demands as the first batch has annotated them. */
  method BuildProductionDemands(p: Plan, b: Book, direct: seq<Demand>) returns (demands: seq<Demand>)
    requires b == AfterDirect(p) && |direct| == |Direct(p)| && forall i :: 0 <= i < |direct| ==> direct[i] == Served(p, i)
    ensures demands == Production(p)
  {
    hide Direct, AfterDirect, Served, SortDemands, CraftDemands;
    demands := [];
    for i := 0 to |direct|
      invariant demands == ProductionOf(p, i)
    {
      var crafts := CraftFlowerDemands(p.facts, b, direct[i]);
      demands := demands + crafts;
    }
    demands := SortDemands(p.place, demands);
  }

  /** `allocatedCraftFlowerCounts` for one flower, from the production demands as the second batch has annotated them. */
  method AllocatedTo(p: Plan, production: seq<Demand>, id: DemandId) returns (granted: int)
    requires |production| == |Production(p)|
    requires forall i :: 0 <= i < |production| ==> production[i] == Annotated(Before(AfterDirect(p), Production(p), i), Production(p)[i])
    ensures granted == GrantedTo(AfterDirect(p), Production(p), id)
  {
    granted := 0;
    for i := 0 to |production|
      invariant granted == GrantedTo(AfterDirect(p), Production(p)[..i], id)
    {
      hide AfterDirect, Production, Granted;
      assert Production(p)[..i + 1][..i] == Production(p)[..i];
      if production[i].id == id { granted := granted + production[i].granted; }
    }
    assert Production(p)[..|production|] == Production(p);
  }

  /** `FlowerArtAvailabilityWithAllocated` */
  method CheckCraftable(p: Plan, production: seq<Demand>, key: OrderKey, art: int, count: int) returns (ok: bool)
    requires |production| == |Production(p)|
    requires forall i :: 0 <= i < |production| ==> production[i] == Annotated(Before(AfterDirect(p), Production(p), i), Production(p)[i])
    ensures ok <==> Craftable(p, key, art, count)
  {
    hide AfterDirect, Production, GrantedTo, Available, PlanBook, FlowerCounts;
    if !HasRecipe(p.facts, art) || art !in p.facts.unlocked { return false; }
    var flowers := p.facts.recipes[art];
    var ids := Ascending(PositiveFlowers(flowers));
    for i := 0 to |ids|
      invariant forall j :: 0 <= j < i ==>
                  FlowerCounts(flowers, ids[j]) * count
                    <= Available(PlanBook(p), ids[j]) + GrantedTo(AfterDirect(p), Production(p), CraftId(key, art, ids[j]))
    {
      assert ids[i] in PositiveFlowers(flowers);
      var granted := AllocatedTo(p, production, CraftId(key, art, ids[i]));
      if FlowerCounts(flowers, ids[i]) * count > Available(PlanBook(p), ids[i]) + granted { return false; }
    }
    forall flower: int | flower > 0 && flower in flowers
      ensures FlowerCounts(flowers, flower) * count
                <= Available(PlanBook(p), flower) + GrantedTo(AfterDirect(p), Production(p), CraftId(key, art, flower))
    {
      assert flower in ids;
    }
    return true;
  }

  /** `craftOperationForCustomerOrder`: the executable craft for an order, if one is planned. */
  method CraftOperation(p: Plan, production: seq<Demand>, key: OrderKey) returns (craft: Option<(int, int)>)
    requires key in p.orders && key in p.listed && key.goal.Customer?
    requires |production| == |Production(p)|
    requires forall i :: 0 <= i < |production| ==> production[i] == Annotated(Before(AfterDirect(p), Production(p), i), Production(p)[i])
    ensures craft.Some? <==> PlansCraft(p, key)
    ensures craft.Some? ==> craft == MissingArt(PlanBook(p), p.orders[key].rows)
  {
    hide AfterDirect, Production, PlanBook, Craftable, Owned;
    var rows := p.orders[key].rows;
    for i := 0 to |rows|
      invariant MissingArt(PlanBook(p), rows) == MissingArt(PlanBook(p), rows[i..])
    {
      var r := rows[i];
      assert rows[i..][0] == r && rows[i..][1..] == rows[i + 1..];
      if !r.kind.FlowerArt? || r.item == 0 || r.count <= 0 { continue; }
      var missing := r.count - Owned(PlanBook(p), r.item);
      if missing <= 0 { continue; }
      var ok := CheckCraftable(p, production, key, r.item, missing);
      return if ok then Some((r.item, missing)) else None;
    }
    return None;
  }
}
