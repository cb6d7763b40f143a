/**
 The inventory ledger of one planning cycle: demands reserve stock first come first served, and every order is
 judged by its own reservations only. Demand ids are tuples, so two different demands never share an id by chance.
 */
module Ledger {
  import opened Common

  datatype Kind = Flower | FlowerArt | OtherKind

  datatype Goal = Resident | Customer | Palace | Team | MainTask | Activity

  /** The order or task a demand belongs to: a box, a customer, "satin", "decorate", "current" or a task. */
  datatype OrderKey = OrderKey(goal: Goal, entity: int)

  datatype Source = Direct | Craft(art: int)

  datatype DemandId = DemandId(key: OrderKey, source: Source, kind: Kind, item: int)

  datatype Demand = Demand(id: DemandId, kind: Kind, item: int, count: int, blocked: bool, priority: int,
                           have: int, granted: int, available: int, missing: int)

  /** The three maps of the ledger; an absent entry reads zero. */
  datatype Book = Book(owned: map<int, int>, reserved: map<int, int>, byDemand: map<DemandId, map<int, int>>)

  function At(m: map<int, int>, item: int): int { if item in m then m[item] else 0 }

  function Owned(b: Book, item: int): int { At(b.owned, item) }

  function Reserved(b: Book, item: int): int { At(b.reserved, item) }

  function Available(b: Book, item: int): int { Max(0, Owned(b, item) - Reserved(b, item)) }

  function ReservedFor(b: Book, id: DemandId, item: int): int {
    if id in b.byDemand then At(b.byDemand[id], item) else 0
  }

  /** `NewInventoryLedger`: entries that are not positive are dropped. */
  function NewBook(inventory: map<int, int>): Book {
    Book(map item | item in inventory && inventory[item] > 0 :: inventory[item], map[], map[])
  }

  /** A demand that may reserve stock at all. */
  predicate Eligible(d: Demand) {
    d.item > 0 && d.count > 0 && !d.blocked && (d.kind.Flower? || d.kind.FlowerArt?)
  }

  /** What `Allocate` grants: as much of the count as is still available. */
  function Granted(b: Book, d: Demand): (n: int)
    ensures n >= 0
  {
    if Eligible(d) then Min(d.count, Available(b, d.item)) else 0
  }

  function Allocated(b: Book, d: Demand): Book {
    var n := Granted(b, d);
    if n <= 0 then b
    else
      var mine := if d.id in b.byDemand then b.byDemand[d.id] else map[];
      b.(reserved := b.reserved[d.item := Reserved(b, d.item) + n],
         byDemand := b.byDemand[d.id := mine[d.item := At(mine, d.item) + n]])
  }

  // ----- conservation -----

  /** For one item the reservations add up over the demands and stay within what is owned. */
  ghost predicate ItemOk(b: Book, item: int) {
    && 0 <= Reserved(b, item) <= Owned(b, item)
    && (forall id :: ReservedFor(b, id, item) >= 0)
    && Reserved(b, item) == Sum(b.byDemand.Keys, id => ReservedFor(b, id, item))
  }

  ghost predicate BookOk(b: Book) { forall item: int :: ItemOk(b, item) }

  lemma NewBookOk(inventory: map<int, int>)
    ensures BookOk(NewBook(inventory))
  {
    forall item: int ensures ItemOk(NewBook(inventory), item) {
      assert Sum({}, (id: DemandId) => ReservedFor(NewBook(inventory), id, item)) == 0;
    }
  }

  /** What one allocation changes: exactly the grant, for this item and this demand alone. */
  lemma AllocatedChanges(b: Book, d: Demand, id: DemandId, item: int)
    ensures var t := Allocated(b, d);
            var n := Granted(b, d);
            && Owned(t, item) == Owned(b, item)
            && Reserved(t, item) == Reserved(b, item) + (if item == d.item then n else 0)
            && ReservedFor(t, id, item) == ReservedFor(b, id, item) + (if item == d.item && id == d.id then n else 0)
  {
  }

  lemma AllocatedKeepsItem(b: Book, d: Demand, item: int)
    requires ItemOk(b, item)
    ensures ItemOk(Allocated(b, d), item)
  {
    var t := Allocated(b, d);
    var n := Granted(b, d);
    forall id ensures ReservedFor(t, id, item) >= 0 { AllocatedChanges(b, d, id, item); }
    if n > 0 {
      var keys := b.byDemand.Keys + {d.id};
      assert t.byDemand.Keys == keys;
      SumOverMore(b, item, d.id);
      SumSplit(keys, d.id, id => ReservedFor(b, id, item));
      SumSplit(keys, d.id, id => ReservedFor(t, id, item));
      forall id | id in keys - {d.id} ensures ReservedFor(b, id, item) == ReservedFor(t, id, item) {
        AllocatedChanges(b, d, id, item);
      }
      SumAgree(keys - {d.id}, id => ReservedFor(b, id, item), id => ReservedFor(t, id, item));
      AllocatedChanges(b, d, d.id, item);
    }
  }

  /** A demand without reservations adds nothing. */
  lemma SumOverMore(b: Book, item: int, id: DemandId)
    ensures Sum(b.byDemand.Keys + {id}, i => ReservedFor(b, i, item)) == Sum(b.byDemand.Keys, i => ReservedFor(b, i, item))
  {
    var keys := b.byDemand.Keys;
    if id in keys {
      assert keys + {id} == keys;
    } else {
      SumSplit(keys + {id}, id, i => ReservedFor(b, i, item));
      assert keys + {id} - {id} == keys;
    }
  }

  lemma AllocatedKeepsBook(b: Book, d: Demand)
    requires BookOk(b)
    ensures BookOk(Allocated(b, d))
  {
    forall item: int ensures ItemOk(Allocated(b, d), item) { AllocatedKeepsItem(b, d, item); }
  }

  // ----- a batch of demands, in order -----

  function AllocatedAll(b: Book, demands: seq<Demand>): Book
    decreases |demands|
  {
    if demands == [] then b
    else Allocated(AllocatedAll(b, demands[..|demands| - 1]), demands[|demands| - 1])
  }

  /** The ledger just before demand `i` is served. */
  function Before(b: Book, demands: seq<Demand>, i: nat): Book
    requires i <= |demands|
  {
    AllocatedAll(b, demands[..i])
  }

  lemma NothingYet(b: Book, demands: seq<Demand>)
    ensures Before(b, demands, 0) == b && Before(b, demands, |demands|) == AllocatedAll(b, demands)
  {
    assert demands[..|demands|] == demands;
  }

  lemma BeforeNext(b: Book, demands: seq<Demand>, i: nat)
    requires i < |demands|
    ensures Before(b, demands, i + 1) == Allocated(Before(b, demands, i), demands[i])
  {
    assert demands[..i + 1][..i] == demands[..i];
  }

  lemma {:induction false} AllocatedAllKeepsBook(b: Book, demands: seq<Demand>)
    requires BookOk(b)
    ensures BookOk(AllocatedAll(b, demands))
    decreases |demands|
  {
    if demands != [] {
      AllocatedAllKeepsBook(b, demands[..|demands| - 1]);
      AllocatedKeepsBook(AllocatedAll(b, demands[..|demands| - 1]), demands[|demands| - 1]);
    }
  }

  /** Once nothing of an item is available, nothing is again. */
  lemma {:induction false} ExhaustedStays(b: Book, demands: seq<Demand>, i: nat, j: nat, item: int)
    requires i <= j <= |demands| && Available(Before(b, demands, i), item) == 0
    ensures Available(Before(b, demands, j), item) == 0
  {
    if i < j {
      ExhaustedStays(b, demands, i, j - 1, item);
      BeforeNext(b, demands, j - 1);
      var d := demands[j - 1];
      AllocatedChanges(Before(b, demands, j - 1), d, d.id, item);
    }
  }

  /**
   No priority inversion: a demand that gets anything of an item was served after every earlier eligible demand
   for that item had been filled completely.
   */
  lemma NoPriorityInversion(b: Book, demands: seq<Demand>, i: nat, j: nat)
    requires BookOk(b) && i < j < |demands| && demands[i].item == demands[j].item && Eligible(demands[i])
    ensures Granted(Before(b, demands, j), demands[j]) > 0 ==>
              Granted(Before(b, demands, i), demands[i]) == demands[i].count
  {
    var item := demands[i].item;
    if Granted(Before(b, demands, i), demands[i]) < demands[i].count {
      AllocatedAllKeepsBook(b, demands[..i]);
      assert ItemOk(Before(b, demands, i), item);
      BeforeNext(b, demands, i);
      AllocatedChanges(Before(b, demands, i), demands[i], demands[i].id, item);
      ExhaustedStays(b, demands, i + 1, j, item);
    }
  }

  predicate Spendable(b: Book, items: map<int, int>, item: int) {
    item in items && items[item] > 0 ==> Available(b, item) >= items[item]
  }

  lemma AllSpendable(b: Book, items: map<int, int>, ids: seq<int>)
    requires (forall item :: item in items ==> item in ids) && forall j :: 0 <= j < |ids| ==> Spendable(b, items, ids[j])
    ensures forall item :: item in items && items[item] > 0 ==> Available(b, item) >= items[item]
  {
    forall item | item in items && items[item] > 0 ensures Available(b, item) >= items[item] {
      var j :| 0 <= j < |ids| && ids[j] == item;
      assert Spendable(b, items, ids[j]);
    }
  }

  /** The comparison of `sortDemands`; `place` is where an id stands in the text order. */
  predicate DemandBefore(place: DemandId -> int, a: Demand, b: Demand) {
    if a.priority != b.priority then a.priority > b.priority
    else if a.missing != b.missing then a.missing > b.missing
    else place(a.id) < place(b.id)
  }

  /** `sortDemands` */
  function SortDemands(place: DemandId -> int, demands: seq<Demand>): seq<Demand> {
    SortBy((a, b) => DemandBefore(place, a, b), demands)
  }

  predicate ByPriority(demands: seq<Demand>) {
    forall i, j :: 0 <= i < j < |demands| ==> demands[i].priority >= demands[j].priority
  }

  /** The sort loses and adds nothing and puts higher priorities first, then what misses more, then the smaller id. */
  lemma SortDemandsSorts(place: DemandId -> int, demands: seq<Demand>)
    ensures multiset(SortDemands(place, demands)) == multiset(demands)
    ensures OrderedBy((a, b) => DemandBefore(place, a, b), SortDemands(place, demands))
    ensures ByPriority(SortDemands(place, demands))
  {
    var before := (a, b) => DemandBefore(place, a, b);
    var all := set d | d in demands;
    assert StrictWeak(before, all);
    SortByPermutes(before, demands);
    SortByOrders(before, demands, all);
    var sorted := SortDemands(place, demands);
    forall i, j | 0 <= i < j < |sorted| ensures sorted[i].priority >= sorted[j].priority {
      assert !before(sorted[j], sorted[i]);
    }
  }

  /** In the batch as it is sorted, a demand only gets what every eligible demand of higher priority left over. */
  lemma HigherPriorityFirst(b: Book, built: seq<Demand>, place: DemandId -> int, low: nat, high: nat)
    requires BookOk(b) && low < |SortDemands(place, built)| && high < |SortDemands(place, built)|
    requires var demands := SortDemands(place, built);
             && demands[high].priority > demands[low].priority
             && demands[high].item == demands[low].item && Eligible(demands[high])
             && Granted(Before(b, demands, low), demands[low]) > 0
    ensures var demands := SortDemands(place, built);
            Granted(Before(b, demands, high), demands[high]) == demands[high].count
  {
    hide SortDemands, Granted;
    SortDemandsSorts(place, built);
    assert high < low;
    NoPriorityInversion(b, SortDemands(place, built), high, low);
  }

  function Wanted(demands: seq<Demand>, item: int): nat
    decreases |demands|
  {
    if demands == [] then 0
    else
      var d := demands[|demands| - 1];
      Wanted(demands[..|demands| - 1], item) + if Eligible(d) && d.item == item then d.count else 0
  }

  /** Nothing is held back: a batch reserves all that is wanted of an item, or all there is. */
  lemma {:induction false} BatchIsGreedy(b: Book, demands: seq<Demand>, item: int)
    requires BookOk(b)
    ensures Reserved(AllocatedAll(b, demands), item)
            == Min(Reserved(b, item) + Wanted(demands, item), Owned(b, item))
    ensures Owned(AllocatedAll(b, demands), item) == Owned(b, item)
    decreases |demands|
  {
    assert ItemOk(b, item);
    if demands != [] {
      var front, d := demands[..|demands| - 1], demands[|demands| - 1];
      BatchIsGreedy(b, front, item);
      AllocatedChanges(AllocatedAll(b, front), d, d.id, item);
    }
  }

  /** What `applyLedgerAllocations` writes into a demand. */
  function Annotated(b: Book, d: Demand): Demand {
    var n := Granted(b, d);
    d.(have := Owned(b, d.item), granted := n, available := Available(Allocated(b, d), d.item),
       missing := Max(0, d.count - n))
  }

  // ----- orders -----

  datatype Row = Row(kind: Kind, item: int, count: int)

  datatype Style = Boxed | Single | ForCustomer

  /** An order's rows; a customer order's flowers come before its flower arts. */
  datatype Order = Order(style: Style, rows: seq<Row>)

  predicate Counted(r: Row) { r.item != 0 && r.count > 0 }

  function RowId(key: OrderKey, r: Row): DemandId { DemandId(key, Direct, r.kind, r.item) }

  predicate RowCovered(b: Book, key: OrderKey, r: Row) { ReservedFor(b, RowId(key, r), r.item) >= r.count }

  /**
   The `canFulfill` predicates. Resident orders (boxed and special) and single-flower orders refuse rows that make
   no sense; a customer order skips them, and also looks at the stock on hand.
   */
  predicate CanFulfill(b: Book, key: OrderKey, order: Order) {
    match order.style
    case Boxed => |order.rows| > 0 && forall i :: 0 <= i < |order.rows| ==> Counted(order.rows[i]) && RowCovered(b, key, order.rows[i])
    case Single => |order.rows| == 1 && order.rows[0].item > 0 && order.rows[0].count > 0 && RowCovered(b, key, order.rows[0])
    case ForCustomer =>
      && (exists i :: 0 <= i < |order.rows| && Counted(order.rows[i]))
      && forall i :: 0 <= i < |order.rows| && Counted(order.rows[i]) ==>
           Owned(b, order.rows[i].item) >= order.rows[i].count && RowCovered(b, key, order.rows[i])
  }

  /** What delivering the rows takes of an item, for one kind of row. */
  function KindNeed(rows: seq<Row>, kind: Kind, item: int): nat {
    if rows == [] then 0
    else (if Counted(rows[0]) && rows[0].kind == kind && rows[0].item == item then rows[0].count else 0)
         + KindNeed(rows[1..], kind, item)
  }

  /** What delivering the order takes of an item. */
  function Need(order: Order, item: int): nat { KindNeed(order.rows, Flower, item) + KindNeed(order.rows, FlowerArt, item) }

  predicate Clash(r: Row, q: Row) { Counted(r) && Counted(q) && r.kind == q.kind && r.item == q.item }

  /** Every item is listed at most once per kind. */
  predicate ListsOnce(rows: seq<Row>) { forall i, j :: 0 <= i < j < |rows| ==> !Clash(rows[i], rows[j]) }

  lemma {:induction false} NoneListed(rows: seq<Row>, kind: Kind, item: int)
    requires forall i :: 0 <= i < |rows| && Counted(rows[i]) ==> rows[i].kind != kind || rows[i].item != item
    ensures KindNeed(rows, kind, item) == 0
  {
    if rows != [] { NoneListed(rows[1..], kind, item); }
  }

  lemma {:induction false} NeedWithin(b: Book, key: OrderKey, rows: seq<Row>, kind: Kind, item: int)
    requires ListsOnce(rows) && ItemOk(b, item)
    requires forall i :: 0 <= i < |rows| && Counted(rows[i]) ==> RowCovered(b, key, rows[i])
    ensures KindNeed(rows, kind, item) <= ReservedFor(b, DemandId(key, Direct, kind, item), item)
  {
    if rows != [] {
      if Counted(rows[0]) && rows[0].kind == kind && rows[0].item == item {
        assert forall i :: 0 < i < |rows| ==> !Clash(rows[0], rows[i]);
        NoneListed(rows[1..], kind, item);
      } else {
        NeedWithin(b, key, rows[1..], kind, item);
      }
    }
  }

  /** An accepted order that lists each item once is covered by its own two reservations. */
  lemma AcceptedIsReserved(b: Book, key: OrderKey, order: Order, item: int)
    requires ItemOk(b, item) && CanFulfill(b, key, order) && ListsOnce(order.rows)
    ensures Need(order, item) <= ReservedFor(b, DemandId(key, Direct, Flower, item), item)
                                 + ReservedFor(b, DemandId(key, Direct, FlowerArt, item), item)
  {
    NeedWithin(b, key, order.rows, Flower, item);
    NeedWithin(b, key, order.rows, FlowerArt, item);
  }

  ghost function TotalNeed(orders: map<OrderKey, Order>, accepted: set<OrderKey>, item: int): int {
    Sum(accepted, key => if key in orders then Need(orders[key], item) else 0)
  }

  /** The reservations of the accepted orders are different entries of the ledger. */
  lemma {:induction false} ReservationsApart(b: Book, keys: set<OrderKey>, ids: set<DemandId>, item: int)
    requires ItemOk(b, item)
    requires forall id: DemandId :: id.key in keys && id.source.Direct? && id !in ids ==> ReservedFor(b, id, item) == 0
    ensures Sum(keys, key => ReservedFor(b, DemandId(key, Direct, Flower, item), item)
                             + ReservedFor(b, DemandId(key, Direct, FlowerArt, item), item))
            <= Sum(ids, id => ReservedFor(b, id, item))
    decreases |keys|
  {
    var f := (key: OrderKey) => ReservedFor(b, DemandId(key, Direct, Flower, item), item)
                                + ReservedFor(b, DemandId(key, Direct, FlowerArt, item), item);
    var g := (id: DemandId) => ReservedFor(b, id, item);
    if keys == {} {
      SumSubset({}, ids, g);
    } else {
      var key :| key in keys;
      var one, two := DemandId(key, Direct, Flower, item), DemandId(key, Direct, FlowerArt, item);
      SumSplit(keys, key, f);
      ReservationsApart(b, keys - {key}, ids - {one} - {two}, item);
      TakeOut(ids, one, g);
      TakeOut(ids - {one}, two, g);
    }
  }

  lemma TakeOut(ids: set<DemandId>, id: DemandId, g: DemandId -> int)
    requires id in ids || g(id) == 0
    ensures Sum(ids, g) == g(id) + Sum(ids - {id}, g)
  {
    if id in ids { SumSplit(ids, id, g); } else { assert ids - {id} == ids; }
  }

  /**
   Joint fulfilment: all orders accepted in one plan, each listing its items once, can be delivered together from
   the inventory, and whatever is still available can be used on top.
   */
  lemma JointFulfilment(b: Book, orders: map<OrderKey, Order>, accepted: set<OrderKey>, item: int)
    requires BookOk(b) && accepted <= orders.Keys
    requires forall key :: key in accepted ==> CanFulfill(b, key, orders[key]) && ListsOnce(orders[key].rows)
    ensures TotalNeed(orders, accepted, item) <= Reserved(b, item)
    ensures TotalNeed(orders, accepted, item) + Available(b, item) <= Owned(b, item)
  {
    assert ItemOk(b, item);
    var needs := (key: OrderKey) => if key in orders then Need(orders[key], item) else 0;
    var mine := (key: OrderKey) => ReservedFor(b, DemandId(key, Direct, Flower, item), item)
                                   + ReservedFor(b, DemandId(key, Direct, FlowerArt, item), item);
    forall key | key in accepted ensures needs(key) <= mine(key) {
      AcceptedIsReserved(b, key, orders[key], item);
    }
    SumAtMost(accepted, needs, mine);
    ReservationsApart(b, accepted, b.byDemand.Keys, item);
  }

  // ----- scoped top-ups for an activity task -----

  /** Only what the demand does not hold yet may be reserved on top. */
  function TopUp(b: Book, d: Demand): Demand { d.(count := d.count - ReservedFor(b, d.id, d.item)) }

  function ToppedUp(b: Book, demands: seq<Demand>): Book
    decreases |demands|
  {
    if demands == [] then b
    else
      var front := ToppedUp(b, demands[..|demands| - 1]);
      Allocated(front, TopUp(front, demands[|demands| - 1]))
  }

  /** Top-ups keep the ledger sound, leave every earlier reservation at least as it was and others' exactly so. */
  lemma {:induction false} TopUpsKeepReservations(b: Book, demands: seq<Demand>, id: DemandId, item: int)
    requires BookOk(b)
    ensures BookOk(ToppedUp(b, demands))
    ensures ReservedFor(ToppedUp(b, demands), id, item) >= ReservedFor(b, id, item)
    ensures (forall d :: d in demands ==> d.id != id) ==>
              ReservedFor(ToppedUp(b, demands), id, item) == ReservedFor(b, id, item)
    decreases |demands|
  {
    if demands != [] {
      var front, d := demands[..|demands| - 1], demands[|demands| - 1];
      TopUpsKeepReservations(b, front, id, item);
      var t := ToppedUp(b, front);
      AllocatedChanges(t, TopUp(t, d), id, item);
      AllocatedKeepsBook(t, TopUp(t, d));
      assert forall e :: e in demands <==> e in front || e == d;
    }
  }

  /** However often an id occurs in the batch, its reservation never passes the largest count asked under it. */
  lemma {:induction false} TopUpsStayWithinCount(b: Book, demands: seq<Demand>, id: DemandId, item: int, bound: int)
    requires ReservedFor(b, id, item) <= bound
    requires forall i :: 0 <= i < |demands| && demands[i].id == id ==> demands[i].count <= bound
    ensures ReservedFor(ToppedUp(b, demands), id, item) <= bound
    decreases |demands|
  {
    if demands != [] {
      var front, d := demands[..|demands| - 1], demands[|demands| - 1];
      TopUpsStayWithinCount(b, front, id, item, bound);
      var t := ToppedUp(b, front);
      AllocatedChanges(t, TopUp(t, d), id, item);
    }
  }

  // ----- the ledger as it is updated -----

  class InventoryLedger {
    var owned: map<int, int>
    var reserved: map<int, int>
    var byDemand: map<DemandId, map<int, int>>

    function View(): Book
      reads this
    {
      Book(owned, reserved, byDemand)
    }

    constructor (inventory: map<int, int>)
      ensures View() == NewBook(inventory) && BookOk(View())
    {
      owned := map item | item in inventory && inventory[item] > 0 :: inventory[item];
      reserved, byDemand := map[], map[];
      new;
      NewBookOk(inventory);
    }

    function AvailableOf(item: int): int
      reads this
    {
      var available := At(owned, item) - At(reserved, item);
      if available < 0 then 0 else available
    }

    method Allocate(d: Demand) returns (count: int)
      modifies this
      ensures count == Granted(old(View()), d) && View() == Allocated(old(View()), d)
      ensures BookOk(old(View())) ==> BookOk(View())
    {
      if BookOk(View()) { AllocatedKeepsBook(View(), d); }
      if d.item <= 0 || d.count <= 0 || d.blocked { return 0; }
      if !d.kind.Flower? && !d.kind.FlowerArt? { return 0; }
      count := d.count;
      var available := AvailableOf(d.item);
      if count > available { count := available; }
      if count <= 0 { return 0; }
      reserved := reserved[d.item := At(reserved, d.item) + count];
      if d.id !in byDemand { byDemand := byDemand[d.id := map[]]; }
      var mine := byDemand[d.id];
      byDemand := byDemand[d.id := mine[d.item := At(mine, d.item) + count]];
    }

    /** `CanSpendItems`: every positive count is still available. */
    method CanSpendItems(items: map<int, int>) returns (ok: bool)
      ensures ok <==> forall item :: item in items && items[item] > 0 ==> Available(View(), item) >= items[item]
    {
      var ids := Ascending(items.Keys);
      ghost var b := View();
      hide Ascending;
      for i := 0 to |ids|
        invariant forall j :: 0 <= j < i ==> Spendable(b, items, ids[j])
      {
        var item := ids[i];
        assert item in items;
        if items[item] > 0 && AvailableOf(item) < items[item] { return false; }
      }
      AllSpendable(b, items, ids);
      return true;
    }

    /** `applyLedgerAllocations`: each demand in turn, its accounting fields written in place. */
    method ApplyLedgerAllocations(demands: array<Demand>)
      modifies this, demands
      ensures View() == AllocatedAll(old(View()), old(demands[..]))
      ensures forall i :: 0 <= i < demands.Length ==>
                demands[i] == Annotated(Before(old(View()), old(demands[..]), i), old(demands[i]))
    {
      hide Granted, Allocated, AllocatedAll;
      ghost var b, was := View(), demands[..];
      NothingYet(b, was);
      for i := 0 to demands.Length
        invariant View() == Before(b, was, i)
        invariant forall j :: 0 <= j < i ==> demands[j] == Annotated(Before(b, was, j), was[j])
        invariant forall j :: i <= j < demands.Length ==> demands[j] == was[j]
      {
        BeforeNext(b, was, i);
        var d := demands[i];
        d := d.(have := At(owned, d.item));
        var count := Allocate(demands[i]);
        d := d.(granted := count, available := AvailableOf(d.item), missing := d.count - count);
        if d.missing < 0 { d := d.(missing := 0); }
        demands[i] := d;
      }
    }

    /** The loop of `scopedCyclicNoteOperations` that tops up a task's demands. */
    method TopUpScoped(demands: seq<Demand>)
      modifies this
      ensures View() == ToppedUp(old(View()), demands)
    {
      ghost var b := View();
      for i := 0 to |demands|
        invariant View() == ToppedUp(b, demands[..i])
      {
        assert demands[..i + 1][..i] == demands[..i];
        var d := demands[i];
        d := d.(count := d.count - ReservedFor(View(), d.id, d.item));
        var count := Allocate(d);
      }
      assert demands[..|demands|] == demands;
    }

    /** `canFulfillCustomerOrder` */
    method CanFulfillCustomerOrder(key: OrderKey, rows: seq<Row>) returns (ok: bool)
      ensures ok <==> CanFulfill(View(), key, Order(ForCustomer, rows))
    {
      var hasRequirements := false;
      for i := 0 to |rows|
        invariant hasRequirements <==> exists j :: 0 <= j < i && Counted(rows[j])
        invariant forall j :: 0 <= j < i && Counted(rows[j]) ==>
                    Owned(View(), rows[j].item) >= rows[j].count && RowCovered(View(), key, rows[j])
      {
        var r := rows[i];
        if r.item == 0 || r.count <= 0 { continue; }
        hasRequirements := true;
        if At(owned, r.item) < r.count { return false; }
        if ReservedFor(View(), RowId(key, r), r.item) < r.count { return false; }
      }
      return hasRequirements;
    }

    /** `canFulfillFlowerOrder` and `canFulfillResidentSpecialOrder` */
    method CanFulfillBoxedOrder(key: OrderKey, rows: seq<Row>) returns (ok: bool)
      ensures ok <==> CanFulfill(View(), key, Order(Boxed, rows))
    {
      if |rows| == 0 { return false; }
      for i := 0 to |rows|
        invariant forall j :: 0 <= j < i ==> Counted(rows[j]) && RowCovered(View(), key, rows[j])
      {
        var r := rows[i];
        if r.item == 0 || r.count <= 0 || ReservedFor(View(), RowId(key, r), r.item) < r.count { return false; }
      }
      return true;
    }
  }

  // ----- what flower arts may use: only stock nobody reserved -----

  /** How often a recipe needs each flower. */
  function FlowerCounts(flowers: seq<int>, flower: int): nat {
    if flowers == [] then 0
    else FlowerCounts(flowers[..|flowers| - 1], flower) + if flowers[|flowers| - 1] == flower then 1 else 0
  }

  lemma {:induction false} FlowerCounted(flowers: seq<int>, flower: int)
    ensures FlowerCounts(flowers, flower) > 0 <==> flower in flowers
  {
    if flowers != [] {
      FlowerCounted(flowers[..|flowers| - 1], flower);
      assert flower in flowers <==> flower in flowers[..|flowers| - 1] || flower == flowers[|flowers| - 1];
    }
  }

  /** The recipe can be made `n` times from what is available. */
  ghost predicate Makeable(b: Book, flowers: seq<int>, n: int) {
    forall flower: int :: flower > 0 && flower in flowers ==> FlowerCounts(flowers, flower) * n <= Available(b, flower)
  }

  function PositiveFlowers(flowers: seq<int>): set<int> { set flower | flower in flowers && flower > 0 }

  /** `maxCraftableCount`: the largest number of times the recipe can be made from unreserved stock. */
  method MaxCraftableCount(b: Book, flowers: seq<int>) returns (most: int)
    ensures most >= 0
    ensures PositiveFlowers(flowers) == {} ==> most == 0
    ensures Makeable(b, flowers, most)
    ensures PositiveFlowers(flowers) != {} ==> !Makeable(b, flowers, most + 1)
  {
    var ids := Ascending(PositiveFlowers(flowers));
    most := -1;
    ghost var tight := 0;
    for i := 0 to |ids|
      invariant i == 0 ==> most == -1
      invariant i > 0 ==> most >= 0 && 0 <= tight < i && FlowerCounts(flowers, ids[tight]) * (most + 1) > Available(b, ids[tight])
      invariant forall j :: 0 <= j < i ==> FlowerCounts(flowers, ids[j]) * most <= Available(b, ids[j])
    {
      assert ids[i] in PositiveFlowers(flowers);
      FlowerCounted(flowers, ids[i]);
      var each := FlowerCounts(flowers, ids[i]);
      var times := Available(b, ids[i]) / each;
      Quotient(Available(b, ids[i]), each);
      if most < 0 || times < most {
        forall j | 0 <= j < i ensures FlowerCounts(flowers, ids[j]) * times <= Available(b, ids[j]) {
          FewerIsLess(FlowerCounts(flowers, ids[j]), times, most);
        }
        most, tight := times, i;
      } else {
        FewerIsLess(each, most, times);
      }
    }
    if most < 0 { most := 0; }
    forall flower: int | flower > 0 && flower in flowers
      ensures FlowerCounts(flowers, flower) * most <= Available(b, flower)
    {
      assert flower in ids;
    }
    if |ids| > 0 { assert ids[tight] in PositiveFlowers(flowers); }
  }

  lemma Quotient(n: int, d: nat)
    requires d > 0 && n >= 0
    ensures d * (n / d) <= n < d * (n / d + 1) && n / d >= 0
  {
  }

  lemma FewerIsLess(d: nat, few: int, many: int)
    requires few <= many
    ensures d * few <= d * many
  {
  }
}
