/**
 The two resource passes over the ranked operation queue: each operation gets gates for what it costs, and a
 running budget then blocks what the operations before it leave unaffordable. Amounts are unbounded integers.
 */
module ResourceGates {
  import opened Common

  /** What a gate is about; `Other` stands for level, vase, policy, state and adapter gates. */
  datatype Resource = Gold | Diamond | WaterDrop | Item(id: int) | Other

  datatype Status = Unset | Ready | Blocked | AdapterMissing | OtherStatus

  /** Why something is blocked, with the amounts the source prints into the text. */
  datatype Reason =
    | Given(text: string)
    | Lacks(resource: Resource, required: int, available: int)
    | QueueLacks(resource: Resource, required: int, remaining: int)
    | DiamondsNotAutomatic
    | NothingToWater

  datatype GateId = Named(name: string) | Implied(resource: Resource) | QueueBudget(resource: Resource)

  datatype Gate = Gate(id: GateId, resource: Resource, required: int, available: int,
                       status: Status, reasons: seq<Reason>, hard: bool, fromQueue: bool)

  predicate Blocking(g: Gate) { g.status == Blocked || g.status == AdapterMissing || g.reasons != [] }

  /** The part of a planned operation the passes read and write. */
  datatype Op = Op(name: string, isWater: bool, isRaceUpgrade: bool, executable: bool, syncOnly: bool,
                   status: Status, reasons: seq<Reason>, gates: seq<Gate>,
                   goldCost: int, diamondCost: int, itemCost: map<int, int>, lands: seq<int>)

  /** The observed balances; an item without an entry counts zero. */
  datatype Balances = Balances(gold: int, diamonds: int, waterDrops: int, items: map<int, int>)

  function ItemCount(items: map<int, int>, id: int): int { if id in items then items[id] else 0 }

  function Held(b: Balances, r: Resource): int {
    match r
    case Gold => b.gold
    case Diamond => b.diamonds
    case WaterDrop => b.waterDrops
    case Item(id) => ItemCount(b.items, id)
    case Other => 0
  }

  ghost predicate NonNegative(b: Balances) { forall r :: Held(b, r) >= 0 }

  // ----- what an operation needs, read off its gates -----

  predicate Counts(g: Gate) {
    g.required > 0 && g.hard && !g.fromQueue && !g.resource.Other? && (g.resource.Item? ==> g.resource.id > 0)
  }

  /** The largest counted requirement for one resource. */
  function Needs(gates: seq<Gate>, r: Resource): nat {
    if gates == [] then 0
    else
      var g := gates[|gates| - 1];
      Max(Needs(gates[..|gates| - 1], r), if Counts(g) && g.resource == r then g.required else 0)
  }

  function CostedItems(gates: seq<Gate>): set<int> {
    set g | g in gates && Counts(g) && g.resource.Item? :: g.resource.id
  }

  datatype Cost = Cost(gold: int, diamonds: int, waterDrops: int, items: map<int, int>)

  function CostOf(gates: seq<Gate>): Cost {
    Cost(Needs(gates, Gold), Needs(gates, Diamond), Needs(gates, WaterDrop),
         map id | id in CostedItems(gates) :: Needs(gates, Item(id)))
  }

  predicate Free(c: Cost) { c.gold <= 0 && c.diamonds <= 0 && c.waterDrops <= 0 && c.items == map[] }

  function Amount(c: Cost, r: Resource): int {
    match r
    case Gold => c.gold
    case Diamond => c.diamonds
    case WaterDrop => c.waterDrops
    case Item(id) => ItemCount(c.items, id)
    case Other => 0
  }

  lemma {:induction false} ItemNeeded(gates: seq<Gate>, id: int)
    ensures Needs(gates, Item(id)) > 0 <==> id in CostedItems(gates)
  {
    if gates != [] {
      var front, g := gates[..|gates| - 1], gates[|gates| - 1];
      ItemNeeded(front, id);
      assert forall h :: h in gates <==> h in front || h == g;
      assert id in CostedItems(gates) <==> id in CostedItems(front) || (Counts(g) && g.resource == Item(id));
    }
  }

  lemma {:induction false} OtherIsFree(gates: seq<Gate>)
    ensures Needs(gates, Other) == 0
  {
    if gates != [] { OtherIsFree(gates[..|gates| - 1]); }
  }

  lemma AmountIsNeeds(gates: seq<Gate>, r: Resource)
    ensures Amount(CostOf(gates), r) == Needs(gates, r)
  {
    if r.Item? { ItemNeeded(gates, r.id); }
    OtherIsFree(gates);
  }

  /** One gate more raises one amount to at least what it requires. */
  function Raised(c: Cost, g: Gate): Cost {
    if !Counts(g) then c
    else match g.resource
      case Gold => c.(gold := Max(c.gold, g.required))
      case Diamond => c.(diamonds := Max(c.diamonds, g.required))
      case WaterDrop => c.(waterDrops := Max(c.waterDrops, g.required))
      case Item(id) => c.(items := c.items[id := Max(ItemCount(c.items, id), g.required)])
      case Other => c
  }

  lemma NeedsMore(gates: seq<Gate>, g: Gate, r: Resource)
    ensures Needs(gates + [g], r) == Max(Needs(gates, r), if Counts(g) && g.resource == r then g.required else 0)
  {
    assert (gates + [g])[..|gates|] == gates;
  }

  lemma CostedMore(gates: seq<Gate>, g: Gate)
    ensures CostedItems(gates + [g])
            == CostedItems(gates) + (if Counts(g) && g.resource.Item? then {g.resource.id} else {})
  {
    assert forall h :: h in gates + [g] <==> h in gates || h == g;
  }

  lemma CostOfMore(gates: seq<Gate>, g: Gate)
    ensures CostOf(gates + [g]) == Raised(CostOf(gates), g)
  {
    CostedMore(gates, g);
    NeedsMore(gates, g, Gold);
    NeedsMore(gates, g, Diamond);
    NeedsMore(gates, g, WaterDrop);
    hide CostedItems, Needs;
    forall id | id in CostedItems(gates + [g])
      ensures Needs(gates + [g], Item(id)) == ItemCount(Raised(CostOf(gates), g).items, id)
    {
      NeedsMore(gates, g, Item(id));
      ItemNeeded(gates, id);
    }
    assert CostOf(gates + [g]).items == Raised(CostOf(gates), g).items;
  }

  /** `operationCostFromGates` */
  method OperationCostFromGates(gates: seq<Gate>) returns (cost: Cost)
    ensures cost == CostOf(gates)
  {
    cost := Cost(0, 0, 0, map[]);
    hide CostOf;
    CostOfNone();
    for i := 0 to |gates|
      invariant cost == CostOf(gates[..i])
    {
      var g := gates[i];
      assert gates[..i + 1] == gates[..i] + [g];
      CostOfMore(gates[..i], g);
      cost := AddGate(cost, g);
    }
    assert gates[..|gates|] == gates;
  }

  lemma CostOfNone()
    ensures CostOf([]) == Cost(0, 0, 0, map[])
  {
  }

  method AddGate(before: Cost, g: Gate) returns (cost: Cost)
    ensures cost == Raised(before, g)
  {
    cost := before;
    if g.required <= 0 || !g.hard || g.fromQueue { return; }
    match g.resource
    case Diamond => cost := cost.(diamonds := Max(cost.diamonds, g.required));
    case Gold => if g.required > cost.gold { cost := cost.(gold := g.required); }
    case WaterDrop => if g.required > cost.waterDrops { cost := cost.(waterDrops := g.required); }
    case Item(id) =>
      if id <= 0 { return; }
      if g.required > ItemCount(cost.items, id) { cost := cost.(items := cost.items[id := g.required]); }
      assert id in cost.items || g.required <= 0;
    case Other =>
  }

  // ----- the running budget -----

  function SpentItems(items: map<int, int>, costs: map<int, int>): (left: map<int, int>)
    ensures left.Keys == items.Keys + costs.Keys
    ensures forall id :: id in left ==>
              left[id] == if id in costs then Max(0, ItemCount(items, id) - costs[id]) else items[id]
  {
    items + map id | id in costs :: Max(0, ItemCount(items, id) - costs[id])
  }

  /** `b - c` in every resource, not below zero. */
  function Spent(b: Balances, c: Cost): Balances {
    Balances(Max(0, b.gold - c.gold), Max(0, b.diamonds - c.diamonds), Max(0, b.waterDrops - c.waterDrops),
             SpentItems(b.items, c.items))
  }

  /** The queue lacks the resource; items are only looked at when they are costed. */
  predicate Short(b: Balances, c: Cost, r: Resource) {
    Amount(c, r) > Held(b, r) && (r.Item? ==> r.id in c.items)
  }

  function QueueGate(b: Balances, c: Cost, r: Resource): Gate {
    Gate(QueueBudget(r), r, Amount(c, r), Held(b, r), Blocked, [QueueLacks(r, Amount(c, r), Held(b, r))], true, true)
  }

  function GateIfShort(b: Balances, c: Cost, r: Resource): seq<Gate> {
    if Short(b, c, r) then [QueueGate(b, c, r)] else []
  }

  function ItemBlockers(b: Balances, c: Cost, ids: seq<int>): seq<Gate> {
    if ids == [] then []
    else ItemBlockers(b, c, ids[..|ids| - 1]) + GateIfShort(b, c, Item(ids[|ids| - 1]))
  }

  /** Diamonds, gold and water drops first, then the items in ascending order. */
  function Blockers(b: Balances, c: Cost): seq<Gate> {
    GateIfShort(b, c, Diamond) + GateIfShort(b, c, Gold) + GateIfShort(b, c, WaterDrop)
    + ItemBlockers(b, c, Ascending(c.items.Keys))
  }

  lemma {:induction false} ItemBlockersFind(b: Balances, c: Cost, ids: seq<int>)
    ensures forall g :: g in ItemBlockers(b, c, ids) <==>
              g.resource.Item? && g.resource.id in ids && Short(b, c, g.resource) && g == QueueGate(b, c, g.resource)
  {
    if ids != [] {
      var front, id := ids[..|ids| - 1], ids[|ids| - 1];
      ItemBlockersFind(b, c, front);
      assert forall i :: i in ids <==> i in front || i == id;
    }
  }

  lemma BlockerMembers(b: Balances, c: Cost, g: Gate)
    ensures g in Blockers(b, c) <==>
              Short(b, c, g.resource) && g == QueueGate(b, c, g.resource) && !g.resource.Other?
  {
    var ids := Ascending(c.items.Keys);
    ItemBlockersFind(b, c, ids);
    var first := GateIfShort(b, c, Diamond) + GateIfShort(b, c, Gold) + GateIfShort(b, c, WaterDrop);
    assert g in Blockers(b, c) <==> g in first || g in ItemBlockers(b, c, ids);
    assert g in first <==> g in GateIfShort(b, c, Diamond) || g in GateIfShort(b, c, Gold) || g in GateIfShort(b, c, WaterDrop);
  }

  /** A queue gate for every resource the budget lacks, with the exact shortage, and none else. */
  lemma BlockersExactly(b: Balances, c: Cost)
    ensures Blockers(b, c) == [] <==> forall r :: Short(b, c, r) ==> r.Other?
    ensures forall g :: g in Blockers(b, c) <==>
              Short(b, c, g.resource) && g == QueueGate(b, c, g.resource) && !g.resource.Other?
  {
    hide Blockers, Short;
    forall g ensures g in Blockers(b, c) <==>
        Short(b, c, g.resource) && g == QueueGate(b, c, g.resource) && !g.resource.Other? {
      BlockerMembers(b, c, g);
    }
    if Blockers(b, c) != [] {
      assert Blockers(b, c)[0] in Blockers(b, c);
    }
    forall r | Short(b, c, r) && !r.Other? ensures Blockers(b, c) != [] {
      assert QueueGate(b, c, r) in Blockers(b, c);
    }
  }

  method ItemGates(b: Balances, c: Cost, ids: seq<int>) returns (gates: seq<Gate>)
    requires forall i :: 0 <= i < |ids| ==> ids[i] in c.items
    ensures gates == ItemBlockers(b, c, ids)
  {
    gates := [];
    for i := 0 to |ids|
      invariant gates == ItemBlockers(b, c, ids[..i])
    {
      assert ids[..i + 1][..i] == ids[..i];
      if c.items[ids[i]] > ItemCount(b.items, ids[i]) { gates := gates + [QueueGate(b, c, Item(ids[i]))]; }
    }
    assert ids[..|ids|] == ids;
  }

  /** `sequentialResourceBudget` */
  class Budget {
    var gold: int
    var diamonds: int
    var waterDrops: int
    var items: map<int, int>

    function Snapshot(): Balances
      reads this
    {
      Balances(gold, diamonds, waterDrops, items)
    }

    constructor (b: Balances)
      ensures Snapshot() == b
    {
      gold, diamonds, waterDrops, items := b.gold, b.diamonds, b.waterDrops, b.items;
    }

    method QueueBlockedGates(cost: Cost) returns (gates: seq<Gate>)
      ensures gates == Blockers(Snapshot(), cost)
    {
      var b := Snapshot();
      gates := [];
      hide ItemBlockers, QueueGate, Ascending;
      if cost.diamonds > diamonds { gates := gates + [QueueGate(b, cost, Diamond)]; }
      if cost.gold > gold { gates := gates + [QueueGate(b, cost, Gold)]; }
      if cost.waterDrops > waterDrops { gates := gates + [QueueGate(b, cost, WaterDrop)]; }
      var forItems := ItemGates(b, cost, Ascending(cost.items.Keys));
      gates := gates + forItems;
    }

    /** `spend`, with its clamps at zero. */
    method Spend(cost: Cost)
      modifies this
      ensures Snapshot() == Spent(old(Snapshot()), cost)
    {
      SpendItems(cost.items);
      diamonds := Max(0, diamonds - cost.diamonds);
      gold := gold - cost.gold;
      if gold < 0 { gold := 0; }
      waterDrops := waterDrops - cost.waterDrops;
      if waterDrops < 0 { waterDrops := 0; }
    }

    /** The item loop of `spend`, in any order of the keys. */
    method SpendItems(costs: map<int, int>)
      modifies this`items
      ensures items == SpentItems(old(items), costs)
    {
      var rest := costs.Keys;
      ghost var was := items;
      while rest != {}
        invariant rest <= costs.Keys && items.Keys == was.Keys + (costs.Keys - rest)
        invariant forall id :: id in items ==>
                    items[id] == if id in costs && id !in rest then Max(0, ItemCount(was, id) - costs[id]) else ItemCount(was, id)
        decreases rest
      {
        var id := AnyKey(rest);
        items := items[id := ItemCount(items, id) - costs[id]];
        if items[id] < 0 { items := items[id := 0]; }
        rest := rest - {id};
      }
      ghost var left := SpentItems(was, costs);
      assert items.Keys == left.Keys;
      forall id: int | id in items ensures items[id] == left[id] { }
    }
  }

  method AnyKey(s: set<int>) returns (id: int)
    requires s != {}
    ensures id in s
  {
    id := Least(s);
  }

  // ----- the queue pass -----

  /** `operationConsumesQueueBudget`: the same test by which an operation is picked for execution. */
  predicate Runnable(op: Op) {
    op.executable && !op.syncOnly && op.status != AdapterMissing && op.status != Blocked && op.reasons == []
  }

  function ReasonsOf(gates: seq<Gate>): seq<Reason> {
    if gates == [] then [] else gates[0].reasons + ReasonsOf(gates[1..])
  }

  function BlockedBy(op: Op, gates: seq<Gate>): Op {
    op.(status := Blocked, executable := false, reasons := op.reasons + ReasonsOf(gates), gates := op.gates + gates)
  }

  function Judged(left: Balances, op: Op): Op {
    if !Runnable(op) || Free(CostOf(op.gates)) then op
    else
      var blockers := Blockers(left, CostOf(op.gates));
      if blockers != [] then BlockedBy(op, blockers) else op
  }

  /** What is left once the operation, if still runnable, is executed. */
  function After(left: Balances, op: Op): Balances {
    if Runnable(op) && !Free(CostOf(op.gates)) then Spent(left, CostOf(op.gates)) else left
  }

  function Pass(left: Balances, ops: seq<Op>): (outs: seq<Op>)
    ensures |outs| == |ops|
    decreases |ops|
  {
    if ops == [] then []
    else
      var out := Judged(left, ops[0]);
      [out] + Pass(After(left, out), ops[1..])
  }

  function AfterAll(left: Balances, outs: seq<Op>): Balances
    decreases |outs|
  {
    if outs == [] then left else AfterAll(After(left, outs[0]), outs[1..])
  }

  /** What the runnable operations of a queue need together. */
  function Spending(outs: seq<Op>, r: Resource): nat {
    if outs == [] then 0
    else (if Runnable(outs[0]) then Needs(outs[0].gates, r) else 0) + Spending(outs[1..], r)
  }

  lemma FreeNeedsNothing(gates: seq<Gate>, r: Resource)
    requires Free(CostOf(gates))
    ensures Needs(gates, r) == 0
  {
    AmountIsNeeds(gates, r);
  }

  lemma SpentHeld(b: Balances, gates: seq<Gate>, r: Resource)
    requires NonNegative(b) && Needs(gates, r) <= Held(b, r)
    ensures Held(Spent(b, CostOf(gates)), r) == Held(b, r) - Needs(gates, r)
  {
    AmountIsNeeds(gates, r);
    assert Held(b, r) >= 0;
  }

  /** An operation comes through runnable only if the budget covers it, and then exactly its needs are taken. */
  lemma JudgedTakesNeeds(left: Balances, op: Op, r: Resource)
    requires NonNegative(left)
    ensures var out := Judged(left, op);
            Held(After(left, out), r) == Held(left, r) - (if Runnable(out) then Needs(out.gates, r) else 0) >= 0
  {
    var out := Judged(left, op);
    var c := CostOf(op.gates);
    assert Held(left, r) >= 0;
    if Runnable(out) {
      if Free(c) {
        FreeNeedsNothing(op.gates, r);
      } else {
        BlockersExactly(left, c);
        AmountIsNeeds(op.gates, r);
        ItemsAreCosted(op.gates, r);
        assert Short(left, c, r) ==> r.Other?;
        SpentHeld(left, op.gates, r);
      }
    }
  }

  lemma ItemsAreCosted(gates: seq<Gate>, r: Resource)
    ensures r.Item? && r.id !in CostOf(gates).items ==> Needs(gates, r) == 0
    ensures r.Other? ==> Needs(gates, r) == 0
  {
    if r.Item? { ItemNeeded(gates, r.id); }
    OtherIsFree(gates);
  }

  lemma JudgedKeepsNonNegative(left: Balances, op: Op)
    requires NonNegative(left)
    ensures NonNegative(After(left, Judged(left, op)))
  {
    forall r ensures Held(After(left, Judged(left, op)), r) >= 0 { JudgedTakesNeeds(left, op, r); }
  }

  /** From a negative balance the budget blocks every operation that costs anything, whether or not it needs that resource. */
  lemma NegativeBlocksAnyCost(left: Balances, op: Op, r: Resource)
    requires Runnable(op) && !Free(CostOf(op.gates)) && (r.Gold? || r.Diamond? || r.WaterDrop?) && Held(left, r) < 0
    ensures !Runnable(Judged(left, op)) && Judged(left, op).status == Blocked
  {
    AmountIsNeeds(op.gates, r);
    BlockersExactly(left, CostOf(op.gates));
    assert QueueGate(left, CostOf(op.gates), r) in Blockers(left, CostOf(op.gates));
  }

  /**
   From non-negative balances nothing is ever overdrawn: whatever is left before any position is the start minus
   all that the runnable operations before it need, in every resource. So the clamps at zero never act.
   */
  lemma {:induction false} NothingOverdrawn(left: Balances, ops: seq<Op>, k: nat, r: Resource)
    requires NonNegative(left) && k <= |ops|
    ensures var before := Pass(left, ops)[..k];
            && Held(AfterAll(left, before), r) == Held(left, r) - Spending(before, r) >= 0
            && NonNegative(AfterAll(left, before))
    decreases k
  {
    hide Judged, After, Held, Needs;
    var outs := Pass(left, ops);
    if k == 0 {
      assert Held(left, r) >= 0;
    } else {
      var out := Judged(left, ops[0]);
      JudgedTakesNeeds(left, ops[0], r);
      JudgedKeepsNonNegative(left, ops[0]);
      NothingOverdrawn(After(left, out), ops[1..], k - 1, r);
      assert outs[..k][1..] == Pass(After(left, out), ops[1..])[..k - 1];
    }
  }

  lemma {:induction false} PassAt(left: Balances, ops: seq<Op>, i: nat)
    requires i < |ops|
    ensures Pass(left, ops)[i] == Judged(AfterAll(left, Pass(left, ops)[..i]), ops[i])
    decreases i
  {
    hide Judged, After;
    if i > 0 {
      var out := Judged(left, ops[0]);
      PassAt(After(left, out), ops[1..], i - 1);
      assert Pass(left, ops)[..i][1..] == Pass(After(left, out), ops[1..])[..i - 1];
    }
  }

  lemma ReasonsContain(gates: seq<Gate>, g: Gate, reason: Reason)
    requires g in gates && reason in g.reasons
    ensures reason in ReasonsOf(gates)
  {
  }

  /**
   An operation is newly blocked exactly when it was runnable and needs more of some resource than the accepted
   operations before it leave; it then says so with both amounts. Every other operation is untouched.
   */
  lemma NewlyBlockedExactly(left: Balances, ops: seq<Op>, i: nat)
    requires NonNegative(left) && i < |ops|
    ensures var outs := Pass(left, ops);
            && (outs[i] != ops[i] <==>
                  Runnable(ops[i]) && exists r :: Needs(ops[i].gates, r) > Held(left, r) - Spending(outs[..i], r))
            && (outs[i] != ops[i] ==> !Runnable(outs[i]))
            && (outs[i] != ops[i] ==> forall r ::
                  Needs(ops[i].gates, r) > Held(left, r) - Spending(outs[..i], r) ==>
                    QueueLacks(r, Needs(ops[i].gates, r), Held(left, r) - Spending(outs[..i], r)) in outs[i].reasons)
  {
    hide *;
    var outs := Pass(left, ops);
    var b := AfterAll(left, outs[..i]);
    var op := ops[i];
    NothingOverdrawn(left, ops, i, Gold);
    PassAt(left, ops, i);
    forall r ensures Held(b, r) == Held(left, r) - Spending(outs[..i], r) >= 0 {
      NothingOverdrawn(left, ops, i, r);
    }
    JudgedExactly(b, op);
    forall r | outs[i] != op && Needs(op.gates, r) > Held(b, r)
      ensures QueueLacks(r, Needs(op.gates, r), Held(b, r)) in outs[i].reasons
    {
      JudgedSays(b, op, r);
    }
  }

  /** Amounts and needs, shortages and blockers are the same thing from non-negative balances. */
  lemma BlockedWhenShort(b: Balances, op: Op)
    requires NonNegative(b)
    ensures Blockers(b, CostOf(op.gates)) != [] <==> exists r :: Needs(op.gates, r) > Held(b, r)
  {
    var c := CostOf(op.gates);
    BlockersExactly(b, c);
    forall r ensures Short(b, c, r) && !r.Other? <==> Needs(op.gates, r) > Held(b, r) {
      assert Held(b, r) >= 0;
      AmountIsNeeds(op.gates, r);
      ItemsAreCosted(op.gates, r);
    }
  }

  lemma JudgedExactly(b: Balances, op: Op)
    requires NonNegative(b)
    ensures Judged(b, op) != op <==> Runnable(op) && exists r :: Needs(op.gates, r) > Held(b, r)
    ensures Judged(b, op) != op ==> !Runnable(Judged(b, op))
  {
    hide CostOf, Blockers, NonNegative;
    BlockedWhenShort(b, op);
    if Free(CostOf(op.gates)) {
      forall r ensures Needs(op.gates, r) <= Held(b, r) {
        FreeNeedsNothing(op.gates, r);
        HeldIsNonNegative(b, r);
      }
    }
  }

  lemma HeldIsNonNegative(b: Balances, r: Resource)
    requires NonNegative(b)
    ensures Held(b, r) >= 0
  {
  }

  lemma JudgedSays(b: Balances, op: Op, r: Resource)
    requires NonNegative(b) && Judged(b, op) != op && Needs(op.gates, r) > Held(b, r)
    ensures QueueLacks(r, Needs(op.gates, r), Held(b, r)) in Judged(b, op).reasons
  {
    var c := CostOf(op.gates);
    BlockersExactly(b, c);
    AmountIsNeeds(op.gates, r);
    ItemsAreCosted(op.gates, r);
    assert Held(b, r) >= 0;
    var g := QueueGate(b, c, r);
    assert g in Blockers(b, c);
    ReasonsContain(Blockers(b, c), g, QueueLacks(r, Needs(op.gates, r), Held(b, r)));
  }

  lemma JudgedAgain(left: Balances, op: Op)
    ensures Judged(left, Judged(left, op)) == Judged(left, op)
  {
  }

  /** Running the pass again from the same balances changes nothing. */
  lemma {:induction false} SecondPassChangesNothing(left: Balances, ops: seq<Op>)
    ensures Pass(left, Pass(left, ops)) == Pass(left, ops)
    decreases |ops|
  {
    hide Judged, After;
    if ops != [] {
      var out := Judged(left, ops[0]);
      JudgedAgain(left, ops[0]);
      assert Pass(left, ops)[1..] == Pass(After(left, out), ops[1..]);
      SecondPassChangesNothing(After(left, out), ops[1..]);
    }
  }

  method JudgeNext(budget: Budget, op: Op) returns (out: Op)
    modifies budget
    ensures out == Judged(old(budget.Snapshot()), op)
    ensures budget.Snapshot() == After(old(budget.Snapshot()), out)
  {
    if !Runnable(op) { return op; }
    var cost := OperationCostFromGates(op.gates);
    if Free(cost) { return op; }
    var gates := budget.QueueBlockedGates(cost);
    if gates != [] { return BlockedBy(op, gates); }
    budget.Spend(cost);
    return op;
  }

  /** `annotateSequentialResourceBudget`, in place over the ranked queue. */
  method AnnotateSequentialResourceBudget(start: Balances, ops: array<Op>)
    modifies ops
    ensures ops[..] == Pass(start, old(ops[..]))
  {
    var budget := new Budget(start);
    ghost var was := ops[..];
    hide Judged, After;
    for i := 0 to ops.Length
      invariant ops[i..] == was[i..] && fresh(budget)
      invariant ops[..i] + Pass(budget.Snapshot(), was[i..]) == Pass(start, was)
    {
      PassStep(ops[..i], budget.Snapshot(), was[i..], Pass(start, was));
      assert was[i..][1..] == was[i + 1..];
      ghost var done := ops[..i];
      var out := JudgeNext(budget, ops[i]);
      ops[i] := out;
      assert ops[..i + 1] == done + [out];
    }
  }

  lemma PassStep(done: seq<Op>, left: Balances, rest: seq<Op>, whole: seq<Op>)
    requires rest != [] && done + Pass(left, rest) == whole
    ensures var out := Judged(left, rest[0]);
            done + [out] + Pass(After(left, out), rest[1..]) == whole
  {
    hide Judged, After;
    var out := Judged(left, rest[0]);
    assert done + ([out] + Pass(After(left, out), rest[1..])) == done + [out] + Pass(After(left, out), rest[1..]);
  }

  // ----- the gates an operation gets from what it really costs -----

  /** What executing the operation takes from the player. */
  function RealNeed(op: Op, r: Resource): nat {
    match r
    case Gold => Max(0, op.goldCost)
    case Diamond => Max(0, op.diamondCost)
    case WaterDrop => if op.isWater then |op.lands| else 0
    case Item(id) => if id > 0 then Max(0, ItemCount(op.itemCost, id)) else 0
    case Other => 0
  }

  function ResourceGate(r: Resource, required: int, available: int): Gate {
    if required > available then
      Gate(Implied(r), r, required, available, Blocked, [Lacks(r, required, available)], true, false)
    else Gate(Implied(r), r, required, available, Ready, [], true, false)
  }

  function DiamondGate(b: Balances, op: Op): Gate {
    var g := ResourceGate(Diamond, op.diamondCost, b.diamonds);
    if g.reasons == [] && !op.isRaceUpgrade then g.(status := AdapterMissing, reasons := [DiamondsNotAutomatic]) else g
  }

  function WaterGate(b: Balances, op: Op): Gate {
    var g := ResourceGate(WaterDrop, |op.lands|, b.waterDrops);
    if |op.lands| <= 0 then g.(status := Blocked, reasons := [NothingToWater]) else g
  }

  function ItemGatesFor(b: Balances, op: Op, ids: seq<int>): seq<Gate> {
    if ids == [] then []
    else
      var front, id := ids[..|ids| - 1], ids[|ids| - 1];
      ItemGatesFor(b, op, front)
      + if ItemCount(op.itemCost, id) <= 0 then []
        else [ResourceGate(Item(id), ItemCount(op.itemCost, id), ItemCount(b.items, id))]
  }

  function GoldGates(b: Balances, op: Op): seq<Gate> {
    if op.goldCost > 0 then [ResourceGate(Gold, op.goldCost, b.gold)] else []
  }

  function DiamondGates(b: Balances, op: Op): seq<Gate> { if op.diamondCost > 0 then [DiamondGate(b, op)] else [] }

  function WaterGates(b: Balances, op: Op): seq<Gate> { if op.isWater then [WaterGate(b, op)] else [] }

  /** `implicitOperationCostGates` */
  function ImplicitGates(b: Balances, op: Op): seq<Gate> {
    GoldGates(b, op) + DiamondGates(b, op) + ItemGatesFor(b, op, Ascending(op.itemCost.Keys)) + WaterGates(b, op)
  }

  lemma {:induction false} NeedsConcat(one: seq<Gate>, two: seq<Gate>, r: Resource)
    ensures Needs(one + two, r) == Max(Needs(one, r), Needs(two, r))
  {
    if two == [] {
      assert one + two == one;
    } else {
      var all := one + two;
      assert all[..|all| - 1] == one + two[..|two| - 1];
      NeedsConcat(one, two[..|two| - 1], r);
    }
  }

  lemma NeedsOne(g: Gate, r: Resource)
    ensures Needs([g], r) == if Counts(g) && g.resource == r then g.required else 0
    ensures Needs([], r) == 0
  {
    assert [g][..0] == [];
  }

  lemma {:induction false} ItemGatesNeed(b: Balances, op: Op, ids: seq<int>, r: Resource)
    ensures Needs(ItemGatesFor(b, op, ids), r) == if r.Item? && r.id in ids then RealNeed(op, r) else 0
  {
    if ids != [] {
      var front, id := ids[..|ids| - 1], ids[|ids| - 1];
      ItemGatesNeed(b, op, front, r);
      var g := ResourceGate(Item(id), ItemCount(op.itemCost, id), ItemCount(b.items, id));
      NeedsConcat(ItemGatesFor(b, op, front), if ItemCount(op.itemCost, id) <= 0 then [] else [g], r);
      NeedsOne(g, r);
      hide Needs;
      assert r.Item? ==> (r.id in ids <==> r.id in front || r.id == id);
    }
  }

  lemma SingleGatesNeed(b: Balances, op: Op, r: Resource)
    ensures Needs(GoldGates(b, op), r) == if r.Gold? then RealNeed(op, r) else 0
    ensures Needs(DiamondGates(b, op), r) == if r.Diamond? then RealNeed(op, r) else 0
    ensures Needs(WaterGates(b, op), r) == if r.WaterDrop? then RealNeed(op, r) else 0
  {
    hide Needs;
    NeedsOne(ResourceGate(Gold, op.goldCost, b.gold), r);
    NeedsOne(DiamondGate(b, op), r);
    NeedsOne(WaterGate(b, op), r);
  }

  /** The gates an operation is given stand for its real cost, resource by resource. */
  lemma ImplicitGatesNeed(b: Balances, op: Op, r: Resource)
    ensures Needs(ImplicitGates(b, op), r) == RealNeed(op, r)
  {
    hide Needs, ItemGatesFor, GoldGates, DiamondGates, WaterGates;
    var gold, diamond, water := GoldGates(b, op), DiamondGates(b, op), WaterGates(b, op);
    var ids := Ascending(op.itemCost.Keys);
    var items := ItemGatesFor(b, op, ids);
    NeedsConcat(gold, diamond, r);
    NeedsConcat(gold + diamond, items, r);
    NeedsConcat(gold + diamond + items, water, r);
    ItemGatesNeed(b, op, ids, r);
    SingleGatesNeed(b, op, r);
    assert r.Item? ==> (r.id in ids <==> r.id in op.itemCost);
  }

  // ----- annotating the gates -----

  function Unshadowed(existing: seq<Gate>, implicit: seq<Gate>): seq<Gate> {
    if implicit == [] then []
    else
      var front, g := implicit[..|implicit| - 1], implicit[|implicit| - 1];
      Unshadowed(existing, front) + if exists h :: h in existing && h.id == g.id then [] else [g]
  }

  /** `mergeCostGates`: an implicit gate gives way to an existing one with the same id. */
  function Merged(existing: seq<Gate>, implicit: seq<Gate>): seq<Gate> {
    if existing == [] then implicit else if implicit == [] then existing else existing + Unshadowed(existing, implicit)
  }

  function BlockingReasons(gates: seq<Gate>): seq<Reason> {
    if gates == [] then []
    else BlockingReasons(gates[..|gates| - 1]) + if Blocking(gates[|gates| - 1]) then gates[|gates| - 1].reasons else []
  }

  /** One operation of `annotateOperationGates`; the diagnostic stage label is left out. */
  function Annotated(b: Balances, op: Op): Op {
    var gated := op.(gates := Merged(op.gates, ImplicitGates(b, op)));
    var op := if gated.reasons != [] && gated.status == Unset then gated.(status := Blocked) else gated;
    if op.status == Blocked || op.status == AdapterMissing || op.syncOnly || !op.executable then op
    else
      var reasons := BlockingReasons(op.gates);
      if reasons == [] then op
      else
        var status := if exists g :: g in op.gates && g.status == AdapterMissing then AdapterMissing else Blocked;
        op.(status := status, executable := false, reasons := op.reasons + reasons)
  }

  method AnnotateOperationGates(b: Balances, ops: array<Op>)
    modifies ops
    ensures forall i :: 0 <= i < ops.Length ==> ops[i] == Annotated(b, old(ops[i]))
  {
    hide Annotated;
    for i := 0 to ops.Length
      invariant forall j :: 0 <= j < ops.Length ==>
                  ops[j] == if j < i then Annotated(b, old(ops[j])) else old(ops[j])
    {
      var out := AnnotateOne(b, ops[i]);
      ops[i] := out;
    }
  }

  method AnnotateOne(b: Balances, before: Op) returns (op: Op)
    ensures op == Annotated(b, before)
  {
    op := before.(gates := Merged(before.gates, ImplicitGates(b, before)));
    if op.reasons != [] && op.status == Unset { op := op.(status := Blocked); }
    if op.status == Blocked || op.status == AdapterMissing || op.syncOnly || !op.executable { return; }
    var reasons, status := CollectBlocking(op.gates);
    if reasons == [] { return; }
    op := op.(status := status, executable := false, reasons := op.reasons + reasons);
  }

  method CollectBlocking(gates: seq<Gate>) returns (reasons: seq<Reason>, status: Status)
    ensures reasons == BlockingReasons(gates)
    ensures status == if exists g :: g in gates && g.status == AdapterMissing then AdapterMissing else Blocked
  {
    reasons, status := [], Blocked;
    for i := 0 to |gates|
      invariant reasons == BlockingReasons(gates[..i])
      invariant status == if exists j :: 0 <= j < i && gates[j].status == AdapterMissing then AdapterMissing else Blocked
    {
      assert gates[..i + 1][..i] == gates[..i];
      if !Blocking(gates[i]) { continue; }
      reasons := reasons + gates[i].reasons;
      if gates[i].status == AdapterMissing { status := AdapterMissing; }
    }
    assert gates[..|gates|] == gates;
  }

  lemma {:induction false} NoBlockingReasons(gates: seq<Gate>)
    ensures BlockingReasons(gates) == [] <==> forall i :: 0 <= i < |gates| ==> gates[i].reasons == []
  {
    if gates != [] {
      var front, g := gates[..|gates| - 1], gates[|gates| - 1];
      NoBlockingReasons(front);
      assert forall i :: 0 <= i < |front| ==> front[i] == gates[i];
    }
  }

  /** The operation by itself can be paid for from the observed balances and needs no unattended diamonds. */
  ghost predicate Payable(b: Balances, op: Op) {
    && (op.goldCost > 0 ==> op.goldCost <= b.gold)
    && (op.diamondCost > 0 ==> op.diamondCost <= b.diamonds && op.isRaceUpgrade)
    && (forall id: int :: ItemCount(op.itemCost, id) > 0 ==> ItemCount(op.itemCost, id) <= ItemCount(b.items, id))
    && (op.isWater ==> 0 < |op.lands| <= b.waterDrops)
  }

  predicate Quiet(gates: seq<Gate>) { forall i :: 0 <= i < |gates| ==> gates[i].reasons == [] }

  lemma QuietConcat(one: seq<Gate>, two: seq<Gate>)
    ensures Quiet(one + two) <==> Quiet(one) && Quiet(two)
  {
    if Quiet(one + two) {
      assert forall i :: 0 <= i < |one| ==> one[i] == (one + two)[i];
      assert forall i :: 0 <= i < |two| ==> two[i] == (one + two)[|one| + i];
    }
  }

  lemma {:induction false} QuietItems(b: Balances, op: Op, ids: seq<int>)
    ensures Quiet(ItemGatesFor(b, op, ids)) <==>
              forall i :: 0 <= i < |ids| && ItemCount(op.itemCost, ids[i]) > 0 ==>
                ItemCount(op.itemCost, ids[i]) <= ItemCount(b.items, ids[i])
  {
    if ids != [] {
      var front, id := ids[..|ids| - 1], ids[|ids| - 1];
      QuietItems(b, op, front);
      var last := if ItemCount(op.itemCost, id) <= 0 then []
                  else [ResourceGate(Item(id), ItemCount(op.itemCost, id), ItemCount(b.items, id))];
      QuietConcat(ItemGatesFor(b, op, front), last);
      assert last != [] ==> (Quiet(last) <==> last[0].reasons == []);
      assert forall i :: 0 <= i < |front| ==> front[i] == ids[i];
    }
  }

  lemma QuietSingles(b: Balances, op: Op)
    ensures Quiet(GoldGates(b, op)) <==> (op.goldCost > 0 ==> op.goldCost <= b.gold)
    ensures Quiet(DiamondGates(b, op)) <==> (op.diamondCost > 0 ==> op.diamondCost <= b.diamonds && op.isRaceUpgrade)
    ensures Quiet(WaterGates(b, op)) <==> (op.isWater ==> 0 < |op.lands| <= b.waterDrops)
  {
    assert op.goldCost > 0 ==> (Quiet(GoldGates(b, op)) <==> GoldGates(b, op)[0].reasons == []);
    assert op.diamondCost > 0 ==> (Quiet(DiamondGates(b, op)) <==> DiamondGates(b, op)[0].reasons == []);
    assert op.isWater ==> (Quiet(WaterGates(b, op)) <==> WaterGates(b, op)[0].reasons == []);
  }

  lemma ImplicitQuietExactly(b: Balances, op: Op)
    ensures Quiet(ImplicitGates(b, op)) <==> Payable(b, op)
  {
    hide Quiet, GoldGates, DiamondGates, WaterGates, ItemGatesFor;
    var gold, diamond, water := GoldGates(b, op), DiamondGates(b, op), WaterGates(b, op);
    var ids := Ascending(op.itemCost.Keys);
    var items := ItemGatesFor(b, op, ids);
    QuietConcat(gold, diamond);
    QuietConcat(gold + diamond, items);
    QuietConcat(gold + diamond + items, water);
    QuietItems(b, op, ids);
    QuietSingles(b, op);
    forall id: int | ItemCount(op.itemCost, id) > 0 ensures exists i :: 0 <= i < |ids| && ids[i] == id {
      assert id in ids;
    }
  }

  /**
   An operation that comes without gates of its own leaves annotation runnable exactly when it was runnable and
   the observed balances pay for it, and its gates then stand for its real cost.
   */
  lemma AnnotatedRunnableExactly(b: Balances, op: Op)
    requires op.gates == []
    ensures Runnable(Annotated(b, op)) <==> Runnable(op) && Payable(b, op)
    ensures forall r :: Needs(Annotated(b, op).gates, r) == RealNeed(Annotated(b, op), r) == RealNeed(op, r)
  {
    hide Payable, ImplicitGates, Needs, RealNeed;
    assert Annotated(b, op).gates == ImplicitGates(b, op);
    var gates := ImplicitGates(b, op);
    ImplicitQuietExactly(b, op);
    NoBlockingReasons(gates);
    forall r ensures Needs(gates, r) == RealNeed(op, r) == RealNeed(Annotated(b, op), r) {
      ImplicitGatesNeed(b, op, r);
      SameCostSameNeed(op, Annotated(b, op), r);
    }
  }

  lemma SameCostSameNeed(op: Op, other: Op, r: Resource)
    requires op.goldCost == other.goldCost && op.diamondCost == other.diamondCost && op.itemCost == other.itemCost
    requires op.isWater == other.isWater && op.lands == other.lands
    ensures RealNeed(op, r) == RealNeed(other, r)
  {
  }

  // ----- executing the queue -----

  /** The gates of the operation cover its real cost. */
  ghost predicate Covered(op: Op) { forall r :: RealNeed(op, r) <= Needs(op.gates, r) }

  function RealSpending(outs: seq<Op>, r: Resource): nat {
    if outs == [] then 0
    else (if Runnable(outs[0]) then RealNeed(outs[0], r) else 0) + RealSpending(outs[1..], r)
  }

  lemma JudgedStaysCovered(left: Balances, op: Op)
    requires Covered(op)
    ensures Runnable(Judged(left, op)) ==> Covered(Judged(left, op))
  {
  }

  lemma {:induction false} RealSpendingCovered(outs: seq<Op>, r: Resource)
    requires forall i :: 0 <= i < |outs| && Runnable(outs[i]) ==> Covered(outs[i])
    ensures RealSpending(outs, r) <= Spending(outs, r)
  {
    if outs != [] {
      RealSpendingCovered(outs[1..], r);
      assert Runnable(outs[0]) ==> RealNeed(outs[0], r) <= Needs(outs[0].gates, r);
    }
  }

  /**
   The two passes together, whatever order the queue was sorted into between them: executing the operations still
   runnable, one after the other, never takes more of anything than was observed.
   */
  lemma ExecutionNeverOverdraws(b: Balances, queue: seq<Op>, k: nat, r: Resource)
    requires NonNegative(b) && k <= |queue| && forall i :: 0 <= i < |queue| ==> Covered(queue[i])
    ensures RealSpending(Pass(b, queue)[..k], r) <= Held(b, r)
  {
    hide *;
    NothingOverdrawn(b, queue, k, r);
    var outs := Pass(b, queue);
    forall i | 0 <= i < k && Runnable(outs[..k][i]) ensures Covered(outs[..k][i]) {
      PassAt(b, queue, i);
      JudgedStaysCovered(AfterAll(b, outs[..i]), queue[i]);
    }
    RealSpendingCovered(outs[..k], r);
  }

  lemma AnnotatedIsCovered(b: Balances, op: Op)
    requires op.gates == []
    ensures Covered(Annotated(b, op))
  {
    hide Annotated, Needs, RealNeed;
    AnnotatedRunnableExactly(b, op);
  }

  predicate Shadows(existing: seq<Gate>, r: Resource) { exists h :: h in existing && h.id == Implied(r) }

  predicate ImpliedIds(gates: seq<Gate>) { forall i :: 0 <= i < |gates| ==> gates[i].id == Implied(gates[i].resource) }

  lemma {:induction false} UnshadowedNeed(existing: seq<Gate>, implicit: seq<Gate>, r: Resource)
    requires ImpliedIds(implicit)
    ensures Needs(Unshadowed(existing, implicit), r) == if Shadows(existing, r) then 0 else Needs(implicit, r)
  {
    if implicit != [] {
      var front, g := implicit[..|implicit| - 1], implicit[|implicit| - 1];
      UnshadowedNeed(existing, front, r);
      NeedsConcat(Unshadowed(existing, front), if Shadows(existing, g.resource) then [] else [g], r);
      NeedsOne(g, r);
    }
  }

  lemma {:induction false} ItemGateIds(b: Balances, op: Op, ids: seq<int>)
    ensures ImpliedIds(ItemGatesFor(b, op, ids))
  {
    if ids != [] { ItemGateIds(b, op, ids[..|ids| - 1]); }
  }

  lemma ImpliedConcat(one: seq<Gate>, two: seq<Gate>)
    requires ImpliedIds(one) && ImpliedIds(two)
    ensures ImpliedIds(one + two)
  {
  }

  lemma ImplicitGateIds(b: Balances, op: Op)
    ensures ImpliedIds(ImplicitGates(b, op))
  {
    var gold, diamond, water := GoldGates(b, op), DiamondGates(b, op), WaterGates(b, op);
    assert ImpliedIds(gold) && ImpliedIds(diamond) && ImpliedIds(water);
    hide ImpliedIds, GoldGates, DiamondGates, WaterGates, ItemGatesFor;
    ItemGateIds(b, op, Ascending(op.itemCost.Keys));
    ImpliedConcat(gold, diamond);
    ImpliedConcat(gold + diamond, ItemGatesFor(b, op, Ascending(op.itemCost.Keys)));
    ImpliedConcat(gold + diamond + ItemGatesFor(b, op, Ascending(op.itemCost.Keys)), water);
  }

  /**
   An operation that brings gates of its own is covered exactly when no gate of its own takes the place of an
   implicit one while asking for less than the real cost.
   */
  lemma CoveredExactly(b: Balances, op: Op)
    ensures Covered(Annotated(b, op)) <==>
              forall r :: Shadows(op.gates, r) ==> RealNeed(op, r) <= Needs(op.gates, r)
  {
    forall r ensures RealNeed(Annotated(b, op), r) <= Needs(Annotated(b, op).gates, r) <==>
        (Shadows(op.gates, r) ==> RealNeed(op, r) <= Needs(op.gates, r)) {
      CoveredAt(b, op, r);
    }
  }

  lemma AnnotatedKeepsCost(b: Balances, op: Op, r: Resource)
    ensures Annotated(b, op).gates == Merged(op.gates, ImplicitGates(b, op))
    ensures RealNeed(Annotated(b, op), r) == RealNeed(op, r)
  {
    hide Merged, ImplicitGates, BlockingReasons, RealNeed;
    SameCostSameNeed(op, Annotated(b, op), r);
  }

  lemma CoveredAt(b: Balances, op: Op, r: Resource)
    ensures RealNeed(Annotated(b, op), r) <= Needs(Annotated(b, op).gates, r) <==>
              (Shadows(op.gates, r) ==> RealNeed(op, r) <= Needs(op.gates, r))
  {
    hide *;
    AnnotatedKeepsCost(b, op, r);
    MergedNeed(b, op, r);
  }

  lemma MergedNeed(b: Balances, op: Op, r: Resource)
    ensures Needs(Merged(op.gates, ImplicitGates(b, op)), r)
            == (if Shadows(op.gates, r) || Needs(op.gates, r) >= RealNeed(op, r) then Needs(op.gates, r) else RealNeed(op, r))
  {
    hide ImplicitGates, RealNeed;
    var implicit := ImplicitGates(b, op);
    ImplicitGatesNeed(b, op, r);
    ImplicitGateIds(b, op);
    UnshadowedNeed(op.gates, implicit, r);
    NeedsConcat(op.gates, Unshadowed(op.gates, implicit), r);
  }
}
