/**
 Activity tasks that borrow ordinary business operations: which tasks are worked on, which single operation each is
 given, and the check that is repeated before the operation is sent. One consistent snapshot of the state is used.
 */
module CyclicNote {
  import opened Common
  import Farm
  import Ledger
  import OpOrder
  import PearlHire
  import Replant

  const RESIDENT := 1009
  const PEARL := 1010
  const PLANT_ANY := 3001
  const RACK := 3015
  const CUSTOMER := 3016
  const TYPES := [RESIDENT, PEARL, PLANT_ANY, RACK, CUSTOMER]
  const RACK_SLOT_CAP := 12

  // ----- which tasks are worked on -----

  datatype Slot = Slot(slotId: int, unlocked: bool, taskId: int, taskType: int, target: int, progress: int,
                       progressSeen: bool, receiptSeen: bool, received: bool, catalogKnown: bool)

  /** The activity as observed; `live` stands for the policy switches and the observed running phase. */
  datatype Note = Note(live: bool, batch: int, finishCount: int, tasks: seq<Slot>)

  /** The frozen facts that authorise an operation. */
  datatype Drive = Drive(batch: int, slotId: int, taskId: int, taskType: int, progress: int, finishCount: int)

  datatype Action = Action(taskType: int, drive: Drive, missing: int)

  function Occurrences(tasks: seq<Slot>, taskId: int): nat {
    if tasks == [] then 0
    else Occurrences(tasks[..|tasks| - 1], taskId)
         + if tasks[|tasks| - 1].unlocked && tasks[|tasks| - 1].taskId == taskId then 1 else 0
  }

  predicate Open(n: Note, t: Slot) {
    && t.taskType in TYPES && Occurrences(n.tasks, t.taskId) == 1
    && t.unlocked && t.taskId > 0 && t.catalogKnown && t.target > 0 && t.progress >= 0 && t.progressSeen
    && t.receiptSeen && !t.received && t.progress < t.target
  }

  function Remaining(t: Slot): int { t.target - t.progress }

  /** A later task takes over only with more to do, or with as much and a smaller slot id. */
  predicate Keeps(current: Slot, t: Slot) {
    Remaining(current) > Remaining(t) || (Remaining(current) == Remaining(t) && current.slotId <= t.slotId)
  }

  function Chosen(n: Note, tasks: seq<Slot>, taskType: int): Option<Slot> {
    if tasks == [] then None
    else
      var current, t := Chosen(n, tasks[..|tasks| - 1], taskType), tasks[|tasks| - 1];
      if !Open(n, t) || t.taskType != taskType then current
      else if current.Some? && Keeps(current.value, t) then current
      else Some(t)
  }

  function ActionFor(n: Note, t: Slot): Action {
    Action(t.taskType, Drive(n.batch, t.slotId, t.taskId, t.taskType, t.progress, n.finishCount), Remaining(t))
  }

  function ActionsOf(n: Note, types: seq<int>): seq<Action> {
    if types == [] then []
    else
      var chosen := Chosen(n, n.tasks, types[|types| - 1]);
      ActionsOf(n, types[..|types| - 1]) + if chosen.Some? then [ActionFor(n, chosen.value)] else []
  }

  /** `cyclicNoteTaskActionDemands`: one action per supported task type, types ascending. */
  function Actions(n: Note): seq<Action> { if !n.live || n.batch <= 0 then [] else ActionsOf(n, TYPES) }

  /** The task worked on for a type: open, with the most to do, and of those the one in the first slot. */
  lemma {:induction false} ChosenIsBest(n: Note, tasks: seq<Slot>, taskType: int)
    ensures Chosen(n, tasks, taskType).None? <==>
              forall i :: 0 <= i < |tasks| ==> !(Open(n, tasks[i]) && tasks[i].taskType == taskType)
    ensures Chosen(n, tasks, taskType).Some? ==>
              var t := Chosen(n, tasks, taskType).value;
              && t in tasks && Open(n, t) && t.taskType == taskType
              && forall i :: 0 <= i < |tasks| && Open(n, tasks[i]) && tasks[i].taskType == taskType ==> Keeps(t, tasks[i])
  {
    if tasks != [] {
      var front, last := tasks[..|tasks| - 1], tasks[|tasks| - 1];
      ChosenIsBest(n, front, taskType);
      assert forall i :: 0 <= i < |front| ==> front[i] == tasks[i];
      assert last in tasks && forall t :: t in front ==> t in tasks;
      if Open(n, last) && last.taskType == taskType && Chosen(n, front, taskType).None? {
        assert tasks[|tasks| - 1] == last;
      }
    }
  }

  lemma {:induction false} ActionsAre(n: Note, types: seq<int>, a: Action)
    requires a in ActionsOf(n, types)
    ensures a.taskType in types && Chosen(n, n.tasks, a.taskType).Some?
    ensures a == ActionFor(n, Chosen(n, n.tasks, a.taskType).value) && a.missing >= 1 && a.drive.taskType == a.taskType
  {
    if types != [] {
      var front, last := types[..|types| - 1], types[|types| - 1];
      ChosenIsBest(n, n.tasks, last);
      if a in ActionsOf(n, front) { ActionsAre(n, front, a); }
    }
  }

  lemma {:induction false} ActionsOfLength(n: Note, types: seq<int>)
    ensures |ActionsOf(n, types)| <= |types|
  {
    if types != [] { ActionsOfLength(n, types[..|types| - 1]); }
  }

  /** Every action stands for an open task with at least one unit to do; there is one action per type at most. */
  lemma ActionsAreOpen(n: Note, a: Action)
    requires a in Actions(n)
    ensures exists t :: t in n.tasks && Open(n, t) && a == ActionFor(n, t)
    ensures a.missing >= 1 && a.taskType in TYPES && a.drive.taskType == a.taskType
    ensures forall b :: b in Actions(n) && b.taskType == a.taskType ==> b == a
  {
    ActionsAre(n, TYPES, a);
    ChosenIsBest(n, n.tasks, a.taskType);
    forall b | b in Actions(n) && b.taskType == a.taskType ensures b == a { ActionsAre(n, TYPES, b); }
  }

  // ----- operations and their order -----

  datatype Kind =
    | PlantLand | PlantBatch | WaterLand | WaterBatch | HarvestLands
    | ResidentFinish | CustomerFinish | RackSell
    | PearlSync | PearlPlaceHire | PearlBlocked
    | OtherKind

  type Rank = OpOrder.Rank

  /** An operation; `fallback` marks auto-replant planting, `concrete` planting for a demand of its own. */
  datatype Op = Op(kind: Kind, rank: Rank, lands: seq<int>, flower: int, count: int, target: int, item: int,
                   runnable: bool, fallback: bool, concrete: bool, demand: Option<int>, drive: Option<Drive>)

  predicate IsPlant(k: Kind) { k.PlantLand? || k.PlantBatch? }

  predicate IsWater(k: Kind) { k.WaterLand? || k.WaterBatch? }

  function PlaceOf(op: Op): OpOrder.Placed { OpOrder.Placed(op.rank, op.fallback && IsPlant(op.kind)) }

  predicate ComesBefore(a: Op, b: Op) { OpOrder.Before(PlaceOf(a), PlaceOf(b)) }

  /** `deterministicOperationIndex` */
  function BestIndex(ops: seq<Op>, wanted: Op -> bool): (best: Option<nat>)
    ensures best.Some? ==> best.value < |ops| && wanted(ops[best.value])
  {
    if ops == [] then None
    else
      var n := |ops| - 1;
      var best := BestIndex(ops[..n], wanted);
      if !wanted(ops[n]) then best
      else if best.None? || ComesBefore(ops[n], ops[best.value]) then Some(n)
      else best
  }

  /** The index finds a match if there is one, and none of the others has a better lane or, in it, a higher priority. */
  lemma {:induction false} BestIndexIsBest(ops: seq<Op>, wanted: Op -> bool)
    ensures BestIndex(ops, wanted).None? <==> forall i :: 0 <= i < |ops| ==> !wanted(ops[i])
    ensures BestIndex(ops, wanted).Some? ==>
              forall i :: 0 <= i < |ops| && wanted(ops[i]) ==> !OpOrder.CoarseBefore(PlaceOf(ops[i]), PlaceOf(ops[BestIndex(ops, wanted).value]))
  {
    if ops != [] {
      var front := ops[..|ops| - 1];
      BestIndexIsBest(front, wanted);
      assert forall i :: 0 <= i < |front| ==> front[i] == ops[i];
      var best := BestIndex(front, wanted);
      if best.Some? { assert front[best.value] == ops[best.value]; }
    }
  }

  function Matching(ops: seq<Op>, wanted: Op -> bool): seq<Op> {
    if ops == [] then []
    else Matching(ops[..|ops| - 1], wanted) + if wanted(ops[|ops| - 1]) then [ops[|ops| - 1]] else []
  }

  lemma BestIndexAppend(ops: seq<Op>, last: Op, wanted: Op -> bool)
    ensures var best := BestIndex(ops, wanted);
            BestIndex(ops + [last], wanted) ==
              if !wanted(last) then best
              else if best.None? || ComesBefore(last, ops[best.value]) then Some(|ops|)
              else best
  {
    hide ComesBefore;
    assert (ops + [last])[..|ops|] == ops;
    var best := BestIndex(ops, wanted);
    assert best.Some? ==> (ops + [last])[best.value] == ops[best.value];
  }

  /** What is chosen depends on the matches and their order alone, whatever other operations stand around them. */
  lemma {:induction false} OthersDoNotMatter(ops: seq<Op>, wanted: Op -> bool)
    ensures var all, matching := BestIndex(ops, wanted), BestIndex(Matching(ops, wanted), wanted);
            && (all.Some? <==> matching.Some?)
            && (all.Some? ==> ops[all.value] == Matching(ops, wanted)[matching.value])
  {
    if ops != [] {
      hide ComesBefore, BestIndex;
      var front, last := ops[..|ops| - 1], ops[|ops| - 1];
      OthersDoNotMatter(front, wanted);
      BestIndexAppend(front, last, wanted);
      assert ops == front + [last];
      var m := Matching(front, wanted);
      if wanted(last) {
        BestIndexAppend(m, last, wanted);
      } else {
        assert m + [] == m;
      }
    }
  }

  function Places(ops: seq<Op>, wanted: Op -> bool): set<OpOrder.Placed> {
    set i | 0 <= i < |ops| && wanted(ops[i]) :: PlaceOf(ops[i])
  }

  lemma PlacesOfFront(ops: seq<Op>, wanted: Op -> bool)
    requires ops != [] && OpOrder.Orderly(Places(ops, wanted))
    ensures OpOrder.Orderly(Places(ops[..|ops| - 1], wanted))
  {
    hide OpOrder.SharedRankIsFlat, OpOrder.ReplantsAreClosed;
    var front := ops[..|ops| - 1];
    forall a | a in Places(front, wanted) ensures a in Places(ops, wanted) {
      var i :| 0 <= i < |front| && wanted(front[i]) && a == PlaceOf(front[i]);
      assert ops[i] == front[i];
    }
  }

  lemma ThreeInOrder(places: set<OpOrder.Placed>, a: OpOrder.Placed, b: OpOrder.Placed, c: OpOrder.Placed)
    requires OpOrder.Orderly(places) && {a, b, c} <= places
    ensures OpOrder.TransitiveAt(a, b, c)
  {
    assert OpOrder.Orderly({a, b, c}) by { hide OpOrder.SharedRankIsFlat, OpOrder.ReplantsAreClosed; }
    OpOrder.OrderlyTriple(a, b, c);
  }

  /** Among matches on which the comparison is an order, none comes before the chosen one. */
  lemma {:induction false} BestIndexIsMinimal(ops: seq<Op>, wanted: Op -> bool, i: nat)
    requires OpOrder.Orderly(Places(ops, wanted)) && i < |ops| && wanted(ops[i])
    ensures BestIndex(ops, wanted).Some? && !ComesBefore(ops[i], ops[BestIndex(ops, wanted).value])
  {
    hide OpOrder.Before, OpOrder.Orderly, PlaceOf;
    var n := |ops| - 1;
    var best, last := BestIndex(ops[..n], wanted), ops[n];
    assert forall j :: 0 <= j < |ops| && wanted(ops[j]) ==> PlaceOf(ops[j]) in Places(ops, wanted);
    OpOrder.NeverBothWays(PlaceOf(last), PlaceOf(last));
    if i < n {
      PlacesOfFront(ops, wanted);
      assert ops[..n][i] == ops[i];
      BestIndexIsMinimal(ops[..n], wanted, i);
      assert ops[..n][best.value] == ops[best.value];
      if wanted(last) { ThreeInOrder(Places(ops, wanted), PlaceOf(ops[i]), PlaceOf(last), PlaceOf(ops[best.value])); }
    }
  }

  /** `cyclicNoteOperationMatches` */
  predicate Matches(taskType: int, k: Kind) {
    if taskType == PLANT_ANY then IsPlant(k) || IsWater(k) || k.HarvestLands?
    else if taskType == RESIDENT then k.ResidentFinish?
    else if taskType == CUSTOMER then k.CustomerFinish?
    else if taskType == RACK then k.RackSell?
    else taskType == PEARL && (k.PearlSync? || k.PearlPlaceHire? || k.PearlBlocked?)
  }

  /** `CyclicNoteOperationCount`: the task units an operation uses up. */
  function Units(op: Op): int {
    if op.drive.None? then 0
    else if IsPlant(op.kind) || IsWater(op.kind) || op.kind.HarvestLands? then |op.lands|
    else if op.kind.RackSell? then op.count
    else if op.kind.ResidentFinish? || op.kind.CustomerFinish? || op.kind.PearlPlaceHire? then 1
    else 0
  }

  // ----- the world the task operations are planned in -----

  /**
   An order that passes the planner's filters and is off cooldown. `place` is where the id of its finish operation
   stands in the text order; `others` are the operations the planner emits when it cannot be finished: craft, reject,
   reward or generate, whatever they are. Those that belong to no order come with an order without rows.
   */
  datatype Listing = Listing(key: Ledger.OrderKey, order: Ledger.Order, place: int, others: seq<Op>)

  type Orders = seq<Listing>

  /**
   What the scoped planners read. `residentLimited` is the daily limit under the scoped policy; the demands are those
   built for the scoped goals; `preferred` are the arts the policy prefers to sell, if it names any, and `arts` all
   arts, both with their vase unlocked; `rackOthers` are the claims and crafts of the rack planner.
   */
  datatype World = World(note: Note, tick: Farm.Tick,
                         pearlView: PearlHire.View, pearlConfig: PearlHire.Config, pearlPolicy: PearlHire.Policy,
                         residentLimited: bool, residents: Orders, residentDemands: seq<Ledger.Demand>,
                         customers: Orders, customerDemands: seq<Ledger.Demand>,
                         listing: bool, emptyRacks: seq<int>, preferred: Option<seq<int>>, arts: seq<int>,
                         rackOthers: seq<Op>)

  /** The task-scoped policy only turns the needed switches on. */
  function ScopedTick(t: Farm.Tick): Farm.Tick {
    t.(autoPlant := true, autoHarvest := true, demands := [], raceHeld := false)
  }

  function ScopedPearl(p: PearlHire.Policy): PearlHire.Policy { p.(autoHire := true) }

  // ----- validation at the send boundary -----

  function Find(actions: seq<Action>, drive: Drive): Option<Action> {
    if actions == [] then None else if actions[0].drive == drive then Some(actions[0]) else Find(actions[1..], drive)
  }

  predicate WaterStillDue(t: Farm.Tick, op: Op) {
    && (forall i :: 0 <= i < |op.lands| ==>
          op.lands[i] in t.lands && Farm.Recommend(t.lands[op.lands[i]], t.now, 0) == Farm.Water)
    && t.drops - Max(0, t.minDrops) >= Units(op)
  }

  /** `ValidateCyclicNoteTaskOperation` */
  predicate Accepts(w: World, op: Op) {
    op.drive.None? ||
    (var action := Find(Actions(w.note), op.drive.value);
     && action.Some?
     && Matches(op.drive.value.taskType, op.kind) && op.demand == Some(action.value.taskType)
     && 0 <= Units(op) <= action.value.missing
     && (Units(op) == 0 ==> op.drive.value.taskType == PEARL)
     && (op.drive.value.taskType == RESIDENT ==> !w.residentLimited)
     && (op.drive.value.taskType == PLANT_ANY && IsWater(op.kind) ==> WaterStillDue(w.tick, op)))
  }

  // ----- planting tasks -----

  function KindOf(rpc: Farm.Rpc): Kind {
    match rpc
    case HarvestLands => HarvestLands
    case PlantLand => PlantLand
    case PlantBatch => PlantBatch
    case WaterLand => WaterLand
    case WaterBatch => WaterBatch
  }

  /** Without demands all planting outside elves mode is the auto-replant fallback. */
  function FromFarm(t: Farm.Tick, f: Farm.Op, ranks: Farm.Op -> Rank): Op {
    Op(KindOf(f.rpc), ranks(f), f.lands, f.flower, 0, 0, 0, !f.purpose.BlockedPlanting?,
       f.purpose.Planting? && !Farm.ElvesDriving(t), f.purpose.Planting? && Farm.ElvesDriving(t), None, None)
  }

  function FromFarmAll(t: Farm.Tick, fs: seq<Farm.Op>, ranks: Farm.Op -> Rank): (ops: seq<Op>)
    ensures |ops| == |fs| && forall i :: 0 <= i < |fs| ==> ops[i] == FromFarm(t, fs[i], ranks)
  {
    seq(|fs|, i requires 0 <= i < |fs| => FromFarm(t, fs[i], ranks))
  }

  predicate IsFallback(op: Op) { op.runnable && IsPlant(op.kind) && op.fallback && op.lands != [] }

  predicate HasConcrete(ops: seq<Op>) {
    exists i :: 0 <= i < |ops| && IsPlant(ops[i].kind) && ops[i].concrete && ops[i].lands != []
  }

  /** The positive land ids of all fallback operations for one flower. */
  function FallbackLands(ops: seq<Op>, flower: int): set<int> {
    if ops == [] then {}
    else
      var op := ops[|ops| - 1];
      FallbackLands(ops[..|ops| - 1], flower)
      + if IsFallback(op) && op.flower == flower then set id | id in op.lands && id > 0 else {}
  }

  function Capped(ids: seq<int>, most: int): (r: seq<int>)
    requires most >= 0
    ensures |r| == Min(|ids|, most) && r <= ids
  {
    if |ids| > most then ids[..most] else ids
  }

  function NotFallback(ops: seq<Op>): seq<Op> {
    if ops == [] then []
    else NotFallback(ops[..|ops| - 1]) + if IsFallback(ops[|ops| - 1]) then [] else [ops[|ops| - 1]]
  }

  const PLANT_FLOOR := 5500

  /** The chosen operation on the capped lands, raised to the floor. */
  function Driven(chosen: Op, lands: seq<int>): Op {
    chosen.(lands := lands, kind := if |lands| == 1 then PlantLand else PlantBatch, demand := Some(PLANT_ANY),
            rank := chosen.rank.(priority := Max(chosen.rank.priority, PLANT_FLOOR)))
  }

  /** `driveCyclicNotePlant`: the fallback operations give way to one capped operation for the task. */
  function DrivePlant(auto: bool, ops: seq<Op>, missing: int): seq<Op>
    requires missing >= 1
  {
    var best := BestIndex(ops, (op: Op) => IsFallback(op));
    if !auto || HasConcrete(ops) || best.None? then ops
    else
      var chosen := ops[best.value];
      var lands := Capped(Ascending(FallbackLands(ops, chosen.flower)), missing);
      if lands == [] then ops
      else
        NotFallback(ops[..best.value]) + [Driven(chosen, lands)] + NotFallback(ops[best.value + 1..])
  }

  function Awaiting(t: Farm.Tick, kind: Farm.Kind): set<int> {
    set id | id in t.lands && Farm.Recommend(t.lands[id], t.now, 0) == kind
  }

  /** Finish watering first; harvest only when nothing can be planted. */
  predicate Usable(t: Farm.Tick, op: Op) {
    && (if Awaiting(t, Farm.Water) != {} then IsWater(op.kind) else op.kind.HarvestLands?)
    && op.runnable && op.lands != []
  }

  function FirstUsable(t: Farm.Tick, ops: seq<Op>): Option<Op> {
    if ops == [] then None else if Usable(t, ops[0]) then Some(ops[0]) else FirstUsable(t, ops[1..])
  }

  function Capture(first: Op, missing: int): Op
    requires missing >= 1
  {
    var lands := Capped(first.lands, missing);
    first.(lands := lands, demand := Some(PLANT_ANY),
           kind := if IsWater(first.kind) && |lands| == 1 then WaterLand else first.kind)
  }

  /** `scopedCyclicNoteFarmOperations`, on the scoped tick. */
  function FarmCandidates(t: Farm.Tick, missing: int, ranks: Farm.Op -> Rank): seq<Op>
    requires missing >= 1
  {
    var ops := FromFarmAll(t, Farm.FarmOps(t), ranks);
    if Awaiting(t, Farm.Water) == {} && Awaiting(t, Farm.Plant) != {} then DrivePlant(t.autoPlant, ops, missing)
    else
      var first := FirstUsable(t, ops);
      if first.None? then [] else [Capture(first.value, missing)]
  }

  // ----- order, rack and pearl tasks -----

  /** An operation of a reused planner that belongs to no task: its kind is none that a task asks for. */
  function Incidental(op: Op): Op { op.(kind := OtherKind, demand := None, drive := None) }

  function IncidentalAll(ops: seq<Op>): (out: seq<Op>)
    ensures |out| == |ops| && forall i :: 0 <= i < |ops| ==> out[i] == Incidental(ops[i])
  {
    seq(|ops|, i requires 0 <= i < |ops| => Incidental(ops[i]))
  }

  function FinishOp(l: Listing, kind: Kind, rank: Rank): Op {
    Op(kind, rank.(id := l.place), [], 0, 0, l.key.entity, 0, true, false, false, None, None)
  }

  function FinishOps(b: Ledger.Book, orders: Orders, kind: Kind, rank: Rank): seq<Op> {
    if orders == [] then []
    else
      var l := orders[|orders| - 1];
      FinishOps(b, orders[..|orders| - 1], kind, rank)
      + if Ledger.CanFulfill(b, l.key, l.order) then [FinishOp(l, kind, rank)] else IncidentalAll(l.others)
  }

  /** `linkCyclicNoteBusinessOperation` */
  function Linked(ops: seq<Op>, kind: Kind, taskType: int): seq<Op> {
    var best := BestIndex(ops, (op: Op) => op.runnable && op.kind == kind);
    if best.None? then ops else ops[best.value := ops[best.value].(demand := Some(taskType))]
  }

  /** `bestArtByInventoryCount`: the art with the most unreserved pieces, the smaller id among equals. */
  function BestArt(b: Ledger.Book, arts: seq<int>): Option<int> {
    if arts == [] then None
    else
      var best, art := BestArt(b, arts[..|arts| - 1]), arts[|arts| - 1];
      if Ledger.Available(b, art) <= 0 then best
      else if best.None? || Ledger.Available(b, art) > Ledger.Available(b, best.value)
              || (Ledger.Available(b, art) == Ledger.Available(b, best.value) && art < best.value) then Some(art)
      else best
  }

  lemma {:induction false} BestArtIsBest(b: Ledger.Book, arts: seq<int>)
    ensures BestArt(b, arts).None? <==> forall i :: 0 <= i < |arts| ==> Ledger.Available(b, arts[i]) <= 0
    ensures BestArt(b, arts).Some? ==>
              var best := BestArt(b, arts).value;
              && best in arts && Ledger.Available(b, best) > 0
              && forall i :: 0 <= i < |arts| ==>
                   Ledger.Available(b, arts[i]) < Ledger.Available(b, best)
                   || (Ledger.Available(b, arts[i]) == Ledger.Available(b, best) && best <= arts[i])
  {
    if arts != [] {
      var front, last := arts[..|arts| - 1], arts[|arts| - 1];
      BestArtIsBest(b, front);
      assert forall i :: 0 <= i < |front| ==> front[i] == arts[i];
      assert last in arts && forall a :: a in front ==> a in arts;
    }
  }

  /** `bestRackArtByCount`: a preferred art if any is in stock, otherwise any. */
  function RackArt(w: World, b: Ledger.Book): Option<int> {
    if w.preferred.None? then BestArt(b, w.arts)
    else if BestArt(b, w.preferred.value).Some? then BestArt(b, w.preferred.value)
    else BestArt(b, w.arts)
  }

  /** The rack offers nothing exactly if no preferred art and no other is in stock; a preferred one goes first. */
  lemma RackArtIs(w: World, b: Ledger.Book)
    ensures RackArt(w, b).None? <==>
              && (w.preferred.Some? ==> forall i :: 0 <= i < |w.preferred.value| ==> Ledger.Available(b, w.preferred.value[i]) <= 0)
              && forall i :: 0 <= i < |w.arts| ==> Ledger.Available(b, w.arts[i]) <= 0
    ensures RackArt(w, b).Some? ==> Ledger.Available(b, RackArt(w, b).value) > 0
    ensures w.preferred.Some? && (exists i :: 0 <= i < |w.preferred.value| && Ledger.Available(b, w.preferred.value[i]) > 0) ==>
              RackArt(w, b).Some? && RackArt(w, b).value in w.preferred.value
  {
    hide Ledger.Available, BestArt;
    BestArtIsBest(b, w.arts);
    if w.preferred.Some? { BestArtIsBest(b, w.preferred.value); }
  }

  function SellOps(w: World, b: Ledger.Book, rank: Rank): seq<Op> {
    var art := RackArt(w, b);
    IncidentalAll(w.rackOthers)
    + if !w.listing || w.emptyRacks == [] || art.None? then []
      else [Op(RackSell, rank, [], 0, Min(RACK_SLOT_CAP, Ledger.Available(b, art.value)), w.emptyRacks[0], art.value,
             true, false, false, None, None)]
  }

  /** `driveCyclicNoteFlowerRack` */
  function DriveRack(ops: seq<Op>, b: Ledger.Book, missing: int): seq<Op> {
    var best := BestIndex(ops, (op: Op) => op.runnable && op.kind.RackSell? && op.target > 0 && op.item > 0 && op.count > 0);
    if best.None? then ops
    else
      var op := ops[best.value];
      var count := Min(Min(op.count, missing), Min(Ledger.Available(b, op.item), RACK_SLOT_CAP));
      if count <= 0 then ops else ops[best.value := op.(count := count, demand := Some(RACK))]
  }

  function PearlCandidates(w: World, rank: Rank): seq<Op> {
    match PearlHire.Plan(w.pearlView, w.pearlConfig, ScopedPearl(w.pearlPolicy), w.tick.now)
    case Off => []
    case Blocked(_) => [Op(PearlBlocked, rank, [], 0, 0, 0, 0, false, false, false, Some(PEARL), None)]
    case Hire(place, uid) => [Op(PearlPlaceHire, rank, [], 0, 1, place, 0, true, false, false, Some(PEARL), None)]
    case _ => [Op(PearlSync, rank, [], 0, 0, 0, 0, true, false, false, Some(PEARL), None)]
  }

  datatype Ranks = Ranks(farm: Farm.Op -> Rank, orders: Rank, pearl: Rank)

  /** The ledger after a task's demands were topped up. */
  function TaskBook(w: World, b: Ledger.Book, taskType: int): Ledger.Book {
    if taskType == RESIDENT then Ledger.ToppedUp(b, w.residentDemands)
    else if taskType == CUSTOMER then Ledger.ToppedUp(b, w.customerDemands)
    else b
  }

  /** The candidate operations for one action, from the ledger after its demands were topped up. */
  function CandidatesFor(w: World, book: Ledger.Book, a: Action, ranks: Ranks): seq<Op>
    requires a.missing >= 1
  {
    if a.taskType == PLANT_ANY then FarmCandidates(ScopedTick(w.tick), a.missing, ranks.farm)
    else if a.taskType == PEARL then PearlCandidates(w, ranks.pearl)
    else if a.taskType == RACK then DriveRack(SellOps(w, book, ranks.orders), book, a.missing)
    else if a.taskType == RESIDENT then
      if w.residentLimited then []
      else Linked(FinishOps(book, w.residents, ResidentFinish, ranks.orders), ResidentFinish, RESIDENT)
    else Linked(FinishOps(book, w.customers, CustomerFinish, ranks.orders), CustomerFinish, CUSTOMER)
  }

  /** The one operation imported for an action, with its drive. */
  function Imported(w: World, b: Ledger.Book, a: Action, ranks: Ranks): Option<Op>
    requires a.missing >= 1
  {
    var ops := CandidatesFor(w, TaskBook(w, b, a.taskType), a, ranks);
    var best := BestIndex(ops, (op: Op) => op.demand == Some(a.taskType) && Matches(a.taskType, op.kind));
    if best.None? then None else Some(ops[best.value].(drive := Some(a.drive)))
  }

  /** An ordinary operation already serves the task. */
  predicate Served(ops: seq<Op>, a: Action) {
    || (exists i :: 0 <= i < |ops| && (ops[i].demand == Some(a.taskType) || (ops[i].runnable && Matches(a.taskType, ops[i].kind))))
    || (a.taskType == PLANT_ANY && HasConcrete(ops))
  }

  predicate AllToDo(actions: seq<Action>) { forall i :: 0 <= i < |actions| ==> actions[i].missing >= 1 }

  /** `scopedCyclicNoteOperations`: the operations and the ledger after all actions. */
  function Scoped(w: World, b: Ledger.Book, actions: seq<Action>, ops: seq<Op>, ranks: Ranks): (seq<Op>, Ledger.Book)
    requires AllToDo(actions)
    decreases |actions|
  {
    if actions == [] then (ops, b)
    else if Served(ops, actions[0]) then Scoped(w, b, actions[1..], ops, ranks)
    else
      var imported := Imported(w, b, actions[0], ranks);
      Scoped(w, TaskBook(w, b, actions[0].taskType), actions[1..],
             if imported.Some? then ops + [imported.value] else ops, ranks)
  }

  // ----- every imported operation is bounded and accepted -----

  lemma {:induction false} NotFallbackMembers(ops: seq<Op>)
    ensures forall op :: op in NotFallback(ops) ==> op in ops
  {
    if ops != [] {
      NotFallbackMembers(ops[..|ops| - 1]);
      assert forall op :: op in ops <==> op in ops[..|ops| - 1] || op == ops[|ops| - 1];
    }
  }

  predicate NoDemand(ops: seq<Op>) { forall op :: op in ops ==> op.demand.None? }

  lemma CappedMembers(ids: set<int>, most: int)
    requires most >= 0
    ensures forall i :: 0 <= i < |Capped(Ascending(ids), most)| ==> Capped(Ascending(ids), most)[i] in ids
  {
    forall i | 0 <= i < |Capped(Ascending(ids), most)| ensures Capped(Ascending(ids), most)[i] in ids {
      assert Capped(Ascending(ids), most)[i] == Ascending(ids)[i] && Ascending(ids)[i] in Ascending(ids);
    }
  }

  lemma SplitMembers(ops: seq<Op>, at: nat, op: Op)
    requires at < |ops| && op in NotFallback(ops[..at]) + NotFallback(ops[at + 1..])
    ensures op in ops
  {
    NotFallbackMembers(ops[..at]);
    NotFallbackMembers(ops[at + 1..]);
    assert op in ops[..at] || op in ops[at + 1..];
  }

  /** Planting of at most `missing` lands, all of them lands that fallback operations for its flower name. */
  ghost predicate DrivenFrom(ops: seq<Op>, missing: int, op: Op) {
    && IsPlant(op.kind) && 1 <= |op.lands| <= missing && op.rank.priority >= PLANT_FLOOR
    && exists chosen :: chosen in ops && IsFallback(chosen) && op.flower == chosen.flower
         && forall i :: 0 <= i < |op.lands| ==> op.lands[i] in FallbackLands(ops, chosen.flower)
  }

  /** A driven planting operation names between one and the missing number of lands. */
  lemma DrivenPlantIsBounded(auto: bool, ops: seq<Op>, missing: int, op: Op)
    requires missing >= 1 && NoDemand(ops) && op.demand.Some?
    ensures op in DrivePlant(auto, ops, missing) ==> DrivenFrom(ops, missing, op)
  {
    hide BestIndex, NotFallback, FallbackLands, Ascending, Capped;
    var best := BestIndex(ops, (o: Op) => IsFallback(o));
    if op in DrivePlant(auto, ops, missing) && auto && !HasConcrete(ops) && best.Some? {
      var chosen := ops[best.value];
      var lands := Capped(Ascending(FallbackLands(ops, chosen.flower)), missing);
      if op in NotFallback(ops[..best.value]) + NotFallback(ops[best.value + 1..]) { SplitMembers(ops, best.value, op); }
      CappedMembers(FallbackLands(ops, chosen.flower), missing);
      assert op.lands == lands && op.flower == chosen.flower && chosen in ops;
    }
  }

  lemma {:induction false} FirstUsableIs(t: Farm.Tick, ops: seq<Op>)
    ensures FirstUsable(t, ops).Some? ==> FirstUsable(t, ops).value in ops && Usable(t, FirstUsable(t, ops).value)
  {
    if ops != [] && !Usable(t, ops[0]) { FirstUsableIs(t, ops[1..]); }
  }

  lemma HarvestRpcs(t: Farm.Tick, f: Farm.Op)
    requires f in Farm.HarvestOps(t)
    ensures f.rpc.HarvestLands?
  {
  }

  lemma {:induction false} SliceRpcs(plan: seq<Replant.Assignment>, empty: seq<int>, f: Farm.Op)
    requires Replant.AllPositive(plan) && f in Farm.Slices(plan, empty)
    ensures f.rpc.PlantLand? || f.rpc.PlantBatch?
    decreases |plan|
  {
    if plan != [] && empty != [] {
      Farm.SlicesStep(plan, empty);
      var n := Min(plan[0].count, |empty|);
      if f in Farm.Slices(plan[1..], empty[n..]) { SliceRpcs(plan[1..], empty[n..], f); }
    }
  }

  lemma {:induction false} DiagnosticRpcs(flowers: seq<int>, f: Farm.Op)
    requires f in Farm.Diagnostics(flowers)
    ensures f.rpc.PlantLand?
  {
    if flowers != [] && f in Farm.Diagnostics(flowers[1..]) { DiagnosticRpcs(flowers[1..], f); }
  }

  lemma PlantRpcs(t: Farm.Tick, f: Farm.Op)
    requires f in Farm.PlantOps(t)
    ensures f.rpc.PlantLand? || f.rpc.PlantBatch?
  {
    var empty := Farm.Ready(t, Farm.Plant);
    hide Farm.Ready, Farm.ElvesDriving, Farm.MainNeeded;
    if Farm.ElvesDriving(t) {
      assert f in Farm.ElvesPlantOps(t, empty);
    } else {
      var plan := Farm.PlanOf(t, |empty|);
      if f in Farm.Slices(plan.executable, empty) { SliceRpcs(plan.executable, empty, f); } else { DiagnosticRpcs(plan.blocked, f); }
    }
  }

  predicate DueWithinDrops(t: Farm.Tick, lands: seq<int>) {
    && |lands| <= t.drops - Max(0, t.minDrops)
    && forall i :: 0 <= i < |lands| ==> lands[i] in t.lands && Farm.Recommend(t.lands[lands[i]], t.now, 0) == Farm.Water
  }

  /** The watering operation of a tick names only lands that are still to be watered, no more than the drops allow. */
  lemma FarmWaterIsDue(t: Farm.Tick, f: Farm.Op)
    requires Farm.FarmActive(t) && (f.rpc.WaterLand? || f.rpc.WaterBatch?) && f.lands != []
    ensures f in Farm.FarmOps(t) ==> DueWithinDrops(t, f.lands)
  {
    if f in Farm.FarmOps(t) {
      if f in Farm.HarvestOps(t) { HarvestRpcs(t, f); }
      if f in Farm.PlantOps(t) { PlantRpcs(t, f); }
      var water := Farm.WaterLands(t)[..Farm.WaterCount(t)];
      assert f in Farm.WaterOp(water) && f.lands == water;
      Farm.WateringWithinReserve(t);
      forall i | 0 <= i < |water|
        ensures water[i] in t.lands && Farm.Recommend(t.lands[water[i]], t.now, 0) == Farm.Water
      {
        assert water[i] in water;
        ThirstyAtAnyDelay(t, water[i]);
      }
    }
  }

  lemma ThirstyAtAnyDelay(t: Farm.Tick, id: int)
    requires Farm.Thirsty(t, id)
    ensures id in t.lands && Farm.Recommend(t.lands[id], t.now, 0) == Farm.Water
  {
    var delay := Farm.DelayFor(t, t.lands[id]);
    if delay >= 0 { Farm.RecommendMonotone(t.lands[id], t.now, 0, delay); }
    else { Farm.RecommendMonotone(t.lands[id], t.now, delay, 0); }
  }

  /** What an imported operation must satisfy besides carrying the action's drive and demand. */
  predicate Fits(w: World, a: Action, op: Op) {
    && Matches(a.taskType, op.kind)
    && (if a.taskType == PEARL then 0 <= Units(op) <= 1 else 1 <= Units(op) <= a.missing)
    && (a.taskType == RESIDENT ==> !w.residentLimited)
    && (a.taskType == PLANT_ANY && IsWater(op.kind) ==> WaterStillDue(w.tick, op))
  }

  /** What a farm operation imported for a planting task satisfies, on the scoped tick. */
  predicate FarmFits(t: Farm.Tick, missing: int, op: Op) {
    && (IsPlant(op.kind) || IsWater(op.kind) || op.kind.HarvestLands?)
    && 1 <= |op.lands| <= missing
    && (IsWater(op.kind) ==> DueWithinDrops(t, op.lands))
  }

  lemma CapturedFits(t: Farm.Tick, missing: int, ranks: Farm.Op -> Rank, f: Farm.Op)
    requires missing >= 1 && t.autoPlant
    ensures f in Farm.FarmOps(t) && Usable(t, FromFarm(t, f, ranks)) ==>
              FarmFits(t, missing, Capture(FromFarm(t, f, ranks), missing))
  {
    hide Farm.FarmOps, Farm.Recommend, Awaiting;
    if f in Farm.FarmOps(t) && IsWater(KindOf(f.rpc)) && f.lands != [] { FarmWaterIsDue(t, f); }
  }

  lemma FarmImportFits(t: Farm.Tick, missing: int, ranks: Farm.Op -> Rank, op: Op)
    requires missing >= 1 && t.autoPlant && op.demand == Some(PLANT_ANY)
    ensures op in FarmCandidates(t, missing, ranks) ==> FarmFits(t, missing, op)
  {
    var ops := FromFarmAll(t, Farm.FarmOps(t), ranks);
    assert NoDemand(ops) by { hide Farm.FarmOps; }
    hide Farm.FarmOps, DrivePlant, FirstUsable, FromFarm, Farm.Recommend, Capture, Usable;
    if Awaiting(t, Farm.Water) == {} && Awaiting(t, Farm.Plant) != {} {
      DrivenPlantIsBounded(t.autoPlant, ops, missing, op);
    } else if op in FarmCandidates(t, missing, ranks) {
      FirstUsableIs(t, ops);
      var first := FirstUsable(t, ops).value;
      var i :| 0 <= i < |ops| && ops[i] == first;
      CapturedFits(t, missing, ranks, Farm.FarmOps(t)[i]);
    }
  }

  lemma FarmFitsIsFit(w: World, a: Action, op: Op)
    requires a.taskType == PLANT_ANY && FarmFits(ScopedTick(w.tick), a.missing, op)
    ensures Fits(w, a, op.(drive := Some(a.drive)))
  {
    hide Farm.Recommend;
  }

  lemma RackImportFits(w: World, b: Ledger.Book, a: Action, rank: Rank, op: Op)
    requires a.missing >= 1 && a.taskType == RACK
    requires op in DriveRack(SellOps(w, b, rank), b, a.missing) && op.demand == Some(RACK) && Matches(RACK, op.kind)
    ensures Fits(w, a, op.(drive := Some(a.drive)))
    ensures op.count <= Ledger.Available(b, op.item) && op.count <= RACK_SLOT_CAP
  {
  }

  lemma OtherImportFits(w: World, book: Ledger.Book, a: Action, ranks: Ranks, op: Op)
    requires a.missing >= 1 && a.taskType in [RESIDENT, PEARL, CUSTOMER] && Matches(a.taskType, op.kind)
    ensures op in CandidatesFor(w, book, a, ranks) ==> Fits(w, a, op.(drive := Some(a.drive)))
  {
    hide PearlHire.Plan, Linked, FinishOps, WaterStillDue;
  }

  /** One case per task type: the imported operation fits its task. */
  lemma ImportFits(w: World, b: Ledger.Book, a: Action, ranks: Ranks)
    requires a.missing >= 1 && a in Actions(w.note)
    ensures var imported := Imported(w, b, a, ranks);
            imported.Some? ==>
              && Fits(w, a, imported.value)
              && imported.value.drive == Some(a.drive) && imported.value.demand == Some(a.taskType)
  {
    ActionsAreOpen(w.note, a);
    if Imported(w, b, a, ranks).None? { return; }
    var book := TaskBook(w, b, a.taskType);
    var ops := CandidatesFor(w, book, a, ranks);
    var best := BestIndex(ops, (op: Op) => op.demand == Some(a.taskType) && Matches(a.taskType, op.kind)).value;
    assert ops[best] in ops;
    hide FarmCandidates, DriveRack, FarmFits, TaskBook, BestIndex, SellOps, Fits;
    if a.taskType == PLANT_ANY {
      hide Farm.FarmOps;
      FarmImportFits(ScopedTick(w.tick), a.missing, ranks.farm, ops[best]);
      FarmFitsIsFit(w, a, ops[best]);
    } else if a.taskType == RACK {
      RackImportFits(w, book, a, ranks.orders, ops[best]);
    } else {
      hide CandidatesFor;
      OtherImportFits(w, book, a, ranks, ops[best]);
    }
  }

  lemma {:induction false} FindAction(actions: seq<Action>, a: Action)
    requires a in actions && forall b :: b in actions && b.drive == a.drive ==> b == a
    ensures Find(actions, a.drive) == Some(a)
  {
    if actions[0] != a { FindAction(actions[1..], a); }
  }

  /** An operation that fits its task is accepted by the check at the send boundary, in the same state. */
  lemma FittingIsAccepted(w: World, a: Action, op: Op)
    requires a in Actions(w.note) && op.drive == Some(a.drive) && op.demand == Some(a.taskType) && Fits(w, a, op)
    ensures Accepts(w, op)
  {
    ActionsAreOpen(w.note, a);
    forall b | b in Actions(w.note) && b.drive == a.drive ensures b == a { ActionsAreOpen(w.note, b); }
    FindAction(Actions(w.note), a);
  }

  /** What holds of an operation that was given a drive. */
  ghost predicate Authorised(w: World, op: Op) {
    && Accepts(w, op)
    && exists a :: a in Actions(w.note) && op.drive == Some(a.drive) && op.demand == Some(a.taskType) && Fits(w, a, op)
  }

  /**
   The scoped pass only appends: the operations before it stay as they are, every appended one uses between one
   and the missing number of units of an open task (none or one for pearl hiring), and the repeated check at the
   send boundary accepts it in the same state, for all five task types.
   */
  lemma {:induction false} ScopedIsAuthorised(w: World, b: Ledger.Book, actions: seq<Action>, ops: seq<Op>, ranks: Ranks)
    requires AllToDo(actions) && forall a :: a in actions ==> a in Actions(w.note)
    ensures var out := Scoped(w, b, actions, ops, ranks).0;
            && ops <= out && |out| <= |ops| + |actions|
            && forall i :: |ops| <= i < |out| ==> Authorised(w, out[i])
    decreases |actions|
  {
    hide Served, Imported, TaskBook, Authorised;
    if actions != [] {
      var a, rest := actions[0], actions[1..];
      assert a in actions && forall x :: x in rest ==> x in actions;
      if Served(ops, a) {
        ScopedIsAuthorised(w, b, rest, ops, ranks);
      } else {
        var imported := Imported(w, b, a, ranks);
        var more := if imported.Some? then ops + [imported.value] else ops;
        ScopedIsAuthorised(w, TaskBook(w, b, a.taskType), rest, more, ranks);
        if imported.Some? {
          ImportedIsAuthorised(w, b, a, ranks);
          assert more <= Scoped(w, b, actions, ops, ranks).0 && more[|ops|] == imported.value;
        }
      }
    }
  }

  /** So, in particular, for the actions the tasks call for, after any operations planned before. */
  lemma TaskOperationsAuthorised(w: World, b: Ledger.Book, ops: seq<Op>, ranks: Ranks)
    ensures AllToDo(Actions(w.note))
    ensures var out := Scoped(w, b, Actions(w.note), ops, ranks).0;
            ops <= out && |out| <= |ops| + |TYPES| && forall i :: |ops| <= i < |out| ==> Authorised(w, out[i])
  {
    hide Scoped, Authorised;
    var actions := Actions(w.note);
    forall i | 0 <= i < |actions| ensures actions[i].missing >= 1 { ActionsAreOpen(w.note, actions[i]); }
    ActionsOfLength(w.note, TYPES);
    ScopedIsAuthorised(w, b, actions, ops, ranks);
  }

  lemma ImportedIsAuthorised(w: World, b: Ledger.Book, a: Action, ranks: Ranks)
    requires a.missing >= 1 && a in Actions(w.note)
    ensures Imported(w, b, a, ranks).Some? ==> Authorised(w, Imported(w, b, a, ranks).value)
  {
    hide Imported, Fits, Accepts;
    ImportFits(w, b, a, ranks);
    if Imported(w, b, a, ranks).Some? { FittingIsAccepted(w, a, Imported(w, b, a, ranks).value); }
  }

  /** The pass leaves the ledger sound and every reservation made before it at least as large. */
  lemma {:induction false} ScopedKeepsReservations(w: World, b: Ledger.Book, actions: seq<Action>, ops: seq<Op>, ranks: Ranks,
                                                   id: Ledger.DemandId, item: int)
    requires AllToDo(actions) && Ledger.BookOk(b)
    ensures var after := Scoped(w, b, actions, ops, ranks).1;
            Ledger.BookOk(after) && Ledger.ReservedFor(after, id, item) >= Ledger.ReservedFor(b, id, item)
    decreases |actions|
  {
    hide Served, Imported, Ledger.BookOk, Ledger.ReservedFor;
    if actions != [] {
      var a := actions[0];
      if Served(ops, a) {
        ScopedKeepsReservations(w, b, actions[1..], ops, ranks, id, item);
      } else {
        Ledger.TopUpsKeepReservations(b, w.residentDemands, id, item);
        Ledger.TopUpsKeepReservations(b, w.customerDemands, id, item);
        var imported := Imported(w, b, a, ranks);
        ScopedKeepsReservations(w, TaskBook(w, b, a.taskType), actions[1..],
                                if imported.Some? then ops + [imported.value] else ops, ranks, id, item);
      }
    }
  }

  // ----- the driven lands -----

  lemma {:induction false} LandsOfMember(ops: seq<Farm.Op>, f: Farm.Op, id: int)
    requires f in ops && id in f.lands
    ensures id in Farm.AllLands(ops)
  {
    if ops[0] != f { LandsOfMember(ops[1..], f, id); }
  }

  lemma PlantingIsEmptyLand(t: Farm.Tick, f: Farm.Op, id: int)
    requires f.purpose.Planting? && id in f.lands
    ensures f in Farm.FarmOps(t) ==> Farm.Is(t, id, Farm.Plant)
  {
    hide Farm.PlantOps, Farm.FarmActive, Farm.Ready, Farm.Is, Farm.PlantedCount, Farm.WaterLands, Farm.WaterCount;
    if f in Farm.FarmOps(t) {
      assert f in Farm.PlantOps(t);
      LandsOfMember(Farm.PlantOps(t), f, id);
      Farm.PlantLands(t);
      Farm.WorkApart(t);
    }
  }

  lemma {:induction false} FallbackMember(ops: seq<Op>, flower: int, id: int)
    requires id in FallbackLands(ops, flower)
    ensures exists i :: 0 <= i < |ops| && IsFallback(ops[i]) && id in ops[i].lands
  {
    var front, last := ops[..|ops| - 1], ops[|ops| - 1];
    if id in FallbackLands(front, flower) {
      FallbackMember(front, flower, id);
      var i :| 0 <= i < |front| && IsFallback(front[i]) && id in front[i].lands;
      assert IsFallback(ops[i]) && id in ops[i].lands;
    } else {
      assert IsFallback(ops[|ops| - 1]) && id in ops[|ops| - 1].lands;
    }
  }

  /** Whatever lands a driven planting operation names are empty and ready to be planted. */
  lemma DrivenLandsAreEmpty(t: Farm.Tick, missing: int, ranks: Farm.Op -> Rank, op: Op, k: nat)
    requires missing >= 1 && op.demand == Some(PLANT_ANY) && IsPlant(op.kind) && k < |op.lands|
    ensures op in FarmCandidates(t, missing, ranks) ==> Farm.Is(t, op.lands[k], Farm.Plant)
  {
    var ops := FromFarmAll(t, Farm.FarmOps(t), ranks);
    assert NoDemand(ops) by { hide Farm.FarmOps; }
    hide Farm.FarmOps, DrivePlant, FirstUsable, Farm.Recommend, Farm.Is;
    if op in FarmCandidates(t, missing, ranks) {
      FirstUsableIs(t, ops);
      assert Awaiting(t, Farm.Water) == {} && Awaiting(t, Farm.Plant) != {} by { hide Awaiting; }
      DrivenPlantIsBounded(t.autoPlant, ops, missing, op);
      var chosen :| chosen in ops && IsFallback(chosen) && op.flower == chosen.flower
                    && forall i :: 0 <= i < |op.lands| ==> op.lands[i] in FallbackLands(ops, chosen.flower);
      FallbackMember(ops, chosen.flower, op.lands[k]);
      var i :| 0 <= i < |ops| && IsFallback(ops[i]) && op.lands[k] in ops[i].lands;
      var f := Farm.FarmOps(t)[i];
      assert ops[i] == FromFarm(t, f, ranks) && f in Farm.FarmOps(t);
      PlantingIsEmptyLand(t, f, op.lands[k]);
    }
  }

  // ----- as it runs -----

  method DeterministicOperationIndex(ops: seq<Op>, wanted: Op -> bool) returns (best: Option<nat>)
    ensures best == BestIndex(ops, wanted)
  {
    best := None;
    for i := 0 to |ops|
      invariant best == BestIndex(ops[..i], wanted)
    {
      assert ops[..i + 1][..i] == ops[..i];
      if !wanted(ops[i]) { continue; }
      if best.None? || ComesBefore(ops[i], ops[best.value]) { best := Some(i); }
    }
    assert ops[..|ops|] == ops;
  }

  /** The selection loop of `cyclicNoteTaskActionDemands`, one representative per task type. */
  method TaskActions(n: Note) returns (actions: seq<Action>)
    ensures actions == Actions(n)
  {
    if !n.live || n.batch <= 0 { return []; }
    var byType: map<int, Slot> := map[];
    for i := 0 to |n.tasks|
      invariant forall k: int :: k in byType <==> Chosen(n, n.tasks[..i], k).Some?
      invariant forall k: int :: k in byType ==> byType[k] == Chosen(n, n.tasks[..i], k).value
    {
      assert n.tasks[..i + 1][..i] == n.tasks[..i];
      var t := n.tasks[i];
      if !Open(n, t) { continue; }
      if t.taskType in byType && Keeps(byType[t.taskType], t) { continue; }
      byType := byType[t.taskType := t];
    }
    assert n.tasks[..|n.tasks|] == n.tasks;
    actions := [];
    for i := 0 to |TYPES|
      invariant actions == ActionsOf(n, TYPES[..i])
    {
      assert TYPES[..i + 1][..i] == TYPES[..i];
      if TYPES[i] in byType { actions := actions + [ActionFor(n, byType[TYPES[i]])]; }
    }
    assert TYPES[..|TYPES|] == TYPES;
  }

  /** The land loop of `driveCyclicNotePlant`. */
  method CollectFallbackLands(ops: seq<Op>, flower: int) returns (lands: set<int>)
    ensures lands == FallbackLands(ops, flower)
  {
    lands := {};
    for i := 0 to |ops|
      invariant lands == FallbackLands(ops[..i], flower)
    {
      assert ops[..i + 1][..i] == ops[..i];
      if !IsFallback(ops[i]) || ops[i].flower != flower { continue; }
      lands := lands + set id | id in ops[i].lands && id > 0;
    }
    assert ops[..|ops|] == ops;
  }

  /** The rebuilding loop of `driveCyclicNotePlant`: the driven operation takes the place of the chosen one. */
  method ReplaceFallbacks(ops: seq<Op>, at: nat, driven: Op) returns (out: seq<Op>)
    requires at < |ops| && IsFallback(ops[at])
    ensures out == NotFallback(ops[..at]) + [driven] + NotFallback(ops[at + 1..])
  {
    out := [];
    for i := 0 to |ops|
      invariant i <= at ==> out == NotFallback(ops[..i])
      invariant i > at ==> out == NotFallback(ops[..at]) + [driven] + NotFallback(ops[at + 1..i])
    {
      assert ops[..i + 1][..i] == ops[..i];
      if i > at { assert ops[at + 1..i + 1][..i - at - 1] == ops[at + 1..i]; }
      if !IsFallback(ops[i]) {
        out := out + [ops[i]];
      } else if i == at {
        out := out + [driven];
        assert ops[at + 1..at + 1] == [];
      }
    }
    assert ops[at + 1..|ops|] == ops[at + 1..];
  }

  method DriveOne(chosen: Op, lands: seq<int>) returns (driven: Op)
    ensures driven == Driven(chosen, lands)
  {
    driven := chosen.(lands := lands, demand := Some(PLANT_ANY));
    if |lands| == 1 {
      driven := driven.(kind := PlantLand);
    } else {
      driven := driven.(kind := PlantBatch);
    }
    if driven.rank.priority < PLANT_FLOOR {
      driven := driven.(rank := driven.rank.(priority := PLANT_FLOOR));
    }
  }

  method DriveCyclicNotePlant(auto: bool, ops: seq<Op>, missing: int) returns (out: seq<Op>)
    requires missing >= 1
    ensures out == DrivePlant(auto, ops, missing)
  {
    hide HasConcrete, IsFallback, NotFallback, FallbackLands, BestIndex, Ascending, Driven;
    if !auto || HasConcrete(ops) { return ops; }
    var best := DeterministicOperationIndex(ops, (op: Op) => IsFallback(op));
    if best.None? { return ops; }
    var chosen := ops[best.value];
    var set_ := CollectFallbackLands(ops, chosen.flower);
    var lands := Ascending(set_);
    if |lands| > missing { lands := lands[..missing]; }
    if |lands| == 0 { return ops; }
    var driven := DriveOne(chosen, lands);
    out := ReplaceFallbacks(ops, best.value, driven);
  }

  /** The lands outside `rest` that wait for `kind`. */
  function AwaitingOutside(t: Farm.Tick, kind: Farm.Kind, rest: set<int>): set<int> { Awaiting(t, kind) - rest }

  lemma OneMoreOutside(s: set<int>, rest: set<int>, id: int)
    requires id in rest
    ensures |s - (rest - {id})| == |s - rest| + if id in s then 1 else 0
  {
    assert s - (rest - {id}) == (s - rest) + if id in s then {id} else {};
  }

  lemma AwaitingNext(t: Farm.Tick, kind: Farm.Kind, rest: set<int>, id: int)
    requires id in rest && rest <= t.lands.Keys
    ensures |AwaitingOutside(t, kind, rest - {id})| ==
              |AwaitingOutside(t, kind, rest)| + if Farm.Recommend(t.lands[id], t.now, 0) == kind then 1 else 0
  {
    hide Farm.Recommend;
    assert id in t.lands;
    assert id in Awaiting(t, kind) <==> Farm.Recommend(t.lands[id], t.now, 0) == kind;
    OneMoreOutside(Awaiting(t, kind), rest, id);
  }

  lemma AwaitingEnds(t: Farm.Tick, kind: Farm.Kind)
    ensures |AwaitingOutside(t, kind, t.lands.Keys)| == 0 && |AwaitingOutside(t, kind, {})| == |Awaiting(t, kind)|
  {
    hide Farm.Recommend;
    assert AwaitingOutside(t, kind, t.lands.Keys) == {};
    assert AwaitingOutside(t, kind, {}) == Awaiting(t, kind);
  }

  /** The counting loop of `scopedCyclicNoteFarmOperations`, over the lands in any order. */
  method CountLands(t: Farm.Tick) returns (awaitingWater: nat, empty: nat)
    ensures awaitingWater == |Awaiting(t, Farm.Water)| && empty == |Awaiting(t, Farm.Plant)|
  {
    hide Farm.Recommend, Awaiting, AwaitingOutside;
    awaitingWater, empty := 0, 0;
    var rest := t.lands.Keys;
    AwaitingEnds(t, Farm.Water);
    AwaitingEnds(t, Farm.Plant);
    while rest != {}
      invariant rest <= t.lands.Keys
      invariant awaitingWater == |AwaitingOutside(t, Farm.Water, rest)| && empty == |AwaitingOutside(t, Farm.Plant, rest)|
      decreases rest
    {
      var id := Least(rest);
      AwaitingNext(t, Farm.Water, rest, id);
      AwaitingNext(t, Farm.Plant, rest, id);
      rest := rest - {id};
      match Farm.Recommend(t.lands[id], t.now, 0)
      case Water => awaitingWater := awaitingWater + 1;
      case Plant => empty := empty + 1;
      case _ =>
    }
  }

  /** The last loop of `scopedCyclicNoteFarmOperations`. */
  method TakeFirstUsable(t: Farm.Tick, ops: seq<Op>, awaitingWater: nat, missing: int) returns (out: seq<Op>)
    requires missing >= 1 && awaitingWater == |Awaiting(t, Farm.Water)|
    ensures out == if FirstUsable(t, ops).None? then [] else [Capture(FirstUsable(t, ops).value, missing)]
  {
    hide Awaiting;
    for i := 0 to |ops|
      invariant FirstUsable(t, ops) == FirstUsable(t, ops[i..])
    {
      var op := ops[i];
      var water := IsWater(op.kind);
      assert ops[i..][0] == op && ops[i..][1..] == ops[i + 1..];
      if (awaitingWater > 0 && !water) || (awaitingWater == 0 && !op.kind.HarvestLands?) { continue; }
      if !op.runnable || |op.lands| == 0 { continue; }
      var lands := if |op.lands| > missing then op.lands[..missing] else op.lands;
      op := op.(lands := lands, demand := Some(PLANT_ANY));
      if water && |lands| == 1 { op := op.(kind := WaterLand); }
      return [op];
    }
    return [];
  }

  /** `scopedCyclicNoteFarmOperations` */
  method ScopedFarmOperations(t: Farm.Tick, missing: int, ranks: Farm.Op -> Rank) returns (out: seq<Op>)
    requires missing >= 1
    ensures out == FarmCandidates(t, missing, ranks)
  {
    hide Farm.FarmOps, DrivePlant, FirstUsable, Awaiting, Capture;
    var candidates := new Replant.Candidate[|t.candidates|](i requires 0 <= i < |t.candidates| => t.candidates[i]);
    assert candidates[..] == t.candidates;
    var planned := Farm.PlanFarm(t, candidates);
    var ops := FromFarmAll(t, planned, ranks);
    var awaitingWater, empty := CountLands(t);
    if awaitingWater == 0 && empty > 0 {
      out := DriveCyclicNotePlant(t.autoPlant, ops, missing);
    } else {
      out := TakeFirstUsable(t, ops, awaitingWater, missing);
    }
  }

  /** The order loops of `orderOperations`. */
  method FinishOperations(b: Ledger.Book, orders: Orders, kind: Kind, rank: Rank) returns (ops: seq<Op>)
    ensures ops == FinishOps(b, orders, kind, rank)
  {
    ops := [];
    for i := 0 to |orders|
      invariant ops == FinishOps(b, orders[..i], kind, rank)
    {
      hide Ledger.CanFulfill;
      assert orders[..i + 1][..i] == orders[..i];
      if Ledger.CanFulfill(b, orders[i].key, orders[i].order) {
        ops := ops + [FinishOp(orders[i], kind, rank)];
        continue;
      }
      ops := ops + IncidentalAll(orders[i].others);
    }
    assert orders[..|orders|] == orders;
  }

  /** `bestArtByInventoryCount` */
  method BestArtByCount(b: Ledger.Book, arts: seq<int>) returns (best: Option<int>)
    ensures best == BestArt(b, arts)
  {
    best := None;
    for i := 0 to |arts|
      invariant best == BestArt(b, arts[..i])
    {
      assert arts[..i + 1][..i] == arts[..i];
      var have := Ledger.Available(b, arts[i]);
      if have <= 0 { continue; }
      if best.None? || have > Ledger.Available(b, best.value) || (have == Ledger.Available(b, best.value) && arts[i] < best.value) {
        best := Some(arts[i]);
      }
    }
    assert arts[..|arts|] == arts;
  }

  /** `bestRackArtByCount` */
  method BestRackArtByCount(w: World, b: Ledger.Book) returns (art: Option<int>)
    ensures art == RackArt(w, b)
  {
    hide BestArt;
    if w.preferred.Some? {
      art := BestArtByCount(b, w.preferred.value);
      if art.Some? { return; }
    }
    art := BestArtByCount(b, w.arts);
  }

  /** The rack planner: its claims and crafts, and the sale it offers. */
  method SellOperations(w: World, b: Ledger.Book, rank: Rank) returns (ops: seq<Op>)
    ensures ops == SellOps(w, b, rank)
  {
    hide RackArt;
    var art := BestRackArtByCount(w, b);
    ops := IncidentalAll(w.rackOthers);
    assert ops + [] == ops;
    if w.listing && |w.emptyRacks| > 0 && art.Some? {
      ops := ops + [Op(RackSell, rank, [], 0, Min(RACK_SLOT_CAP, Ledger.Available(b, art.value)), w.emptyRacks[0], art.value,
                       true, false, false, None, None)];
    }
  }

  /** `driveCyclicNoteFlowerRack` */
  method DriveFlowerRack(ops: seq<Op>, b: Ledger.Book, missing: int) returns (out: seq<Op>)
    ensures out == DriveRack(ops, b, missing)
  {
    hide BestIndex;
    var best := DeterministicOperationIndex(ops, (op: Op) => op.runnable && op.kind.RackSell? && op.target > 0 && op.item > 0 && op.count > 0);
    if best.None? { return ops; }
    var op := ops[best.value];
    var count := op.count;
    if count > missing { count := missing; }
    var available := Ledger.Available(b, op.item);
    if count > available { count := available; }
    if count > RACK_SLOT_CAP { count := RACK_SLOT_CAP; }
    if count <= 0 { return ops; }
    out := ops[best.value := op.(count := count, demand := Some(RACK))];
  }

  /** `linkCyclicNoteBusinessOperation` */
  method LinkOperation(ops: seq<Op>, kind: Kind, taskType: int) returns (out: seq<Op>)
    ensures out == Linked(ops, kind, taskType)
  {
    var best := DeterministicOperationIndex(ops, (op: Op) => op.runnable && op.kind == kind);
    if best.None? { return ops; }
    out := ops[best.value := ops[best.value].(demand := Some(taskType))];
  }

  /** The candidates of one task, from the business planner of its type. */
  method TaskCandidates(w: World, book: Ledger.Book, a: Action, ranks: Ranks) returns (ops: seq<Op>)
    requires a.missing >= 1
    ensures ops == CandidatesFor(w, book, a, ranks)
  {
    hide FarmCandidates, SellOps, DriveRack, FinishOps, Linked, PearlHire.Plan, ScopedTick;
    if a.taskType == PLANT_ANY {
      ops := ScopedFarmOperations(ScopedTick(w.tick), a.missing, ranks.farm);
    } else if a.taskType == PEARL {
      ops := PearlOperations(w, ranks.pearl);
    } else if a.taskType == RACK {
      ops := SellOperations(w, book, ranks.orders);
      ops := DriveFlowerRack(ops, book, a.missing);
    } else if a.taskType == RESIDENT {
      if w.residentLimited { return []; }
      ops := FinishOperations(book, w.residents, ResidentFinish, ranks.orders);
      ops := LinkOperation(ops, ResidentFinish, RESIDENT);
    } else {
      ops := FinishOperations(book, w.customers, CustomerFinish, ranks.orders);
      ops := LinkOperation(ops, CustomerFinish, CUSTOMER);
    }
  }

  method PearlOperations(w: World, rank: Rank) returns (ops: seq<Op>)
    ensures ops == PearlCandidates(w, rank)
  {
    hide PearlHire.Plan;
    var step := PearlHire.PlanOneSafePearlHire(w.pearlView, w.pearlConfig, ScopedPearl(w.pearlPolicy), w.tick.now);
    match step
    case Off => ops := [];
    case Blocked(_) => ops := [Op(PearlBlocked, rank, [], 0, 0, 0, 0, false, false, false, Some(PEARL), None)];
    case Hire(place, uid) => ops := [Op(PearlPlaceHire, rank, [], 0, 1, place, 0, true, false, false, Some(PEARL), None)];
    case _ => ops := [Op(PearlSync, rank, [], 0, 0, 0, 0, true, false, false, Some(PEARL), None)];
  }

  /** `scopedCyclicNoteOperations`: the list grows and the shared ledger is topped up, action by action. */
  method ScopedOperations(w: World, ledger: Ledger.InventoryLedger, actions: seq<Action>, before: seq<Op>, ranks: Ranks)
    returns (ops: seq<Op>)
    requires AllToDo(actions)
    modifies ledger
    ensures (ops, ledger.View()) == Scoped(w, old(ledger.View()), actions, before, ranks)
  {
    ops := before;
    ghost var b := ledger.View();
    assert actions[0..] == actions;
    hide Served, CandidatesFor, BestIndex;
    for i := 0 to |actions|
      invariant AllToDo(actions[i..])
      invariant Scoped(w, ledger.View(), actions[i..], ops, ranks) == Scoped(w, b, actions, before, ranks)
    {
      var a := actions[i];
      assert actions[i..][0] == a && actions[i..][1..] == actions[i + 1..];
      if Served(ops, a) { continue; }
      ghost var now := ledger.View();
      if a.taskType == RESIDENT {
        ledger.TopUpScoped(w.residentDemands);
      } else if a.taskType == CUSTOMER {
        ledger.TopUpScoped(w.customerDemands);
      }
      assert ledger.View() == TaskBook(w, now, a.taskType);
      var candidates := TaskCandidates(w, ledger.View(), a, ranks);
      var best := DeterministicOperationIndex(candidates, (op: Op) => op.demand == Some(a.taskType) && Matches(a.taskType, op.kind));
      if best.None? { continue; }
      ops := ops + [candidates[best.value].(drive := Some(a.drive))];
    }
  }
}
