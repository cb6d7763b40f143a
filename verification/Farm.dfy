/**
 Farm planning: what each land is ready for, and how one tick's farm operations share the lands out. Times are
 milliseconds; the land table, the water drops and the policy switches are one consistent snapshot.
 */
module Farm {
  import opened Common
  import Replant

  datatype Land = Land(observed: bool, flower: int, state: int, nextTime: int, plantTime: int, elves: int, harvestCnt: int)

  datatype Kind = Harvest | Plant | Water | Wait | Unknown

  const HARVEST_GRACE := 5000

  /** `harvestReadyAt`: when auto-harvest may run, if there is such a moment. */
  function ReadyAt(land: Land, harvestDelay: int): Option<int> {
    var delay := Max(0, harvestDelay);
    if land.state == 3 then
      if delay <= 0 || land.plantTime <= 0 then None else Some(land.plantTime + delay)
    else if land.state == 2 then
      if land.nextTime <= 0 then None else Some(land.nextTime + Max(HARVEST_GRACE, delay))
    else None
  }

  /** `Recommend`, without its explanation. */
  function Recommend(land: Land, now: int, harvestDelay: int): Kind {
    if !land.observed then Unknown
    else if land.flower == 0 then Plant
    else if land.state == 3 then
      var ready := ReadyAt(land, harvestDelay);
      if ready.Some? && now < ready.value then Wait else Harvest
    else if land.state == 2 then
      if land.nextTime > 0 then if now < ReadyAt(land, harvestDelay).value then Wait else Harvest
      else Wait
    else if land.state == 1 then Water
    else Wait
  }

  /** A longer delay changes a recommendation only from harvesting to waiting. */
  lemma RecommendMonotone(land: Land, now: int, short: int, long: int)
    requires short <= long
    ensures Recommend(land, now, long) == Recommend(land, now, short)
            || (Recommend(land, now, short) == Harvest && Recommend(land, now, long) == Wait)
  {
  }

  /** And time only the other way: what may be harvested now may be harvested later. */
  lemma RecommendRipens(land: Land, now: int, later: int, delay: int)
    requires now <= later
    ensures Recommend(land, later, delay) == Recommend(land, now, delay)
            || (Recommend(land, now, delay) == Wait && Recommend(land, later, delay) == Harvest)
  {
  }

  /**
   Exactly when a land is ripe: a first bloom once its delay has run from the known planting moment, a regrown
   flower once both its delay and the protocol grace have run from the announced moment.
   */
  lemma RipeExactly(land: Land, now: int, delay: int)
    ensures Recommend(land, now, delay) == Harvest <==>
              && land.observed && land.flower != 0
              && ((land.state == 3 && (delay <= 0 || land.plantTime <= 0 || land.plantTime + delay <= now))
                  || (land.state == 2 && land.nextTime > 0 && land.nextTime + HARVEST_GRACE <= now && land.nextTime + delay <= now))
  {
  }

  // ----- one tick -----

  /** The elves-plant switches; `mainLands` is the configured number, not positive for the default. */
  datatype Elves = Elves(enabled: bool, mainFlower: int, secondFlower: int, mainLands: int, delay: int, nightHarvest: bool)

  datatype Tick = Tick(lands: map<int, Land>, now: int, drops: int, minDrops: int,
                       autoPlant: bool, autoHarvest: bool, harvestDelay: int, elves: Elves, aidPending: bool,
                       raceHeld: bool, raceTaskFlower: int,
                       demands: seq<Replant.Demand>, candidates: seq<Replant.Candidate>,
                       plantable: set<int>, demandPlanting: bool, mode: Replant.Mode)

  datatype Rpc = HarvestLands | PlantLand | PlantBatch | WaterLand | WaterBatch

  datatype Purpose = Night | Secondary | General | Planting | Watering | BlockedPlanting

  datatype Op = Op(rpc: Rpc, purpose: Purpose, lands: seq<int>, flower: int)

  function FlowerOn(t: Tick, id: int): int { if id in t.lands then t.lands[id].flower else 0 }

  predicate ElvesActive(e: Elves) { e.enabled && e.mainFlower > 0 && e.secondFlower > 0 }

  predicate HasRacePlant(demands: seq<Replant.Demand>) {
    exists i :: 0 <= i < |demands| && demands[i].isRace && demands[i].isFlower && demands[i].missing > 0
  }

  predicate RaceDriven(t: Tick) { t.raceHeld || HasRacePlant(t.demands) }

  predicate ElvesDriving(t: Tick) { ElvesActive(t.elves) && !RaceDriven(t) }

  function FirstRaceFlower(demands: seq<Replant.Demand>): int {
    if demands == [] then 0
    else if demands[0].isRace && demands[0].item > 0 then demands[0].item
    else FirstRaceFlower(demands[1..])
  }

  /** `racePlantHarvestFlowerID`: the flower of the first race demand, or of the held task, or zero. */
  function RaceFlower(t: Tick): int {
    var wanted := FirstRaceFlower(t.demands);
    if wanted != 0 then wanted else Max(0, t.raceTaskFlower)
  }

  predicate FirstBloom(land: Land) { land.state == 3 && land.harvestCnt == 0 && land.elves == 0 }

  function DelayFor(t: Tick, land: Land): int {
    if ElvesDriving(t) && land.flower == t.elves.secondFlower then
      if t.elves.delay <= 0 || FirstBloom(land) then 0 else t.elves.delay
    else if RaceFlower(t) > 0 && land.flower == RaceFlower(t) then 0
    else t.harvestDelay
  }

  function KindOf(t: Tick, id: int): Kind
    requires id in t.lands
  {
    Recommend(t.lands[id], t.now, DelayFor(t, t.lands[id]))
  }

  predicate Is(t: Tick, id: int, kind: Kind) { id in t.lands && KindOf(t, id) == kind }

  /** The hour of the day in the game's time zone, eight hours ahead of UTC. */
  function GameHour(now: int): int { (now / 3600000 + 8) % 24 }

  predicate NightRipe(t: Tick, id: int) {
    && t.elves.nightHarvest && GameHour(t.now) >= 22
    && id in t.lands && t.lands[id].elves != 0 && Recommend(t.lands[id], t.now, 0) == Harvest
  }

  // ----- filters over id lists -----

  function Select(ids: seq<int>, p: int -> bool): (r: seq<int>)
    ensures |r| <= |ids|
  {
    if ids == [] then []
    else Select(ids[..|ids| - 1], p) + if p(ids[|ids| - 1]) then [ids[|ids| - 1]] else []
  }

  lemma SelectNothing(p: int -> bool)
    ensures Select([], p) == []
  {
  }

  lemma SelectNext(ids: seq<int>, i: nat, p: int -> bool)
    requires i < |ids|
    ensures Select(ids[..i + 1], p) == Select(ids[..i], p) + if p(ids[i]) then [ids[i]] else []
  {
    assert ids[..i + 1][..i] == ids[..i];
  }

  lemma {:induction false} SelectMembers(ids: seq<int>, p: int -> bool)
    ensures forall id :: id in Select(ids, p) <==> id in ids && p(id)
  {
    if ids != [] {
      var front, last := ids[..|ids| - 1], ids[|ids| - 1];
      SelectMembers(front, p);
      assert forall id :: id in ids <==> id in front || id == last;
    }
  }

  lemma {:induction false} SelectDistinct(ids: seq<int>, p: int -> bool)
    requires Distinct(ids)
    ensures Distinct(Select(ids, p))
  {
    if ids != [] {
      var front, last := ids[..|ids| - 1], ids[|ids| - 1];
      SelectDistinct(front, p);
      SelectMembers(front, p);
      assert last !in front;
      var r := Select(front, p);
      forall i | 0 <= i < |r| ensures r[i] != last { assert r[i] in r; }
    }
  }

  function Ids(t: Tick): seq<int> { Ascending(t.lands.Keys) }

  lemma IdsDistinct(t: Tick)
    ensures Distinct(Ids(t)) && forall id :: id in Ids(t) <==> id in t.lands
  {
    var ids := Ids(t);
    assert forall i, j :: 0 <= i < j < |ids| ==> ids[i] < ids[j];
  }

  lemma IdAt(t: Tick, i: nat)
    requires i < |Ids(t)|
    ensures Ids(t)[i] in t.lands
  {
    assert Ids(t)[i] in Ids(t);
  }

  // ----- the lands of each operation -----

  function NightLands(t: Tick): seq<int> { Select(Ids(t), id => NightRipe(t, id)) }

  function Ready(t: Tick, kind: Kind): seq<int> { Select(Ids(t), id => Is(t, id, kind)) }

  predicate ByDay(t: Tick, id: int) { Is(t, id, Harvest) && !NightRipe(t, id) }

  predicate SecondaryRipe(t: Tick, id: int) { ElvesDriving(t) && ByDay(t, id) && FlowerOn(t, id) == t.elves.secondFlower }

  predicate GeneralRipe(t: Tick, id: int) {
    && ByDay(t, id) && (t.autoHarvest || RaceDriven(t))
    && (ElvesDriving(t) ==> FlowerOn(t, id) != t.elves.secondFlower && FlowerOn(t, id) != t.elves.mainFlower)
    && (RaceDriven(t) && !t.autoHarvest && RaceFlower(t) > 0 ==> FlowerOn(t, id) == RaceFlower(t))
  }

  function SecondaryLands(t: Tick): seq<int> { Select(Ids(t), id => SecondaryRipe(t, id)) }

  function GeneralLands(t: Tick): seq<int> { Select(Ids(t), id => GeneralRipe(t, id)) }

  predicate Thirsty(t: Tick, id: int) {
    && Is(t, id, Water)
    && (ElvesDriving(t) ==> FlowerOn(t, id) != t.elves.mainFlower && (t.aidPending ==> FlowerOn(t, id) != t.elves.secondFlower))
    && (t.raceHeld && RaceFlower(t) > 0 && !t.autoPlant ==> FlowerOn(t, id) == RaceFlower(t))
  }

  /** All lands to be watered; while a race task is held its flower comes first. */
  function WaterLands(t: Tick): seq<int> {
    if t.raceHeld && RaceFlower(t) > 0 then
      Select(Ids(t), id => Thirsty(t, id) && FlowerOn(t, id) == RaceFlower(t))
      + Select(Ids(t), id => Thirsty(t, id) && FlowerOn(t, id) != RaceFlower(t))
    else Select(Ids(t), id => Thirsty(t, id))
  }

  function WaterCount(t: Tick): (n: nat)
    ensures n <= |WaterLands(t)|
  {
    Max(0, Min(|WaterLands(t)|, t.drops - Max(0, t.minDrops)))
  }

  // ----- the operations -----

  function HarvestOp(purpose: Purpose, lands: seq<int>): seq<Op> {
    if lands == [] then [] else [Op(HarvestLands, purpose, lands, 0)]
  }

  function PlantOp(lands: seq<int>, flower: int): seq<Op> {
    if lands == [] then [] else [Op(if |lands| > 1 then PlantBatch else PlantLand, Planting, lands, flower)]
  }

  function WaterOp(lands: seq<int>): seq<Op> {
    if lands == [] then [] else [Op(if |lands| > 1 then WaterBatch else WaterLand, Watering, lands, 0)]
  }

  function MainWanted(e: Elves, lands: nat): int {
    var n := if e.mainLands <= 0 then 4 else e.mainLands;
    if lands > 0 && n >= lands then lands - 1 else n
  }

  /** How many of the empty lands the elves planting gives to the main flower. */
  function MainNeeded(t: Tick, empty: nat): (n: nat)
    ensures n <= empty
  {
    var have := |Select(Ids(t), id => FlowerOn(t, id) == t.elves.mainFlower)|;
    Min(empty, Max(0, MainWanted(t.elves, |t.lands|) - have))
  }

  function ElvesPlantOps(t: Tick, empty: seq<int>): seq<Op> {
    var n := MainNeeded(t, |empty|);
    PlantOp(empty[..n], t.elves.mainFlower) + PlantOp(empty[n..], t.elves.secondFlower)
  }

  function Slices(plan: seq<Replant.Assignment>, empty: seq<int>): seq<Op>
    requires Replant.AllPositive(plan)
    decreases |plan|
  {
    if plan == [] || empty == [] then []
    else
      var n := Min(plan[0].count, |empty|);
      PlantOp(empty[..n], plan[0].flower) + Slices(plan[1..], empty[n..])
  }

  function Diagnostics(flowers: seq<int>): seq<Op> {
    if flowers == [] then []
    else [Op(PlantLand, BlockedPlanting, [], flowers[0])] + Diagnostics(flowers[1..])
  }

  function FlowersOn(t: Tick, ids: seq<int>): seq<int> {
    if ids == [] then [] else FlowersOn(t, ids[..|ids| - 1]) + [FlowerOn(t, ids[|ids| - 1])]
  }

  function GardenOf(t: Tick): Replant.Garden {
    Replant.Garden(t.plantable, t.demandPlanting, t.mode, !t.autoPlant, FlowersOn(t, Ids(t)))
  }

  function PlanOf(t: Tick, empty: nat): (plan: Replant.Plan)
    ensures Replant.AllPositive(plan.executable) && 0 <= Replant.Total(plan.executable) <= empty
  {
    Replant.PlanFillsExactly(GardenOf(t), t.candidates, t.demands, empty);
    Replant.PlanFor(GardenOf(t), t.candidates, t.demands, empty)
  }

  function PlantOps(t: Tick): seq<Op> {
    var empty := Ready(t, Plant);
    if empty == [] then []
    else if ElvesDriving(t) then if t.aidPending then [] else ElvesPlantOps(t, empty)
    else
      var plan := PlanOf(t, |empty|);
      Slices(plan.executable, empty) + Diagnostics(plan.blocked)
  }

  predicate FarmActive(t: Tick) { t.autoPlant || RaceDriven(t) || ElvesDriving(t) }

  function HarvestOps(t: Tick): seq<Op> {
    HarvestOp(Night, NightLands(t)) + HarvestOp(Secondary, SecondaryLands(t)) + HarvestOp(General, GeneralLands(t))
  }

  /** `farmOps` */
  function FarmOps(t: Tick): seq<Op> {
    HarvestOps(t) + if FarmActive(t) then PlantOps(t) + WaterOp(WaterLands(t)[..WaterCount(t)]) else []
  }

  // ----- no land twice -----

  /** The lands of all operations, one operation after the other. */
  function AllLands(ops: seq<Op>): seq<int> { if ops == [] then [] else ops[0].lands + AllLands(ops[1..]) }

  lemma {:induction false} AllLandsConcat(one: seq<Op>, two: seq<Op>)
    ensures AllLands(one + two) == AllLands(one) + AllLands(two)
  {
    if one == [] {
      assert one + two == two;
    } else {
      assert (one + two)[1..] == one[1..] + two;
      AllLandsConcat(one[1..], two);
    }
  }

  lemma AllLandsOne(op: Op)
    ensures AllLands([op]) == op.lands && AllLands([]) == []
  {
    assert [op][1..] == [];
  }

  lemma DistinctConcat(one: seq<int>, two: seq<int>)
    requires Distinct(one) && Distinct(two) && forall id :: id in one ==> id !in two
    ensures Distinct(one + two)
  {
    var all := one + two;
    forall i, j | 0 <= i < j < |all| ensures all[i] != all[j] {
      if i < |one| <= j { assert one[i] in one && two[j - |one|] in two; }
    }
  }

  lemma SlicesStep(plan: seq<Replant.Assignment>, empty: seq<int>)
    requires Replant.AllPositive(plan) && plan != [] && empty != []
    ensures var n := Min(plan[0].count, |empty|);
            Slices(plan, empty)
            == [Op(if n > 1 then PlantBatch else PlantLand, Planting, empty[..n], plan[0].flower)] + Slices(plan[1..], empty[n..])
  {
  }

  lemma SlicesEnd(plan: seq<Replant.Assignment>, empty: seq<int>)
    requires Replant.AllPositive(plan)
    ensures plan == [] || empty == [] ==> Slices(plan, empty) == []
  {
  }

  lemma TotalStep(plan: seq<Replant.Assignment>)
    requires plan != []
    ensures Replant.Total(plan) == plan[0].count + Replant.Total(plan[1..])
  {
  }

  lemma {:induction false} SliceLands(plan: seq<Replant.Assignment>, empty: seq<int>)
    requires Replant.AllPositive(plan)
    ensures Replant.Total(plan) >= 0
    ensures AllLands(Slices(plan, empty)) == empty[..Min(|empty|, Replant.Total(plan))]
    decreases |plan|
  {
    SlicesEnd(plan, empty);
    if plan != [] {
      TotalStep(plan);
      var n := Min(plan[0].count, |empty|);
      SliceLands(plan[1..], empty[n..]);
      if empty != [] {
        SlicesStep(plan, empty);
        var op := Op(if n > 1 then PlantBatch else PlantLand, Planting, empty[..n], plan[0].flower);
        AllLandsOne(op);
        AllLandsConcat([op], Slices(plan[1..], empty[n..]));
        hide Slices, AllLands;
        var m := Min(|empty|, Replant.Total(plan));
        assert empty[..m] == empty[..n] + empty[n..][..m - n];
      }
    }
  }

  lemma {:induction false} DiagnosticsHaveNoLands(flowers: seq<int>)
    ensures AllLands(Diagnostics(flowers)) == []
  {
    if flowers != [] { DiagnosticsHaveNoLands(flowers[1..]); }
  }

  /** Planting takes the first empty lands, as many as were assigned: all of them in elves mode. */
  function PlantedCount(t: Tick): (n: nat)
    ensures n <= |Ready(t, Plant)|
  {
    var empty := |Ready(t, Plant)|;
    if ElvesDriving(t) then if t.aidPending then 0 else empty
    else Replant.Total(PlanOf(t, empty).executable)
  }

  lemma PlantLands(t: Tick)
    ensures AllLands(PlantOps(t)) == Ready(t, Plant)[..PlantedCount(t)]
  {
    hide Ready, MainNeeded, PlanOf, PlantOp, Slices, Diagnostics, ElvesDriving;
    var empty := Ready(t, Plant);
    if empty != [] {
      if ElvesDriving(t) {
        if !t.aidPending {
          var n := MainNeeded(t, |empty|);
          AllLandsConcat(PlantOp(empty[..n], t.elves.mainFlower), PlantOp(empty[n..], t.elves.secondFlower));
          PlantOpLands(empty[..n], t.elves.mainFlower);
          PlantOpLands(empty[n..], t.elves.secondFlower);
        }
      } else {
        var plan := PlanOf(t, |empty|);
        AllLandsConcat(Slices(plan.executable, empty), Diagnostics(plan.blocked));
        SliceLands(plan.executable, empty);
        DiagnosticsHaveNoLands(plan.blocked);
      }
    }
  }

  lemma PlantOpLands(lands: seq<int>, flower: int)
    ensures AllLands(PlantOp(lands, flower)) == lands
  {
    AllLandsOne(Op(if |lands| > 1 then PlantBatch else PlantLand, Planting, lands, flower));
  }

  lemma WaterOpLands(lands: seq<int>)
    ensures AllLands(WaterOp(lands)) == lands
  {
    AllLandsOne(Op(if |lands| > 1 then WaterBatch else WaterLand, Watering, lands, 0));
  }

  lemma HarvestOpLands(purpose: Purpose, lands: seq<int>)
    ensures AllLands(HarvestOp(purpose, lands)) == lands
  {
    AllLandsOne(Op(HarvestLands, purpose, lands, 0));
  }

  lemma HarvestLandsAre(t: Tick)
    ensures AllLands(HarvestOps(t)) == NightLands(t) + SecondaryLands(t) + GeneralLands(t)
  {
    var night, second, general := HarvestOp(Night, NightLands(t)), HarvestOp(Secondary, SecondaryLands(t)), HarvestOp(General, GeneralLands(t));
    AllLandsConcat(night, second);
    AllLandsConcat(night + second, general);
    HarvestOpLands(Night, NightLands(t));
    HarvestOpLands(Secondary, SecondaryLands(t));
    HarvestOpLands(General, GeneralLands(t));
  }

  /** Which lands each list holds: the conditions exclude one another. */
  lemma ListsAre(t: Tick)
    ensures Distinct(NightLands(t)) && (forall id :: id in NightLands(t) <==> NightRipe(t, id))
    ensures Distinct(SecondaryLands(t)) && (forall id :: id in SecondaryLands(t) <==> SecondaryRipe(t, id))
    ensures Distinct(GeneralLands(t)) && (forall id :: id in GeneralLands(t) <==> GeneralRipe(t, id))
    ensures Distinct(Ready(t, Plant)) && (forall id :: id in Ready(t, Plant) <==> Is(t, id, Plant))
  {
    IdsDistinct(t);
    SelectMembers(Ids(t), id => NightRipe(t, id));
    SelectMembers(Ids(t), id => SecondaryRipe(t, id));
    SelectMembers(Ids(t), id => GeneralRipe(t, id));
    SelectMembers(Ids(t), id => Is(t, id, Plant));
    SelectDistinct(Ids(t), id => NightRipe(t, id));
    SelectDistinct(Ids(t), id => SecondaryRipe(t, id));
    SelectDistinct(Ids(t), id => GeneralRipe(t, id));
    SelectDistinct(Ids(t), id => Is(t, id, Plant));
  }

  lemma WaterListIs(t: Tick)
    ensures Distinct(WaterLands(t)) && forall id :: id in WaterLands(t) <==> Thirsty(t, id)
  {
    IdsDistinct(t);
    if t.raceHeld && RaceFlower(t) > 0 {
      SelectMembers(Ids(t), id => Thirsty(t, id) && FlowerOn(t, id) == RaceFlower(t));
      SelectMembers(Ids(t), id => Thirsty(t, id) && FlowerOn(t, id) != RaceFlower(t));
      SelectDistinct(Ids(t), id => Thirsty(t, id) && FlowerOn(t, id) == RaceFlower(t));
      SelectDistinct(Ids(t), id => Thirsty(t, id) && FlowerOn(t, id) != RaceFlower(t));
      DistinctConcat(Select(Ids(t), id => Thirsty(t, id) && FlowerOn(t, id) == RaceFlower(t)),
                     Select(Ids(t), id => Thirsty(t, id) && FlowerOn(t, id) != RaceFlower(t)));
    } else {
      SelectMembers(Ids(t), id => Thirsty(t, id));
      SelectDistinct(Ids(t), id => Thirsty(t, id));
    }
  }

  /** What is ripe for the night harvest at no delay is neither empty nor thirsty at the delay that applies to it. */
  lemma NightIsNoOther(t: Tick, id: int)
    requires NightRipe(t, id)
    ensures !Is(t, id, Plant) && !Is(t, id, Water)
  {
    var land := t.lands[id];
    var delay := DelayFor(t, land);
    if delay >= 0 { RecommendMonotone(land, t.now, 0, delay); } else { RecommendMonotone(land, t.now, delay, 0); }
  }

  lemma PrefixDistinct(ids: seq<int>, n: nat)
    requires Distinct(ids) && n <= |ids|
    ensures Distinct(ids[..n]) && forall id :: id in ids[..n] ==> id in ids
  {
  }

  /**
   No two operations of a tick share a land, and none names one twice: not across night harvest, secondary harvest,
   general harvest, planting and watering, nor among the planting batches.
   */
  lemma LandsArePartitioned(t: Tick)
    ensures Distinct(AllLands(FarmOps(t)))
  {
    HarvestsApart(t);
    var harvest := AllLands(HarvestOps(t));
    if !FarmActive(t) {
      assert FarmOps(t) == HarvestOps(t);
    } else {
      var plant, water := Ready(t, Plant)[..PlantedCount(t)], WaterLands(t)[..WaterCount(t)];
      ActiveLands(t);
      WorkApart(t);
      forall id | id in plant + water ensures id !in harvest { WorkIsNoHarvest(t, id); }
      hide *;
      DistinctConcat(harvest, plant + water);
    }
  }

  lemma HarvestsApart(t: Tick)
    ensures Distinct(AllLands(HarvestOps(t)))
    ensures forall id :: id in AllLands(HarvestOps(t)) <==> NightRipe(t, id) || SecondaryRipe(t, id) || GeneralRipe(t, id)
  {
    ListsAre(t);
    HarvestLandsAre(t);
    DistinctConcat(NightLands(t), SecondaryLands(t));
    DistinctConcat(NightLands(t) + SecondaryLands(t), GeneralLands(t));
  }

  lemma ActiveLands(t: Tick)
    requires FarmActive(t)
    ensures AllLands(FarmOps(t))
            == AllLands(HarvestOps(t)) + (Ready(t, Plant)[..PlantedCount(t)] + WaterLands(t)[..WaterCount(t)])
  {
    hide PlantOps, HarvestOps, WaterOp, Ready, PlantedCount, WaterLands, WaterCount;
    var water := WaterOp(WaterLands(t)[..WaterCount(t)]);
    PlantLands(t);
    WaterOpLands(WaterLands(t)[..WaterCount(t)]);
    AllLandsConcat(PlantOps(t), water);
    AllLandsConcat(HarvestOps(t), PlantOps(t) + water);
  }

  lemma WorkApart(t: Tick)
    ensures Distinct(Ready(t, Plant)[..PlantedCount(t)] + WaterLands(t)[..WaterCount(t)])
    ensures forall id :: id in Ready(t, Plant)[..PlantedCount(t)] ==> Is(t, id, Plant)
    ensures forall id :: id in WaterLands(t)[..WaterCount(t)] ==> Thirsty(t, id)
  {
    ListsAre(t);
    WaterListIs(t);
    hide PlantedCount, WaterCount, Ready, WaterLands, Is;
    PrefixDistinct(Ready(t, Plant), PlantedCount(t));
    PrefixDistinct(WaterLands(t), WaterCount(t));
    forall id | Thirsty(t, id) ensures !Is(t, id, Plant) { ThirstyIsNotEmpty(t, id); }
    DistinctConcat(Ready(t, Plant)[..PlantedCount(t)], WaterLands(t)[..WaterCount(t)]);
  }

  lemma ThirstyIsNotEmpty(t: Tick, id: int)
    requires Thirsty(t, id)
    ensures !Is(t, id, Plant) && Is(t, id, Water)
  {
  }

  lemma WorkIsNoHarvest(t: Tick, id: int)
    requires id in Ready(t, Plant)[..PlantedCount(t)] + WaterLands(t)[..WaterCount(t)]
    ensures id !in AllLands(HarvestOps(t))
  {
    HarvestsApart(t);
    WorkApart(t);
    if NightRipe(t, id) { NightIsNoOther(t, id); }
  }

  // ----- what is done to which land -----

  /** Exactly the ripe lands are harvested: by night those with an elf, else by the switches and flower filters. */
  lemma HarvestedExactly(t: Tick, id: int)
    ensures id in AllLands(HarvestOps(t)) <==> NightRipe(t, id) || SecondaryRipe(t, id) || GeneralRipe(t, id)
    ensures id in AllLands(HarvestOps(t)) ==> id in t.lands && Recommend(t.lands[id], t.now, 0) == Harvest
  {
    HarvestsApart(t);
    hide HarvestOps, AllLands, Ids;
    if id in t.lands {
      var delay := DelayFor(t, t.lands[id]);
      if delay >= 0 { RecommendMonotone(t.lands[id], t.now, 0, delay); }
      else { RecommendMonotone(t.lands[id], t.now, delay, 0); }
    }
  }

  /**
   Watering leaves the reserve alone and uses every drop it may: as many thirsty lands as there are, or as drops
   above the reserve, and while a race task is held no other flower before the last thirsty land of the race flower.
   */
  lemma WateringWithinReserve(t: Tick)
    requires FarmActive(t)
    ensures var water := WaterLands(t)[..WaterCount(t)];
            && AllLands(WaterOp(water)) == water
            && |water| == Max(0, Min(|WaterLands(t)|, t.drops - Max(0, t.minDrops)))
            && (|water| > 0 ==> |water| <= t.drops - Max(0, t.minDrops))
            && (forall id :: id in water ==> Thirsty(t, id))
            && (t.raceHeld && RaceFlower(t) > 0 && (exists id :: id in water && FlowerOn(t, id) != RaceFlower(t)) ==>
                  forall id :: Thirsty(t, id) && FlowerOn(t, id) == RaceFlower(t) ==> id in water)
  {
    WorkApart(t);
    WaterOpLands(WaterLands(t)[..WaterCount(t)]);
    if t.raceHeld && RaceFlower(t) > 0 {
      IdsDistinct(t);
      var first := Select(Ids(t), id => Thirsty(t, id) && FlowerOn(t, id) == RaceFlower(t));
      SelectMembers(Ids(t), id => Thirsty(t, id) && FlowerOn(t, id) == RaceFlower(t));
      RaceLandsFirst(t, first);
    }
  }

  lemma TakesFirstFirst(first: seq<int>, rest: seq<int>, n: nat, id: int)
    requires n <= |first + rest| && id in (first + rest)[..n] && id !in first
    ensures first <= (first + rest)[..n]
  {
    var i :| 0 <= i < n && (first + rest)[i] == id;
    assert forall j :: 0 <= j < |first| ==> first[j] in first && (first + rest)[j] == first[j];
    assert i >= |first|;
  }

  lemma RaceLandsFirst(t: Tick, first: seq<int>)
    requires t.raceHeld && RaceFlower(t) > 0
    requires first == Select(Ids(t), id => Thirsty(t, id) && FlowerOn(t, id) == RaceFlower(t))
    requires forall id :: id in first <==> Thirsty(t, id) && FlowerOn(t, id) == RaceFlower(t)
    ensures var water := WaterLands(t)[..WaterCount(t)];
            (exists id :: id in water && FlowerOn(t, id) != RaceFlower(t)) ==>
              forall id :: Thirsty(t, id) && FlowerOn(t, id) == RaceFlower(t) ==> id in water
  {
    var rest := Select(Ids(t), id => Thirsty(t, id) && FlowerOn(t, id) != RaceFlower(t));
    var n := WaterCount(t);
    assert WaterLands(t) == first + rest;
    hide *;
    if id :| id in (first + rest)[..n] && FlowerOn(t, id) != RaceFlower(t) {
      TakesFirstFirst(first, rest, n, id);
      forall other | other in first ensures other in (first + rest)[..n] {
        var j :| 0 <= j < |first| && first[j] == other;
        assert (first + rest)[..n][j] == other;
      }
    }
  }

  /** In elves mode every empty land is planted, the main flower up to its wanted number and never beyond it. */
  lemma ElvesFillAllLands(t: Tick)
    requires ElvesDriving(t) && !t.aidPending
    ensures var empty := Ready(t, Plant);
            var have := |Select(Ids(t), id => FlowerOn(t, id) == t.elves.mainFlower)|;
            var n := MainNeeded(t, |empty|);
            && AllLands(PlantOps(t)) == empty
            && (forall op :: op in PlantOps(t) ==>
                  (op.flower == t.elves.mainFlower && op.lands == empty[..n]) || (op.flower == t.elves.secondFlower && op.lands == empty[n..]))
            && (n > 0 ==> have + n <= MainWanted(t.elves, |t.lands|))
            && (n < |empty| ==> have + n >= MainWanted(t.elves, |t.lands|))
  {
    PlantLands(t);
    assert Ready(t, Plant)[..|Ready(t, Plant)|] == Ready(t, Plant);
  }

  // ----- as it runs -----

  lemma SelectStep(ids: seq<int>, last: int, p: int -> bool)
    ensures Select(ids + [last], p) == Select(ids, p) + if p(last) then [last] else []
  {
    assert (ids + [last])[..|ids|] == ids;
  }

  /** Filtering a selection again: only the combined condition matters. */
  lemma {:induction false} Refine(ids: seq<int>, p: int -> bool, q: int -> bool, both: int -> bool)
    requires forall id: int :: both(id) == (p(id) && q(id))
    ensures Select(Select(ids, p), q) == Select(ids, both)
  {
    if ids != [] {
      var front, last := ids[..|ids| - 1], ids[|ids| - 1];
      assert ids == front + [last] && both(last) == (p(last) && q(last));
      Refine(front, p, q, both);
      SelectStep(front, last, p);
      SelectStep(front, last, both);
      if p(last) {
        SelectStep(Select(front, p), last, q);
        assert Select(ids, p) == Select(front, p) + [last];
      } else {
        assert Select(ids, p) == Select(front, p) && Select(ids, both) == Select(front, both);
      }
    }
  }

  lemma {:induction false} SelectAgree(ids: seq<int>, p: int -> bool, q: int -> bool)
    requires forall id: int :: p(id) == q(id)
    ensures Select(ids, p) == Select(ids, q)
  {
    if ids != [] {
      var last := ids[|ids| - 1];
      assert p(last) == q(last);
      SelectAgree(ids[..|ids| - 1], p, q);
    }
  }

  /** `filterOutLandIDs` */
  method FilterOutLands(ids: seq<int>, drop: seq<int>) returns (out: seq<int>)
    ensures out == Select(ids, id => id !in drop)
  {
    out := [];
    for i := 0 to |ids|
      invariant out == Select(ids[..i], id => id !in drop)
    {
      assert ids[..i + 1][..i] == ids[..i];
      if ids[i] in drop { continue; }
      out := out + [ids[i]];
    }
    assert ids[..|ids|] == ids;
  }

  /** `filterOnlyFlowerLandIDs` and `filterLandIDsByFlower` (`keep`), and `filterOutFlowerLandIDs`. */
  method FilterByFlower(t: Tick, ids: seq<int>, flower: int, keep: bool) returns (out: seq<int>)
    ensures out == Select(ids, id => (FlowerOn(t, id) == flower) == keep)
  {
    out := [];
    for i := 0 to |ids|
      invariant out == Select(ids[..i], id => (FlowerOn(t, id) == flower) == keep)
    {
      assert ids[..i + 1][..i] == ids[..i];
      if (FlowerOn(t, ids[i]) == flower) != keep { continue; }
      out := out + [ids[i]];
    }
    assert ids[..|ids|] == ids;
  }

  /** The classifying loop of `farmOps`. */
  method Classify(t: Tick) returns (harvest: seq<int>, water: seq<int>, plant: seq<int>)
    ensures harvest == Ready(t, Harvest) && water == Ready(t, Water) && plant == Ready(t, Plant)
  {
    var ids := Ids(t);
    harvest, water, plant := [], [], [];
    hide KindOf, Ids;
    for i := 0 to |ids|
      invariant harvest == Select(ids[..i], id => Is(t, id, Harvest))
      invariant water == Select(ids[..i], id => Is(t, id, Water))
      invariant plant == Select(ids[..i], id => Is(t, id, Plant))
    {
      assert ids[..i + 1][..i] == ids[..i];
      IdAt(t, i);
      var kind := KindOf(t, ids[i]);
      match kind
      case Harvest => harvest := harvest + [ids[i]];
      case Water => water := water + [ids[i]];
      case Plant => plant := plant + [ids[i]];
      case Wait =>
      case Unknown =>
    }
    assert ids[..|ids|] == ids;
  }

  /** `elvesNightHarvestLandIDs` */
  method NightHarvestLands(t: Tick) returns (out: seq<int>)
    ensures out == NightLands(t)
  {
    var ids := Ids(t);
    if !t.elves.nightHarvest || GameHour(t.now) < 22 {
      SelectNone(ids, id => NightRipe(t, id));
      return [];
    }
    out := [];
    SelectNothing(id => NightRipe(t, id));
    hide Recommend, Ids, GameHour, Select;
    for i := 0 to |ids|
      invariant out == Select(ids[..i], id => NightRipe(t, id))
    {
      SelectNext(ids, i, id => NightRipe(t, id));
      IdAt(t, i);
      var land := t.lands[ids[i]];
      if land.elves == 0 { continue; }
      if Recommend(land, t.now, 0) != Harvest { continue; }
      out := out + [ids[i]];
    }
    assert ids[..|ids|] == ids;
  }

  lemma {:induction false} SelectNone(ids: seq<int>, p: int -> bool)
    requires forall id: int :: !p(id)
    ensures Select(ids, p) == []
  {
    if ids != [] {
      var last := ids[|ids| - 1];
      assert !p(last);
      SelectNone(ids[..|ids| - 1], p);
    }
  }

  function ByDayLands(t: Tick): seq<int> { Select(Ids(t), id => ByDay(t, id)) }

  /** Ripe by day and, in elves mode, of neither elves flower. */
  predicate Leftover(t: Tick, id: int) {
    && ByDay(t, id)
    && (ElvesDriving(t) ==> FlowerOn(t, id) != t.elves.secondFlower && FlowerOn(t, id) != t.elves.mainFlower)
  }

  function LeftoverLands(t: Tick): seq<int> { Select(Ids(t), id => Leftover(t, id)) }

  method HarvestByDay(t: Tick, ready: seq<int>, night: seq<int>) returns (harvest: seq<int>)
    requires ready == Ready(t, Harvest) && night == NightLands(t)
    ensures harvest == ByDayLands(t)
  {
    harvest := FilterOutLands(ready, night);
    ListsAre(t);
    Refine(Ids(t), id => Is(t, id, Harvest), id => id !in night, id => ByDay(t, id));
  }

  /** In elves mode the secondary flower's lands are split off and the main flower's are left alone. */
  method SplitElves(t: Tick, byDay: seq<int>) returns (secondary: seq<int>, harvest: seq<int>)
    requires byDay == ByDayLands(t)
    ensures secondary == SecondaryLands(t) && harvest == LeftoverLands(t)
  {
    if !ElvesDriving(t) {
      SelectNone(Ids(t), id => SecondaryRipe(t, id));
      SelectAgree(Ids(t), id => ByDay(t, id), id => Leftover(t, id));
      return [], byDay;
    }
    secondary := FilterByFlower(t, byDay, t.elves.secondFlower, true);
    Refine(Ids(t), id => ByDay(t, id), id => (FlowerOn(t, id) == t.elves.secondFlower) == true, id => SecondaryRipe(t, id));
    ListsAre(t);
    harvest := FilterOutLands(byDay, secondary);
    Refine(Ids(t), id => ByDay(t, id), id => id !in secondary,
           id => ByDay(t, id) && FlowerOn(t, id) != t.elves.secondFlower);
    harvest := FilterByFlower(t, harvest, t.elves.mainFlower, false);
    Refine(Ids(t), id => ByDay(t, id) && FlowerOn(t, id) != t.elves.secondFlower,
           id => (FlowerOn(t, id) == t.elves.mainFlower) == false, id => Leftover(t, id));
  }

  method GeneralHarvest(t: Tick, leftover: seq<int>) returns (harvest: seq<int>)
    requires leftover == LeftoverLands(t)
    ensures harvest == GeneralLands(t)
  {
    if !t.autoHarvest && !RaceDriven(t) {
      SelectNone(Ids(t), id => GeneralRipe(t, id));
      return [];
    }
    harvest := leftover;
    if RaceDriven(t) && !t.autoHarvest && RaceFlower(t) > 0 {
      harvest := FilterByFlower(t, harvest, RaceFlower(t), true);
      Refine(Ids(t), id => Leftover(t, id), id => (FlowerOn(t, id) == RaceFlower(t)) == true, id => GeneralRipe(t, id));
    } else {
      SelectAgree(Ids(t), id => Leftover(t, id), id => GeneralRipe(t, id));
    }
  }

  /** The harvest part, with its successive filters. */
  method PlanHarvest(t: Tick, ready: seq<int>) returns (ops: seq<Op>)
    requires ready == Ready(t, Harvest)
    ensures ops == HarvestOps(t)
  {
    var night := NightHarvestLands(t);
    var byDay := HarvestByDay(t, ready, night);
    var secondary, leftover := SplitElves(t, byDay);
    var general := GeneralHarvest(t, leftover);
    ops := [];
    if night != [] { ops := ops + [Op(HarvestLands, Night, night, 0)]; }
    if secondary != [] { ops := ops + [Op(HarvestLands, Secondary, secondary, 0)]; }
    if general != [] { ops := ops + [Op(HarvestLands, General, general, 0)]; }
  }

  /** The watering part: filters, race lands first, and the drops above the reserve. */
  method PlanWater(t: Tick, ready: seq<int>) returns (ops: seq<Op>)
    requires ready == Ready(t, Water)
    ensures ops == WaterOp(WaterLands(t)[..WaterCount(t)])
  {
    var water := SortWater(t, ready);
    var usable := t.drops - Max(0, t.minDrops);
    ops := [];
    if |water| == 0 || usable <= 0 { return; }
    var want := |water|;
    if want > usable { want := usable; }
    var picks := water[..want];
    if |picks| > 1 { ops := [Op(WaterBatch, Watering, picks, 0)]; } else { ops := [Op(WaterLand, Watering, picks, 0)]; }
  }

  /** Thirsty lands as far as the elves switches go; the race filter comes on top. */
  predicate ElvesThirsty(t: Tick, id: int) {
    && Is(t, id, Water)
    && (ElvesDriving(t) ==> FlowerOn(t, id) != t.elves.mainFlower && (t.aidPending ==> FlowerOn(t, id) != t.elves.secondFlower))
  }

  method FilterElvesWater(t: Tick, ready: seq<int>) returns (water: seq<int>)
    requires ready == Ready(t, Water)
    ensures water == Select(Ids(t), id => ElvesThirsty(t, id))
  {
    water := ready;
    if !ElvesDriving(t) {
      SelectAgree(Ids(t), id => Is(t, id, Water), id => ElvesThirsty(t, id));
      return;
    }
    water := FilterByFlower(t, water, t.elves.mainFlower, false);
    Refine(Ids(t), id => Is(t, id, Water), id => (FlowerOn(t, id) == t.elves.mainFlower) == false,
           id => Is(t, id, Water) && FlowerOn(t, id) != t.elves.mainFlower);
    if t.aidPending {
      water := FilterByFlower(t, water, t.elves.secondFlower, false);
      Refine(Ids(t), id => Is(t, id, Water) && FlowerOn(t, id) != t.elves.mainFlower,
             id => (FlowerOn(t, id) == t.elves.secondFlower) == false, id => ElvesThirsty(t, id));
    } else {
      SelectAgree(Ids(t), id => Is(t, id, Water) && FlowerOn(t, id) != t.elves.mainFlower, id => ElvesThirsty(t, id));
    }
  }

  method SortWater(t: Tick, ready: seq<int>) returns (water: seq<int>)
    requires ready == Ready(t, Water)
    ensures water == WaterLands(t)
  {
    water := FilterElvesWater(t, ready);
    if !t.raceHeld || RaceFlower(t) <= 0 {
      SelectAgree(Ids(t), id => ElvesThirsty(t, id), id => Thirsty(t, id));
      return;
    }
    var matched := FilterByFlower(t, water, RaceFlower(t), true);
    var rest := FilterByFlower(t, water, RaceFlower(t), false);
    RaceWater(t);
    water := if t.autoPlant then matched + rest else matched;
  }

  lemma RaceWater(t: Tick)
    requires t.raceHeld && RaceFlower(t) > 0
    ensures var water := Select(Ids(t), id => ElvesThirsty(t, id));
            var matched := Select(water, id => (FlowerOn(t, id) == RaceFlower(t)) == true);
            var rest := Select(water, id => (FlowerOn(t, id) == RaceFlower(t)) == false);
            WaterLands(t) == if t.autoPlant then matched + rest else matched
  {
    hide Select, Ids, FlowerOn, Is, RaceFlower, ElvesDriving;
    Refine(Ids(t), id => ElvesThirsty(t, id), id => (FlowerOn(t, id) == RaceFlower(t)) == true,
           id => Thirsty(t, id) && FlowerOn(t, id) == RaceFlower(t));
    if t.autoPlant {
      Refine(Ids(t), id => ElvesThirsty(t, id), id => (FlowerOn(t, id) == RaceFlower(t)) == false,
             id => Thirsty(t, id) && FlowerOn(t, id) != RaceFlower(t));
    } else {
      SelectNone(Ids(t), id => Thirsty(t, id) && FlowerOn(t, id) != RaceFlower(t));
    }
  }

  lemma SlicesAt(plan: seq<Replant.Assignment>, empty: seq<int>, i: nat, cursor: nat)
    requires Replant.AllPositive(plan) && i < |plan| && cursor < |empty|
    ensures var n := Min(plan[i].count, |empty| - cursor);
            && plan[i].count >= 1 && Replant.AllPositive(plan[i..]) && Replant.AllPositive(plan[i + 1..])
            && Slices(plan[i..], empty[cursor..])
               == [Op(if n > 1 then PlantBatch else PlantLand, Planting, empty[cursor..cursor + n], plan[i].flower)]
                  + Slices(plan[i + 1..], empty[cursor + n..])
  {
    var n := Min(plan[i].count, |empty| - cursor);
    SlicesStep(plan[i..], empty[cursor..]);
    assert plan[i..][1..] == plan[i + 1..];
    assert empty[cursor..][..n] == empty[cursor..cursor + n] && empty[cursor..][n..] == empty[cursor + n..];
  }

  lemma Regroup(done: seq<Op>, op: Op, rest: seq<Op>)
    ensures done + ([op] + rest) == done + [op] + rest
  {
  }

  /** The cursor loop that slices the empty lands by assignment. */
  method SlicePlant(plan: seq<Replant.Assignment>, empty: seq<int>) returns (ops: seq<Op>)
    requires Replant.AllPositive(plan)
    ensures ops == Slices(plan, empty)
  {
    ops := [];
    var cursor := 0;
    assert plan[0..] == plan && empty[0..] == empty;
    hide Slices, Replant.AllPositive;
    for i := 0 to |plan|
      invariant 0 <= cursor <= |empty|
      invariant Replant.AllPositive(plan[i..])
      invariant ops + Slices(plan[i..], empty[cursor..]) == Slices(plan, empty)
    {
      if cursor >= |empty| {
        SlicesEnd(plan[i..], empty[cursor..]);
        return;
      }
      SlicesAt(plan, empty, i, cursor);
      var op, next := NextSlice(plan[i], empty, cursor);
      Regroup(ops, op, Slices(plan[i + 1..], empty[next..]));
      ops := ops + [op];
      cursor := next;
    }
    SlicesEnd(plan[|plan|..], empty[cursor..]);
  }

  method NextSlice(a: Replant.Assignment, empty: seq<int>, cursor: nat) returns (op: Op, next: nat)
    requires cursor < |empty| && a.count >= 1
    ensures next == cursor + Min(a.count, |empty| - cursor)
    ensures op == Op(if next - cursor > 1 then PlantBatch else PlantLand, Planting, empty[cursor..next], a.flower)
  {
    var count := a.count;
    if count > |empty| - cursor { count := |empty| - cursor; }
    next := cursor + count;
    op := Op(if count > 1 then PlantBatch else PlantLand, Planting, empty[cursor..next], a.flower);
  }

  /** `elvesPlantPlantOps` */
  method PlanElves(t: Tick, empty: seq<int>) returns (ops: seq<Op>)
    requires empty != []
    ensures ops == ElvesPlantOps(t, empty)
  {
    var mainLands := FilterByFlower(t, Ids(t), t.elves.mainFlower, true);
    SelectAgree(Ids(t), id => (FlowerOn(t, id) == t.elves.mainFlower) == true, id => FlowerOn(t, id) == t.elves.mainFlower);
    var need := MainWanted(t.elves, |t.lands|) - |mainLands|;
    hide Select, Ids, MainWanted;
    if need < 0 { need := 0; }
    ops := [];
    var cursor := 0;
    if need > 0 {
      cursor := need;
      if cursor > |empty| { cursor := |empty|; }
      ops := PlantOp(empty[..cursor], t.elves.mainFlower);
    }
    assert cursor == MainNeeded(t, |empty|);
    if cursor < |empty| { ops := ops + PlantOp(empty[cursor..], t.elves.secondFlower); }
  }

  method PlanFarm(t: Tick, candidates: array<Replant.Candidate>) returns (ops: seq<Op>)
    requires candidates[..] == t.candidates
    modifies candidates
    ensures ops == FarmOps(t)
  {
    var harvest, water, plant := Classify(t);
    ops := PlanHarvest(t, harvest);
    if !FarmActive(t) { return; }
    hide HarvestOps, WaterOp, WaterLands, WaterCount, Slices, Ready, Is, KindOf, Ids, ElvesPlantOps;
    var planting: seq<Op> := [];
    if plant != [] {
      if ElvesDriving(t) {
        if !t.aidPending { planting := PlanElves(t, plant); }
      } else {
        var plan := Replant.PlanPlantAssignments(GardenOf(t), candidates, t.demands, |plant|);
        assert plan == PlanOf(t, |plant|);
        planting := SlicePlant(plan.executable, plant);
        planting := planting + Diagnostics(plan.blocked);
      }
    }
    var watering := PlanWater(t, water);
    ops := ops + (planting + watering);
  }
}
