/**
 How many lands a guild-race harvest task still needs planted: a flower target, minus progress, minus what the
 planted lands will still yield, divided by what one new plant yields.
 */
module RaceDrive {
  import opened Common

  datatype Yield = Yield(cropGets: int, frequencys: int)

  datatype Land = Land(flower: int, level: int, harvests: int)

  /** The race flower with its yield per level and the player's cultivate level, zero if there is none. */
  datatype Crop = Crop(flower: int, table: map<int, Yield>, level: int)

  predicate Known(c: Crop, level: int) {
    level in c.table && c.table[level].cropGets > 0 && c.table[level].frequencys > 0
  }

  function LevelOf(c: Crop, land: Land): int { if land.level > 0 then land.level else c.level }

  /** The land grows the race flower and its yield is known. */
  predicate Counts(c: Crop, land: Land) { land.flower == c.flower && Known(c, LevelOf(c, land)) }

  function YieldOf(c: Crop, land: Land): Yield
    requires Counts(c, land)
  {
    c.table[LevelOf(c, land)]
  }

  /** Rounds already harvested, within the rounds the plant has. */
  function RoundsDone(c: Crop, land: Land): nat
    requires Counts(c, land)
  {
    Min(Max(0, land.harvests), YieldOf(c, land).frequencys)
  }

  function Harvested(c: Crop, land: Land): int {
    if Counts(c, land) then RoundsDone(c, land) * YieldOf(c, land).cropGets else 0
  }

  function Pending(c: Crop, land: Land): int {
    if Counts(c, land) then (YieldOf(c, land).frequencys - RoundsDone(c, land)) * YieldOf(c, land).cropGets else 0
  }

  function FullYield(c: Crop, land: Land): int {
    if Counts(c, land) then YieldOf(c, land).cropGets * YieldOf(c, land).frequencys else 0
  }

  type Lands = map<int, Land>

  ghost function HarvestedSum(c: Crop, lands: Lands): int {
    Sum(lands.Keys, id => if id in lands then Harvested(c, lands[id]) else 0)
  }

  ghost function PendingSum(c: Crop, lands: Lands): int {
    Sum(lands.Keys, id => if id in lands then Pending(c, lands[id]) else 0)
  }

  ghost function YieldSum(c: Crop, lands: Lands): int {
    Sum(lands.Keys, id => if id in lands then FullYield(c, lands[id]) else 0)
  }

  /** `raceFlowerFlowersPerPlant`: an unknown yield counts one flower per plant. */
  function PerPlant(c: Crop): (n: int)
    ensures n >= 1
  {
    if Known(c, c.level) then
      PositiveProduct(c.table[c.level].cropGets, c.table[c.level].frequencys);
      c.table[c.level].cropGets * c.table[c.level].frequencys
    else 1
  }

  lemma PositiveProduct(a: int, b: int)
    requires a > 0 && b > 0
    ensures a * b > 0
  {
  }

  /** What the task still lacks once the planted lands are harvested to the end. */
  ghost function Need(c: Crop, lands: Lands, target: int, finish: int): int {
    target - Max(finish, HarvestedSum(c, lands)) - PendingSum(c, lands)
  }

  /** The quotient the source rounds up with; both operands are positive there. */
  function RoundUp(need: int, per: int): int
    requires per >= 1
  {
    (need + per - 1) / per
  }

  /** `racePlantHarvestPlantMissing` */
  ghost function PlantMissing(c: Crop, lands: Lands, target: int, finish: int): int {
    if target <= 0 || c.flower <= 0 || finish >= target then 0
    else
      var need := Need(c, lands, target, finish);
      if need <= 0 then 0 else RoundUp(need, PerPlant(c))
  }

  // ----- conservation -----

  lemma Distribute(a: int, b: int, c: int)
    ensures a * c + (b - a) * c == c * b
  {
  }

  lemma LandConserved(c: Crop, land: Land)
    ensures Harvested(c, land) + Pending(c, land) == FullYield(c, land)
    ensures Harvested(c, land) >= 0 && Pending(c, land) >= 0
  {
    if Counts(c, land) {
      var y, r := YieldOf(c, land), RoundsDone(c, land);
      Distribute(r, y.frequencys, y.cropGets);
      NonNegativeProduct(r, y.cropGets);
      NonNegativeProduct(y.frequencys - r, y.cropGets);
    }
  }

  lemma NonNegativeProduct(a: int, b: int)
    requires a >= 0 && b >= 0
    ensures a * b >= 0
  {
  }

  lemma {:induction false} SumAdds(keys: set<int>, f: int -> int, g: int -> int, h: int -> int)
    requires forall k: int :: f(k) + g(k) == h(k)
    ensures Sum(keys, f) + Sum(keys, g) == Sum(keys, h)
    decreases |keys|
  {
    if keys != {} {
      var k := AnyOf(keys);
      SumSplit(keys, k, f);
      SumSplit(keys, k, g);
      SumSplit(keys, k, h);
      SumAdds(keys - {k}, f, g, h);
      assert f(k) + g(k) == h(k);
    }
  }

  /** Nothing is counted twice or lost: harvested and pending flowers make up the full yield of the race lands. */
  lemma FlowersConserved(c: Crop, lands: Lands)
    ensures HarvestedSum(c, lands) + PendingSum(c, lands) == YieldSum(c, lands)
  {
    var f := id => if id in lands then Harvested(c, lands[id]) else 0;
    var g := id => if id in lands then Pending(c, lands[id]) else 0;
    var h := id => if id in lands then FullYield(c, lands[id]) else 0;
    forall id: int ensures f(id) + g(id) == h(id) { if id in lands { LandConserved(c, lands[id]); } }
    SumAdds(lands.Keys, f, g, h);
  }

  // ----- one land changes -----

  lemma SumChanges(keys: set<int>, id: int, f: int -> int, g: int -> int)
    requires id in keys && forall k: int :: k != id ==> f(k) == g(k)
    ensures Sum(keys, g) == Sum(keys, f) - f(id) + g(id)
  {
    SumSplit(keys, id, f);
    SumSplit(keys, id, g);
    SumSame(keys - {id}, f, g);
  }

  lemma {:induction false} SumSame(keys: set<int>, f: int -> int, g: int -> int)
    requires forall k: int :: k in keys ==> f(k) == g(k)
    ensures Sum(keys, f) == Sum(keys, g)
    decreases |keys|
  {
    if keys != {} {
      var k := AnyOf(keys);
      assert f(k) == g(k);
      SumSplit(keys, k, f);
      SumSplit(keys, k, g);
      SumSame(keys - {k}, f, g);
    }
  }

  lemma SumsAfter(c: Crop, lands: Lands, id: int, land: Land)
    requires id in lands
    ensures HarvestedSum(c, lands[id := land]) == HarvestedSum(c, lands) - Harvested(c, lands[id]) + Harvested(c, land)
    ensures PendingSum(c, lands[id := land]) == PendingSum(c, lands) - Pending(c, lands[id]) + Pending(c, land)
  {
    var after := lands[id := land];
    assert after.Keys == lands.Keys;
    SumChanges(lands.Keys, id, k => if k in lands then Harvested(c, lands[k]) else 0,
               k => if k in after then Harvested(c, after[k]) else 0);
    SumChanges(lands.Keys, id, k => if k in lands then Pending(c, lands[k]) else 0,
               k => if k in after then Pending(c, after[k]) else 0);
  }

  // ----- planting -----

  /** A land that grows nothing of the race flower with known yield, such as an empty one, and is planted anew. */
  predicate Plantable(c: Crop, lands: Lands, id: int) { id in lands && !Counts(c, lands[id]) }

  /** A new plant grows at the player's cultivate level. */
  function NewPlant(c: Crop): Land { Land(c.flower, Max(0, c.level), 0) }

  function PlantAll(c: Crop, lands: Lands, ids: seq<int>): Lands {
    if ids == [] then lands else PlantAll(c, lands, ids[..|ids| - 1])[ids[|ids| - 1] := NewPlant(c)]
  }

  predicate AllPlantable(c: Crop, lands: Lands, ids: seq<int>) {
    Distinct(ids) && forall i :: 0 <= i < |ids| ==> Plantable(c, lands, ids[i])
  }

  lemma {:induction false} PlantAllLeaves(c: Crop, lands: Lands, ids: seq<int>, id: int)
    requires id !in ids
    ensures id in PlantAll(c, lands, ids) <==> id in lands
    ensures id in lands ==> PlantAll(c, lands, ids)[id] == lands[id]
  {
    if ids != [] { PlantAllLeaves(c, lands, ids[..|ids| - 1], id); }
  }

  lemma NewPlantYields(c: Crop)
    requires c.level >= 0
    ensures Harvested(c, NewPlant(c)) == 0
    ensures Pending(c, NewPlant(c)) == if Known(c, c.level) then PerPlant(c) else 0
  {
    if Counts(c, NewPlant(c)) { LandConserved(c, NewPlant(c)); }
  }

  lemma {:induction false} PlantingAddsPending(c: Crop, lands: Lands, ids: seq<int>)
    requires AllPlantable(c, lands, ids) && c.level >= 0
    ensures HarvestedSum(c, PlantAll(c, lands, ids)) == HarvestedSum(c, lands)
    ensures PendingSum(c, PlantAll(c, lands, ids))
            == PendingSum(c, lands) + if Known(c, c.level) then |ids| * PerPlant(c) else 0
  {
    if ids != [] {
      var front, id := ids[..|ids| - 1], ids[|ids| - 1];
      PlantingAddsPending(c, lands, front);
      assert id !in front;
      PlantAllLeaves(c, lands, front, id);
      assert Plantable(c, lands, id);
      NewPlantYields(c);
      SumsAfter(c, PlantAll(c, lands, front), id, NewPlant(c));
      OneMore(|front|, PerPlant(c));
    }
  }

  lemma OneMore(n: int, per: int)
    ensures (n + 1) * per == n * per + per
  {
  }

  lemma RoundUpExact(need: int, per: int)
    requires per >= 1
    ensures (RoundUp(need, per) - 1) * per < need <= RoundUp(need, per) * per
  {
    var q := RoundUp(need, per);
    assert need + per - 1 == per * q + (need + per - 1) % per;
    Swap(q, per);
    OneMore(q - 1, per);
  }

  lemma Swap(a: int, b: int)
    ensures a * b == b * a
  {
  }

  lemma RoundUpUnique(need: int, per: int, q: int)
    requires per >= 1 && (q - 1) * per < need <= q * per
    ensures RoundUp(need, per) == q
  {
    RoundUpExact(need, per);
    var r := RoundUp(need, per);
    if r < q { MulOrder(r, q - 1, per); }
    if r > q { MulOrder(q, r - 1, per); }
  }

  lemma MulOrder(a: int, b: int, per: int)
    requires a <= b && per >= 0
    ensures a * per <= b * per
  {
  }

  lemma RoundUpLess(need: int, per: int, k: int)
    requires per >= 1
    ensures RoundUp(need - k * per, per) == RoundUp(need, per) - k
  {
    RoundUpExact(need, per);
    var q := RoundUp(need, per);
    assert (q - k) * per == q * per - k * per;
    assert (q - k - 1) * per == (q - 1) * per - k * per;
    RoundUpUnique(need - k * per, per, q - k);
  }

  /**
   The plant count is the exact minimum: with a known yield every planted land lowers it by one until it is zero;
   with an unknown yield planting never lowers it.
   */
  lemma PlantingLowersCount(c: Crop, lands: Lands, target: int, finish: int, ids: seq<int>)
    requires AllPlantable(c, lands, ids) && c.level >= 0
    ensures PlantMissing(c, PlantAll(c, lands, ids), target, finish)
            == if Known(c, c.level) then Max(0, PlantMissing(c, lands, target, finish) - |ids|)
               else PlantMissing(c, lands, target, finish)
  {
    PlantingAddsPending(c, lands, ids);
    if target > 0 && c.flower > 0 && finish < target && Known(c, c.level) {
      var need, per := Need(c, lands, target, finish), PerPlant(c);
      var after := need - |ids| * per;
      assert Need(c, PlantAll(c, lands, ids), target, finish) == after;
      RoundUpLess(need, per, |ids|);
      RoundUpSign(need, per);
      RoundUpSign(after, per);
      NonNegativeProduct(|ids|, per);
    }
  }

  lemma RoundUpSign(need: int, per: int)
    requires per >= 1
    ensures need <= 0 <==> RoundUp(need, per) <= 0
  {
    RoundUpExact(need, per);
    var q := RoundUp(need, per);
    if q <= 0 { MulOrder(q, 0, per); } else { MulOrder(0, q - 1, per); }
  }

  /** The asked-for number of new plants is enough and one fewer is not, exactly when the yield is known. */
  lemma PlantCountIsMinimal(c: Crop, lands: Lands, target: int, finish: int, ids: seq<int>)
    requires AllPlantable(c, lands, ids) && c.level >= 0 && PlantMissing(c, lands, target, finish) > 0
    ensures PlantMissing(c, PlantAll(c, lands, ids), target, finish) == 0 <==>
              Known(c, c.level) && |ids| >= PlantMissing(c, lands, target, finish)
  {
    PlantingLowersCount(c, lands, target, finish, ids);
  }

  /** Two lands to plant and no yield known for the flower: the count stays at two, planted or not. */
  lemma UnknownYieldNeverSettles()
    ensures var c := Crop(7, map[], 3);
            var lands := map[1 := Land(0, 0, 0), 2 := Land(0, 0, 0)];
            PlantMissing(c, lands, 2, 0) == 2 == PlantMissing(c, PlantAll(c, lands, [1, 2]), 2, 0)
  {
    var c := Crop(7, map[], 3);
    var lands := map[1 := Land(0, 0, 0), 2 := Land(0, 0, 0)];
    FlowersConserved(c, lands);
    NothingKnown(c, lands);
    PlantingLowersCount(c, lands, 2, 0, [1, 2]);
    assert PerPlant(c) == 1;
  }

  lemma NothingKnown(c: Crop, lands: Lands)
    requires forall id: int :: id in lands ==> !Counts(c, lands[id])
    ensures HarvestedSum(c, lands) == 0 && PendingSum(c, lands) == 0
  {
    SumZero(lands.Keys, id => if id in lands then Harvested(c, lands[id]) else 0);
    SumZero(lands.Keys, id => if id in lands then Pending(c, lands[id]) else 0);
  }

  lemma {:induction false} SumZero(keys: set<int>, f: int -> int)
    requires forall k: int :: f(k) == 0
    ensures Sum(keys, f) == 0
    decreases |keys|
  {
    if keys != {} {
      var k := AnyOf(keys);
      SumSplit(keys, k, f);
      SumZero(keys - {k}, f);
      assert f(k) == 0;
    }
  }

  // ----- harvesting -----

  /** One more round is harvested from the land; its flowers move from pending to harvested. */
  predicate CanHarvest(c: Crop, land: Land) {
    Counts(c, land) && 0 <= land.harvests < YieldOf(c, land).frequencys
  }

  lemma HarvestMoves(c: Crop, land: Land)
    requires CanHarvest(c, land)
    ensures var after := land.(harvests := land.harvests + 1);
            && Harvested(c, after) == Harvested(c, land) + YieldOf(c, land).cropGets
            && Pending(c, after) == Pending(c, land) - YieldOf(c, land).cropGets
  {
    var y := YieldOf(c, land);
    var after := land.(harvests := land.harvests + 1);
    assert YieldOf(c, after) == y && RoundsDone(c, after) == RoundsDone(c, land) + 1;
    OneMore(RoundsDone(c, land), y.cropGets);
    OneMore(y.frequencys - RoundsDone(c, after), y.cropGets);
  }

  /** A harvest whose flowers are credited to the task's progress leaves the need as it was. */
  lemma CreditedHarvestKeepsNeed(c: Crop, lands: Lands, id: int, target: int, finish: int)
    requires id in lands && CanHarvest(c, lands[id])
    ensures var got := YieldOf(c, lands[id]).cropGets;
            var after := lands[id := lands[id].(harvests := lands[id].harvests + 1)];
            Need(c, after, target, finish + got) == Need(c, lands, target, finish)
  {
    HarvestMoves(c, lands[id]);
    SumsAfter(c, lands, id, lands[id].(harvests := lands[id].harvests + 1));
  }

  /** The task's progress is the larger of the server's count and the local one; crediting the local one suffices. */
  lemma LocalCreditKeepsNeed(c: Crop, lands: Lands, id: int, target: int, server: int, local: int)
    requires id in lands && CanHarvest(c, lands[id]) && local >= server
    ensures var got := YieldOf(c, lands[id]).cropGets;
            var after := lands[id := lands[id].(harvests := lands[id].harvests + 1)];
            Need(c, after, target, Max(server, local + got)) == Need(c, lands, target, Max(server, local))
  {
    CreditedHarvestKeepsNeed(c, lands, id, target, local);
  }

  /** The last round clears the land: the need is unchanged exactly if the credited progress was the larger count. */
  lemma LastHarvestKeepsNeedExactly(c: Crop, lands: Lands, id: int, target: int, finish: int)
    requires id in lands && CanHarvest(c, lands[id]) && c.flower != 0
    requires lands[id].harvests == YieldOf(c, lands[id]).frequencys - 1
    ensures var got := YieldOf(c, lands[id]).cropGets;
            var after := lands[id := Land(0, 0, 0)];
            Need(c, after, target, finish + got) == Need(c, lands, target, finish) <==> finish >= HarvestedSum(c, lands)
  {
    var land := lands[id];
    var y := YieldOf(c, land);
    SumsAfter(c, lands, id, Land(0, 0, 0));
    LandConserved(c, land);
    assert Pending(c, land) == y.cropGets by { OneMore(0, y.cropGets); }
  }

  // ----- as it is computed -----

  /** What one land adds to the sum: its rounds, done or still to come, times the flowers of a round. */
  method LandShare(c: Crop, land: Land, harvested: bool) returns (share: int)
    ensures share == if harvested then Harvested(c, land) else Pending(c, land)
  {
    if land.flower != c.flower { return 0; }
    var level := land.level;
    if level <= 0 { level := c.level; }
    if level !in c.table || c.table[level].cropGets <= 0 || c.table[level].frequencys <= 0 { return 0; }
    var y := c.table[level];
    var done := land.harvests;
    if done < 0 { done := 0; }
    if done > y.frequencys { done := y.frequencys; }
    var rounds := done;
    if !harvested { rounds := y.frequencys - done; }
    if rounds <= 0 { return 0; }
    return rounds * y.cropGets;
  }

  /** `racePlantedYieldSum`, in whatever order the lands come. */
  method PlantedYieldSum(c: Crop, lands: Lands, harvested: bool) returns (total: int)
    ensures total == if harvested then HarvestedSum(c, lands) else PendingSum(c, lands)
  {
    total := 0;
    var rest := lands.Keys;
    ghost var f := id => if id in lands then (if harvested then Harvested(c, lands[id]) else Pending(c, lands[id])) else 0;
    while rest != {}
      invariant rest <= lands.Keys
      invariant total + Sum(rest, f) == Sum(lands.Keys, f)
      decreases rest
    {
      var id := Least(rest);
      assert id in lands;
      SumSplit(rest, id, f);
      rest := rest - {id};
      var share := LandShare(c, lands[id], harvested);
      total := total + share;
    }
    if harvested {
      SumAgree(lands.Keys, f, id => if id in lands then Harvested(c, lands[id]) else 0);
    } else {
      SumAgree(lands.Keys, f, id => if id in lands then Pending(c, lands[id]) else 0);
    }
  }

  /** `racePlantHarvestPlantMissing` */
  method PlantHarvestPlantMissing(c: Crop, lands: Lands, target: int, finish: int) returns (plants: int)
    ensures plants == PlantMissing(c, lands, target, finish) >= 0
  {
    if target <= 0 || c.flower <= 0 || finish >= target { return 0; }
    var perPlant := PerPlant(c);
    var progress := finish;
    var local := PlantedYieldSum(c, lands, true);
    if local > progress { progress := local; }
    var pending := PlantedYieldSum(c, lands, false);
    var need := target - progress - pending;
    if need <= 0 { return 0; }
    RoundUpSign(need, perPlant);
    return (need + perPlant - 1) / perPlant;
  }
}
