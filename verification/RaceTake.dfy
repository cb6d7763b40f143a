/**
 When the guild-race scheduler wakes up to take a task, and which one it takes. Times are milliseconds; the race
 record and the policy are one snapshot, re-evaluated at different times.
 */
module RaceTake {
  import opened Common

  const LEAD := 300

  datatype Task = Task(msId: int, taskId: int, taskType: int, score: int, isUpgrade: bool, upgradeUid: int,
                       uid: int, param: int, appear: int, targetCnt: int, finishCnt: int)

  datatype Policy = Policy(minScore: int, avoidProgressed: bool, onlyUpgrade: bool, excludeOthersUpgrade: bool,
                           priority: map<int, int>, maxInventory: int)

  /** What the filters look up: the account, its flowers and vases, and the module switches. */
  datatype Facts = Facts(uid: int, cultivated: set<int>, inventory: map<int, int>,
                         vaseObserved: bool, vases: set<int>, customer: bool, pearl: bool)

  /** The race record; `holdUntil` is the expiry of a held task, not positive if it never expires. */
  datatype Race = Race(enabled: bool, tasksObserved: bool, poolStale: bool, quotaDone: bool,
                       batchStatus: int, batchStart: int, batchEnd: int, holdUntil: Option<int>, tasks: seq<Task>)

  const PLANT_HARVEST := 3036
  const CUSTOMER_ORDER := 3016
  const PEARL_HIRE := 3023
  const ART_SELL := 3030
  const ART_CRAFT := 3034
  const CULTIVATE := 3044
  const CULTIVATE_SCORE := 36

  /** `raceTaskTypePriority`: configured, or the default of five for plant-harvest and zero for the rest. */
  function Priority(p: Policy, taskType: int): int {
    if taskType in p.priority then p.priority[taskType] else if taskType == PLANT_HARVEST then 5 else 0
  }

  /** The type the filters go by: the catalog id stands in for a missing type. */
  function EffectiveType(t: Task): int { if t.taskType == 0 then t.taskId else t.taskType }

  datatype Skip =
    | Take
    | LowScore | Progressed | NotUpgraded | UnknownSelf | OthersUpgrade | PriorityZero | NotAutomatic
    | NotCultivated | InventoryFull | CustomerOff | PearlOff | UnknownVase | VaseUnobserved | VaseLocked | WrongCultivateScore
    | Taken | Cooling

  /** `raceTakeNonCDSkipReason` */
  function NonCdSkip(p: Policy, f: Facts, t: Task): Skip {
    if p.minScore > 0 && t.score <= p.minScore then LowScore
    else if p.avoidProgressed && t.finishCnt > 0 then Progressed
    else if p.onlyUpgrade && !t.isUpgrade then NotUpgraded
    else if p.excludeOthersUpgrade && t.upgradeUid > 0 && f.uid <= 0 then UnknownSelf
    else if p.excludeOthersUpgrade && t.upgradeUid > 0 && t.upgradeUid != f.uid then OthersUpgrade
    else
      var taskType := EffectiveType(t);
      if Priority(p, taskType) <= 0 then PriorityZero
      else if taskType == PLANT_HARVEST then
        if t.param <= 0 || t.param !in f.cultivated then NotCultivated
        else if p.maxInventory > 0 && (if t.param in f.inventory then f.inventory[t.param] else 0) > p.maxInventory
        then InventoryFull else Take
      else if taskType == CUSTOMER_ORDER then if f.customer then Take else CustomerOff
      else if taskType == PEARL_HIRE then if f.pearl then Take else PearlOff
      else if taskType == ART_SELL then Take
      else if taskType == ART_CRAFT then
        if t.param <= 0 then UnknownVase
        else if !f.vaseObserved then VaseUnobserved
        else if t.param !in f.vases then VaseLocked else Take
      else if taskType == CULTIVATE then if t.score == CULTIVATE_SCORE then Take else WrongCultivateScore
      else NotAutomatic
  }

  /** `RaceTakeSkipReason` */
  function TakeSkip(p: Policy, f: Facts, t: Task, now: int): Skip {
    if t.uid != 0 then Taken
    else if NonCdSkip(p, f, t) != Take then NonCdSkip(p, f, t)
    else if t.appear > 0 && t.appear > now + LEAD then Cooling
    else Take
  }

  /** A row that only its cooldown can keep from being taken. */
  predicate Eligible(p: Policy, f: Facts, t: Task) { t.uid == 0 && NonCdSkip(p, f, t) == Take }

  predicate Active(r: Race, now: int) {
    if r.batchStatus == 2 then false
    else if r.batchStatus == 1 then true
    else r.batchStart > 0 && r.batchEnd > r.batchStart && r.batchStart <= now < r.batchEnd
  }

  predicate Holding(r: Race, now: int) { r.holdUntil.Some? && !(r.holdUntil.value > 0 && now >= r.holdUntil.value) }

  /** The gates both scheduler functions share. */
  predicate Open(r: Race, now: int) {
    r.enabled && Active(r, now) && r.tasksObserved && !r.poolStale && !Holding(r, now) && !r.quotaDone
  }

  // ----- selection -----

  predicate Upcoming(t: Task, now: int) { t.appear > 0 && t.appear > now }

  function Filtered(p: Policy, f: Facts, tasks: seq<Task>, now: int, upcoming: bool): seq<Task> {
    if tasks == [] then []
    else
      var t := tasks[|tasks| - 1];
      Filtered(p, f, tasks[..|tasks| - 1], now, upcoming)
      + if TakeSkip(p, f, t, now) == Take && Upcoming(t, now) == upcoming then [t] else []
  }

  /** The sort key: the priority of the type as the pool row gives it, then the score. */
  predicate AtLeast(p: Policy, t: Task, u: Task) {
    Priority(p, t.taskType) > Priority(p, u.taskType)
    || (Priority(p, t.taskType) == Priority(p, u.taskType) && t.score >= u.score)
  }

  function Insert(p: Policy, t: Task, s: seq<Task>): (r: seq<Task>)
    ensures |r| == |s| + 1
  {
    if s == [] then [t] else if AtLeast(p, t, s[0]) then [t] + s else [s[0]] + Insert(p, t, s[1..])
  }

  /** A stable sort, highest key first. */
  function Ranked(p: Policy, s: seq<Task>): (r: seq<Task>)
    ensures |r| == |s|
  {
    if s == [] then [] else Insert(p, s[0], Ranked(p, s[1..]))
  }

  /** `selectRaceTasks`: the ready rows if there are any, else those within the lead window. */
  function Selected(p: Policy, f: Facts, tasks: seq<Task>, now: int): seq<Task> {
    var ready := Ranked(p, Filtered(p, f, tasks, now, false));
    if |ready| > 0 then ready else Ranked(p, Filtered(p, f, tasks, now, true))
  }

  /** `RaceTakeDue` */
  predicate Due(r: Race, p: Policy, f: Facts, now: int) { Open(r, now) && |Selected(p, f, r.tasks, now)| > 0 }

  lemma {:induction false} FilteredMembers(p: Policy, f: Facts, tasks: seq<Task>, now: int, upcoming: bool)
    ensures forall t :: t in Filtered(p, f, tasks, now, upcoming) <==>
              t in tasks && TakeSkip(p, f, t, now) == Take && Upcoming(t, now) == upcoming
  {
    if tasks != [] {
      var front, last := tasks[..|tasks| - 1], tasks[|tasks| - 1];
      FilteredMembers(p, f, front, now, upcoming);
      assert forall t :: t in tasks <==> t in front || t == last;
    }
  }

  lemma {:induction false} InsertMembers(p: Policy, t: Task, s: seq<Task>)
    ensures forall u :: u in Insert(p, t, s) <==> u == t || u in s
  {
    if s != [] && !AtLeast(p, t, s[0]) { InsertMembers(p, t, s[1..]); }
  }

  lemma {:induction false} RankedMembers(p: Policy, s: seq<Task>)
    ensures forall t :: t in Ranked(p, s) <==> t in s
  {
    if s != [] {
      RankedMembers(p, s[1..]);
      InsertMembers(p, s[0], Ranked(p, s[1..]));
    }
  }

  /** The head of the ranking: no row has a higher key, and none before it in the pool an equal one. */
  lemma {:induction false} HeadIsFirstBest(p: Policy, s: seq<Task>)
    requires s != []
    ensures exists i :: 0 <= i < |s| && s[i] == Ranked(p, s)[0]
              && (forall j :: 0 <= j < |s| ==> AtLeast(p, s[i], s[j]))
              && (forall j :: 0 <= j < i ==> !AtLeast(p, s[j], s[i]))
  {
    var rest := s[1..];
    if rest == [] {
      assert Ranked(p, rest) == [];
      assert s[0] == Ranked(p, s)[0];
    } else {
      HeadIsFirstBest(p, rest);
      var i :| 0 <= i < |rest| && rest[i] == Ranked(p, rest)[0]
               && (forall j :: 0 <= j < |rest| ==> AtLeast(p, rest[i], rest[j]))
               && (forall j :: 0 <= j < i ==> !AtLeast(p, rest[j], rest[i]));
      if AtLeast(p, s[0], rest[i]) {
        assert s[0] == Ranked(p, s)[0];
        forall j | 0 <= j < |s| ensures AtLeast(p, s[0], s[j]) { if j > 0 { assert s[j] == rest[j - 1]; } }
      } else {
        assert s[i + 1] == Ranked(p, s)[0];
        forall j | 0 <= j < |s| ensures AtLeast(p, s[i + 1], s[j]) { if j > 0 { assert s[j] == rest[j - 1]; } }
        forall j | 0 <= j < i + 1 ensures !AtLeast(p, s[j], s[i + 1]) { if j > 0 { assert s[j] == rest[j - 1]; } }
      }
    }
  }

  /**
   The task that is taken: it passes every filter, is ready if any takeable row is, and among the rows as ready as
   itself none has a higher priority, nor the same priority and a higher score.
   */
  lemma HeadIsBest(p: Policy, f: Facts, tasks: seq<Task>, now: int)
    requires |Selected(p, f, tasks, now)| > 0
    ensures var head := Selected(p, f, tasks, now)[0];
            && head in tasks && TakeSkip(p, f, head, now) == Take
            && forall t :: t in tasks && TakeSkip(p, f, t, now) == Take ==>
                 (Upcoming(head, now) ==> Upcoming(t, now))
                 && (Upcoming(t, now) == Upcoming(head, now) ==> AtLeast(p, head, t))
  {
    var ready, upcoming := Filtered(p, f, tasks, now, false), Filtered(p, f, tasks, now, true);
    FilteredMembers(p, f, tasks, now, false);
    FilteredMembers(p, f, tasks, now, true);
    var chosen := if |ready| > 0 then ready else upcoming;
    HeadIsFirstBest(p, chosen);
    var head := Ranked(p, chosen)[0];
    assert head in chosen;
  }

  lemma SelectedSome(p: Policy, f: Facts, tasks: seq<Task>, now: int)
    ensures |Selected(p, f, tasks, now)| > 0 <==> exists i :: 0 <= i < |tasks| && TakeSkip(p, f, tasks[i], now) == Take
  {
    var ready, upcoming := Filtered(p, f, tasks, now, false), Filtered(p, f, tasks, now, true);
    FilteredMembers(p, f, tasks, now, false);
    FilteredMembers(p, f, tasks, now, true);
    if |ready| > 0 { assert ready[0] in ready; }
    if |upcoming| > 0 { assert upcoming[0] in upcoming; }
    if exists i :: 0 <= i < |tasks| && TakeSkip(p, f, tasks[i], now) == Take {
      var i :| 0 <= i < |tasks| && TakeSkip(p, f, tasks[i], now) == Take;
      assert tasks[i] in ready || tasks[i] in upcoming;
    }
  }

  /** The filter falls back to the catalog id where the type is missing; this is the priority it goes by. */
  function EffectivePriority(p: Policy, t: Task): int { Priority(p, EffectiveType(t)) }

  /** The head of the selection is maximal by that priority. */
  predicate HeadIsTop(p: Policy, f: Facts, pool: seq<Task>, now: int) {
    var picked := Selected(p, f, pool, now);
    |picked| > 0 ==> forall t :: t in pool ==> EffectivePriority(p, picked[0]) >= EffectivePriority(p, t)
  }

  /** The rows can be taken now and are all ready, or all still within the lead. */
  predicate SameClass(p: Policy, f: Facts, rows: set<Task>, now: int, upcoming: bool) {
    forall t :: t in rows ==> TakeSkip(p, f, t, now) == Take && Upcoming(t, now) == upcoming
  }

  /** Where the filter prefers a row the ranking does so strictly. */
  predicate RankingFollows(p: Policy, rows: set<Task>) {
    forall t, u :: t in rows && u in rows && EffectivePriority(p, t) > EffectivePriority(p, u) ==>
      AtLeast(p, t, u) && !AtLeast(p, u, t)
  }

  lemma FilteredAppend(p: Policy, f: Facts, tasks: seq<Task>, t: Task, now: int, upcoming: bool)
    ensures Filtered(p, f, tasks + [t], now, upcoming) == Filtered(p, f, tasks, now, upcoming)
              + if TakeSkip(p, f, t, now) == Take && Upcoming(t, now) == upcoming then [t] else []
  {
    hide TakeSkip, Upcoming;
    assert (tasks + [t])[..|tasks|] == tasks;
  }

  lemma RankedPair(p: Policy, t: Task, u: Task)
    requires AtLeast(p, u, t)
    ensures Ranked(p, [u, t]) == [u, t] && Ranked(p, []) == []
  {
    hide AtLeast;
    assert [u, t][1..] == [t] && [t][1..] == [];
    assert Ranked(p, [t]) == [t];
  }

  lemma PairIsRanked(p: Policy, f: Facts, t: Task, u: Task, now: int, upcoming: bool)
    requires SameClass(p, f, {t, u}, now, upcoming) && AtLeast(p, u, t)
    ensures Selected(p, f, [u, t], now) == [u, t]
  {
    hide TakeSkip, Upcoming, AtLeast, Filtered, Ranked;
    assert TakeSkip(p, f, t, now) == Take && TakeSkip(p, f, u, now) == Take;
    NothingFiltered(p, f, now);
    assert [] + [u] == [u] && [u] + [t] == [u, t];
    forall side: bool ensures Filtered(p, f, [u, t], now, side) == if side == upcoming then [u, t] else [] {
      FilteredAppend(p, f, [], u, now, side);
      FilteredAppend(p, f, [u], t, now, side);
    }
    RankedPair(p, t, u);
  }

  lemma NothingFiltered(p: Policy, f: Facts, now: int)
    ensures Filtered(p, f, [], now, false) == [] && Filtered(p, f, [], now, true) == []
  {
  }

  /**
   The ranking goes by the type as the row gives it. For rows as ready as each other, the head of every pool drawn
   from them is maximal by the priority the filter used exactly if the ranking follows that priority on each pair.
   */
  lemma HeadByEffectivePriority(p: Policy, f: Facts, rows: set<Task>, now: int, upcoming: bool)
    requires SameClass(p, f, rows, now, upcoming)
    ensures (forall pool: seq<Task> :: DrawnFrom(pool, rows) ==> HeadIsTop(p, f, pool, now)) <==> RankingFollows(p, rows)
  {
    hide Selected, TakeSkip, AtLeast, EffectivePriority, Upcoming;
    if RankingFollows(p, rows) {
      forall pool: seq<Task> | DrawnFrom(pool, rows) ensures HeadIsTop(p, f, pool, now) {
        if |Selected(p, f, pool, now)| > 0 { HeadIsBest(p, f, pool, now); }
      }
    } else {
      var t, u :| t in rows && u in rows && EffectivePriority(p, t) > EffectivePriority(p, u)
                  && !(AtLeast(p, t, u) && !AtLeast(p, u, t));
      AtLeastTotal(p, t, u);
      PairIsRanked(p, f, t, u, now, upcoming);
      assert DrawnFrom([u, t], rows) && [u, t][0] == u && [u, t][1] == t;
      assert !HeadIsTop(p, f, [u, t], now);
    }
  }

  lemma AtLeastTotal(p: Policy, t: Task, u: Task)
    ensures AtLeast(p, t, u) || AtLeast(p, u, t)
  {
  }

  /** A typeless row with the higher priority loses to a typed one, whenever type zero itself has the lower priority. */
  lemma MissingTypeLosesRank(p: Policy, f: Facts, t: Task, u: Task, now: int, upcoming: bool)
    requires SameClass(p, f, {t, u}, now, upcoming) && t.taskType == 0
    requires EffectivePriority(p, t) > EffectivePriority(p, u) && Priority(p, u.taskType) > Priority(p, 0)
    ensures !RankingFollows(p, {t, u}) && Selected(p, f, [u, t], now)[..1] == [u]
  {
    assert t in {t, u} && u in {t, u} && AtLeast(p, u, t);
    PairIsRanked(p, f, t, u, now, upcoming);
  }

  /** Such rows exist: a customer-order row without a type, configured above pearl hiring, loses to a pearl-hire row. */
  lemma TypelessOrderLoses()
    ensures var p := Policy(0, false, false, false, map[CUSTOMER_ORDER := 9, PEARL_HIRE := 1], 0);
            var f := Facts(1, {}, map[], false, {}, true, true);
            var typeless := Task(1, CUSTOMER_ORDER, 0, 50, false, 0, 0, 0, 0, 1, 0);
            var pearl := Task(2, PEARL_HIRE, PEARL_HIRE, 10, false, 0, 0, 0, 0, 1, 0);
            SameClass(p, f, {typeless, pearl}, 0, false) && !RankingFollows(p, {typeless, pearl})
  {
    var p := Policy(0, false, false, false, map[CUSTOMER_ORDER := 9, PEARL_HIRE := 1], 0);
    var f := Facts(1, {}, map[], false, {}, true, true);
    var typeless := Task(1, CUSTOMER_ORDER, 0, 50, false, 0, 0, 0, 0, 1, 0);
    var pearl := Task(2, PEARL_HIRE, PEARL_HIRE, 10, false, 0, 0, 0, 0, 1, 0);
    MissingTypeLosesRank(p, f, typeless, pearl, 0, false);
  }

  // ----- the wake-up time -----

  /** The earliest cooldown end among the eligible rows, zero if there is none. */
  function FirstAppear(p: Policy, f: Facts, tasks: seq<Task>): int {
    if tasks == [] then 0
    else
      var t := tasks[|tasks| - 1];
      var best := FirstAppear(p, f, tasks[..|tasks| - 1]);
      if Eligible(p, f, t) && (best == 0 || t.appear < best) then t.appear else best
  }

  /** `RaceTakeWakeAt`, as the scheduler means it: `None` is the zero time. */
  function WakeAt(r: Race, p: Policy, f: Facts, now: int): Option<int> {
    if !Open(r, now) || Due(r, p, f, now) || FirstAppear(p, f, r.tasks) == 0 then None
    else Some(FirstAppear(p, f, r.tasks) - LEAD)
  }

  predicate Cool(p: Policy, f: Facts, t: Task, now: int) { Eligible(p, f, t) ==> t.appear > 0 && t.appear > now + LEAD }

  lemma {:induction false} FirstAppearIs(p: Policy, f: Facts, tasks: seq<Task>, now: int)
    requires forall i :: 0 <= i < |tasks| ==> Cool(p, f, tasks[i], now)
    ensures forall i :: 0 <= i < |tasks| && Eligible(p, f, tasks[i]) ==> 0 < FirstAppear(p, f, tasks) <= tasks[i].appear
    ensures FirstAppear(p, f, tasks) != 0 ==>
              exists i :: 0 <= i < |tasks| && Eligible(p, f, tasks[i]) && tasks[i].appear == FirstAppear(p, f, tasks)
  {
    if tasks != [] {
      var front, last := tasks[..|tasks| - 1], tasks[|tasks| - 1];
      assert Cool(p, f, last, now);
      assert forall i :: 0 <= i < |front| ==> front[i] == tasks[i];
      FirstAppearIs(p, f, front, now);
      if FirstAppear(p, f, front) != 0 {
        var i :| 0 <= i < |front| && Eligible(p, f, front[i]) && front[i].appear == FirstAppear(p, f, front);
        assert Eligible(p, f, tasks[i]) && tasks[i].appear == FirstAppear(p, f, front);
      }
    }
  }

  lemma NotDueIsCool(r: Race, p: Policy, f: Facts, now: int)
    requires Open(r, now)
    ensures Due(r, p, f, now) <==> exists i :: 0 <= i < |r.tasks| && !Cool(p, f, r.tasks[i], now)
  {
    SelectedSome(p, f, r.tasks, now);
    if exists i :: 0 <= i < |r.tasks| && TakeSkip(p, f, r.tasks[i], now) == Take {
      var i :| 0 <= i < |r.tasks| && TakeSkip(p, f, r.tasks[i], now) == Take;
      assert !Cool(p, f, r.tasks[i], now);
    }
    if exists i :: 0 <= i < |r.tasks| && !Cool(p, f, r.tasks[i], now) {
      var i :| 0 <= i < |r.tasks| && !Cool(p, f, r.tasks[i], now);
      assert TakeSkip(p, f, r.tasks[i], now) == Take;
    }
  }

  /**
   A wake-up time lies in the future; until then taking is never due, and at that moment it is, provided the gates
   are still open then.
   */
  lemma WakeIsExact(r: Race, p: Policy, f: Facts, now: int, at: int)
    requires WakeAt(r, p, f, now).Some?
    ensures var wake := WakeAt(r, p, f, now).value;
            && now < wake
            && (now <= at < wake ==> !Due(r, p, f, at))
            && (Open(r, wake) ==> Due(r, p, f, wake))
  {
    var wake := WakeAt(r, p, f, now).value;
    NotDueIsCool(r, p, f, now);
    FirstAppearIs(p, f, r.tasks, now);
    var i :| 0 <= i < |r.tasks| && Eligible(p, f, r.tasks[i]) && r.tasks[i].appear == FirstAppear(p, f, r.tasks);
    assert Cool(p, f, r.tasks[i], now);
    if now <= at < wake && Open(r, at) {
      NotDueIsCool(r, p, f, at);
      forall j | 0 <= j < |r.tasks| ensures Cool(p, f, r.tasks[j], at) { assert Cool(p, f, r.tasks[j], now); }
    }
    if Open(r, wake) {
      NotDueIsCool(r, p, f, wake);
      assert !Cool(p, f, r.tasks[i], wake);
    }
  }

  ghost predicate NoneEligible(r: Race, p: Policy, f: Facts) {
    forall i :: 0 <= i < |r.tasks| ==> !Eligible(p, f, r.tasks[i])
  }

  lemma NoneEligibleNeverDue(r: Race, p: Policy, f: Facts, at: int)
    requires NoneEligible(r, p, f)
    ensures !Due(r, p, f, at)
  {
    if Open(r, at) { NotDueIsCool(r, p, f, at); }
  }

  /** With the gates open, zero means: due now, or no row that the clock alone could ever make due. */
  lemma ZeroWhileOpen(r: Race, p: Policy, f: Facts, now: int, at: int)
    requires Open(r, now)
    ensures WakeAt(r, p, f, now).None? <==> Due(r, p, f, now) || NoneEligible(r, p, f)
    ensures WakeAt(r, p, f, now).None? && !Due(r, p, f, now) ==> !Due(r, p, f, at)
  {
    NotDueIsCool(r, p, f, now);
    if !Due(r, p, f, now) {
      FirstAppearIs(p, f, r.tasks, now);
      if FirstAppear(p, f, r.tasks) == 0 { NoneEligibleNeverDue(r, p, f, at); }
    }
    if NoneEligible(r, p, f) { NoneEligibleNeverDue(r, p, f, now); }
  }

  /** From when on a row is off cooldown, seen from `now`. */
  function ReadyFrom(t: Task, now: int): int { if t.appear <= 0 then now else Max(now, t.appear - LEAD) }

  /** The first moment some eligible row is off cooldown. */
  function FirstReady(p: Policy, f: Facts, tasks: seq<Task>, now: int): Option<int> {
    if tasks == [] then None
    else
      var t, best := tasks[|tasks| - 1], FirstReady(p, f, tasks[..|tasks| - 1], now);
      if !Eligible(p, f, t) then best
      else if best.None? then Some(ReadyFrom(t, now)) else Some(Min(best.value, ReadyFrom(t, now)))
  }

  lemma {:induction false} FirstReadyIs(p: Policy, f: Facts, tasks: seq<Task>, now: int, at: int)
    requires now <= at
    ensures (exists i :: 0 <= i < |tasks| && !Cool(p, f, tasks[i], at)) <==>
              FirstReady(p, f, tasks, now).Some? && FirstReady(p, f, tasks, now).value <= at
    ensures FirstReady(p, f, tasks, now).Some? ==> FirstReady(p, f, tasks, now).value >= now
    ensures FirstReady(p, f, tasks, now).None? <==> forall i :: 0 <= i < |tasks| ==> !Eligible(p, f, tasks[i])
  {
    if tasks != [] {
      var front, last := tasks[..|tasks| - 1], tasks[|tasks| - 1];
      FirstReadyIs(p, f, front, now, at);
      assert forall i :: 0 <= i < |front| ==> front[i] == tasks[i];
      assert Cool(p, f, last, at) <==> (Eligible(p, f, last) ==> at < ReadyFrom(last, now));
      assert last == tasks[|tasks| - 1];
    }
  }

  /** The first moment at which hold, batch start and cooldowns are all past. */
  function Soonest(r: Race, now: int, ready: int): int {
    var held := if r.holdUntil.Some? then Max(ready, r.holdUntil.value) else ready;
    if r.batchStatus == 1 then held else Max(held, r.batchStart)
  }

  /**
   The guard: enabled, observed, fresh, quota open, some eligible row, a hold that ends if there is one, and a batch
   that is running or will still be when hold, start and cooldowns are past.
   */
  predicate ComesDue(r: Race, p: Policy, f: Facts, now: int) {
    var ready := FirstReady(p, f, r.tasks, now);
    && r.enabled && r.tasksObserved && !r.poolStale && !r.quotaDone
    && ready.Some? && (r.holdUntil.Some? ==> r.holdUntil.value > 0)
    && (r.batchStatus == 1 ||
        (r.batchStatus != 2 && 0 < r.batchStart < r.batchEnd && Soonest(r, now, ready.value) < r.batchEnd))
  }

  lemma OpenExactly(r: Race, now: int, at: int, ready: int)
    requires now <= at && now <= ready
    ensures Open(r, at) && ready <= at <==>
              && r.enabled && r.tasksObserved && !r.poolStale && !r.quotaDone
              && (r.holdUntil.Some? ==> r.holdUntil.value > 0)
              && (r.batchStatus == 1 || (r.batchStatus != 2 && 0 < r.batchStart < r.batchEnd && at < r.batchEnd))
              && Soonest(r, now, ready) <= at
  {
  }

  /** Taking is due at a later moment exactly if the guard holds, that moment is not too soon, and the batch still runs. */
  lemma DueExactly(r: Race, p: Policy, f: Facts, now: int, at: int)
    requires now <= at
    ensures Due(r, p, f, at) <==>
              && ComesDue(r, p, f, now) && Soonest(r, now, FirstReady(p, f, r.tasks, now).value) <= at
              && (r.batchStatus == 1 || at < r.batchEnd)
  {
    FirstReadyIs(p, f, r.tasks, now, at);
    if Open(r, at) { NotDueIsCool(r, p, f, at); }
    if FirstReady(p, f, r.tasks, now).Some? { OpenExactly(r, now, at, FirstReady(p, f, r.tasks, now).value); }
  }

  /**
   What the zero time means. With nothing due now and no wake-up time given, taking never comes due by the clock alone
   exactly if the guard fails. If it holds, the gates are closed now, and the moment that was missed is the soonest
   one: due then and not before.
   */
  lemma WakeMissedExactly(r: Race, p: Policy, f: Facts, now: int)
    requires WakeAt(r, p, f, now).None? && !Due(r, p, f, now)
    ensures (forall at :: now <= at ==> !Due(r, p, f, at)) <==> !ComesDue(r, p, f, now)
    ensures ComesDue(r, p, f, now) ==>
              var soonest := Soonest(r, now, FirstReady(p, f, r.tasks, now).value);
              !Open(r, now) && now < soonest && Due(r, p, f, soonest) && forall at :: now <= at < soonest ==> !Due(r, p, f, at)
  {
    forall at | now <= at
      ensures Due(r, p, f, at) <==> && ComesDue(r, p, f, now) && Soonest(r, now, FirstReady(p, f, r.tasks, now).value) <= at
                                    && (r.batchStatus == 1 || at < r.batchEnd)
    {
      DueExactly(r, p, f, now, at);
    }
    FirstReadyIs(p, f, r.tasks, now, now);
    hide *;
    if ComesDue(r, p, f, now) {
      SoonestIsLate(r, p, f, now);
      MissedOnlyWhileClosed(r, p, f, now);
      assert Due(r, p, f, Soonest(r, now, FirstReady(p, f, r.tasks, now).value));
    }
  }

  lemma SoonestIsLate(r: Race, p: Policy, f: Facts, now: int)
    requires ComesDue(r, p, f, now)
    ensures var soonest := Soonest(r, now, FirstReady(p, f, r.tasks, now).value);
            soonest >= now && (r.batchStatus == 1 || soonest < r.batchEnd)
  {
    FirstReadyIs(p, f, r.tasks, now, now);
  }

  lemma MissedOnlyWhileClosed(r: Race, p: Policy, f: Facts, now: int)
    requires WakeAt(r, p, f, now).None? && !Due(r, p, f, now) && ComesDue(r, p, f, now)
    ensures !Open(r, now)
  {
    if Open(r, now) {
      ZeroWhileOpen(r, p, f, now, now);
      FirstReadyIs(p, f, r.tasks, now, now);
    }
  }

  /** A wake-up time that is given is that soonest moment; the batch may be over by then. */
  lemma WakeIsSoonest(r: Race, p: Policy, f: Facts, now: int)
    requires WakeAt(r, p, f, now).Some?
    ensures FirstReady(p, f, r.tasks, now).Some?
    ensures WakeAt(r, p, f, now).value == Soonest(r, now, FirstReady(p, f, r.tasks, now).value)
  {
    var wake := WakeAt(r, p, f, now).value;
    NotDueIsCool(r, p, f, now);
    forall i | 0 <= i < |r.tasks| ensures Cool(p, f, r.tasks[i], now) {
    }
    FirstAppearIs(p, f, r.tasks, now);
    FirstReadyIs(p, f, r.tasks, now, now);
    FirstReadyIs(p, f, r.tasks, now, wake);
    FirstReadyIs(p, f, r.tasks, now, wake - 1);
  }

  /** A held task that runs out makes a row due by the clock alone, with no wake-up time for that moment. */
  lemma ExpiringHoldHasNoWake(r: Race, p: Policy, f: Facts, now: int)
    requires r.holdUntil.Some? && now < r.holdUntil.value && ComesDue(r, p, f, now)
    ensures WakeAt(r, p, f, now).None? && !Due(r, p, f, now) && exists at :: now < at && Due(r, p, f, at)
  {
    WakeMissedExactly(r, p, f, now);
  }

  /** So does a batch that starts later. */
  lemma ComingBatchHasNoWake(r: Race, p: Policy, f: Facts, now: int)
    requires r.batchStatus != 1 && now < r.batchStart && ComesDue(r, p, f, now)
    ensures WakeAt(r, p, f, now).None? && !Due(r, p, f, now) && exists at :: now < at && Due(r, p, f, at)
  {
    WakeMissedExactly(r, p, f, now);
  }

  // ----- as it is computed -----

  /** The row loop of `RaceTakeWakeAt`. */
  method RaceTakeWakeAt(r: Race, p: Policy, f: Facts, now: int) returns (wake: Option<int>)
    ensures wake == WakeAt(r, p, f, now)
  {
    hide NonCdSkip, Selected, Active;
    if !Open(r, now) { return None; }
    NotDueIsCool(r, p, f, now);
    var best := 0;
    var takeableNow := false;
    for i := 0 to |r.tasks|
      invariant takeableNow <==> exists j :: 0 <= j < i && !Cool(p, f, r.tasks[j], now)
      invariant !takeableNow ==> best == FirstAppear(p, f, r.tasks[..i])
    {
      var t := r.tasks[i];
      assert r.tasks[..i + 1][..i] == r.tasks[..i];
      if t.uid != 0 { continue; }
      if NonCdSkip(p, f, t) != Take { continue; }
      if t.appear <= 0 || t.appear <= now || t.appear - now <= LEAD {
        takeableNow := true;
        continue;
      }
      if best == 0 || t.appear < best { best := t.appear; }
    }
    assert r.tasks[..|r.tasks|] == r.tasks;
    if takeableNow || best == 0 { return None; }
    return Some(best - LEAD);
  }

  /** `selectRaceTasks` */
  method SelectRaceTasks(p: Policy, f: Facts, tasks: seq<Task>, now: int) returns (picked: seq<Task>)
    ensures picked == Selected(p, f, tasks, now)
  {
    var ready: seq<Task>, upcoming: seq<Task> := [], [];
    for i := 0 to |tasks|
      invariant ready == Filtered(p, f, tasks[..i], now, false) && upcoming == Filtered(p, f, tasks[..i], now, true)
    {
      assert tasks[..i + 1][..i] == tasks[..i];
      var t := tasks[i];
      if TakeSkip(p, f, t, now) != Take { continue; }
      if t.appear > 0 && t.appear > now {
        upcoming := upcoming + [t];
        continue;
      }
      ready := ready + [t];
    }
    assert tasks[..|tasks|] == tasks;
    ready := Ranked(p, ready);
    if |ready| > 0 { return ready; }
    return Ranked(p, upcoming);
  }
}
