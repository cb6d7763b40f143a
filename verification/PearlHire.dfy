/**
 The pearl-hire planner: every tick it either asks for one missing piece of evidence, hires one worker whose
 evidence is complete, or says why it cannot. Times are milliseconds.
 */
module PearlHire {
  import opened Common

  const CACHE_TTL := 300000
  const SPEND_TTL := 30000
  const TICKET := 1003
  const MAX_INT64 := 0x7FFF_FFFF_FFFF_FFFF

  type Uid = int

  /** A slot's occupant and the end of the shift; either may not have been observed. */
  datatype Place = Place(uidSeen: bool, uid: Uid, endSeen: bool, end: int)

  datatype Profile = Profile(observedAt: int, levelSeen: bool, level: int)

  datatype HireState = HireState(observedAt: int, laborEnd: int)

  datatype Enemy = Enemy(uid: Uid, eventTime: int)

  datatype View = View(roleId: Uid, tickets: int, usedToday: int, places: map<int, Place>,
                       friends: seq<Uid>, friendsSeen: bool, recommended: seq<Uid>, recommendedAt: int,
                       enemies: seq<Enemy>, enemiesSeen: bool,
                       profiles: map<Uid, Profile>, hireStates: map<Uid, HireState>,
                       failedUntil: map<Uid, int>, skipped: set<Uid>, locked: bool)

  /** Catalog constants; a slot maps to whether it needs the monthly card. */
  datatype Config = Config(known: bool, ticketItem: int, restSeconds: int, enemyMaxDays: int, slots: map<int, bool>)

  datatype Policy = Policy(autoHire: bool, maxWorkers: int, maxLevel: int, dailyLimit: int)

  datatype Source = Friends | Recommended | Enemies

  datatype Block =
    | NoWorkersAllowed | NegativeLevel | NegativeDaily | NoCatalog | UnknownSelf | SessionLocked | NoTicket | DailyDone
    | WorkersUnknown | EnoughWorkers | NoSlot | NoCandidate

  /** The operation of one tick, without its queue metadata. */
  datatype Step =
    | Off
    | Blocked(block: Block)
    | SyncList(source: Source)
    | SyncProfiles(source: Source, uids: seq<Uid>)
    | SyncHireStates(source: Source, uids: seq<Uid>)
    | Hire(place: int, uid: Uid)

  predicate CacheFresh(at: int, now: int) { at > 0 && 0 <= now - at < CACHE_TTL }

  // ----- workers and slots -----

  predicate PlaceKnown(p: Place) {
    p.uidSeen && p.endSeen && p.uid >= 0 && p.end >= 0 && (p.uid == 0 <==> p.end == 0)
  }

  predicate WorkersKnown(places: map<int, Place>) { forall id :: id in places ==> PlaceKnown(places[id]) }

  function ActiveUids(places: map<int, Place>): set<Uid> { set id | id in places && places[id].uid > 0 :: places[id].uid }

  function Working(places: map<int, Place>, now: int): set<int> {
    set id | id in places && places[id].uid > 0 && places[id].end > now
  }

  predicate SlotFree(p: Place, now: int) { (p.uid == 0 && p.end == 0) || (p.uid > 0 && 0 < p.end <= now) }

  predicate SafeSlot(v: View, c: Config, now: int, id: int) {
    id in c.slots && !c.slots[id] && id in v.places && v.places[id].uidSeen && v.places[id].endSeen && SlotFree(v.places[id], now)
  }

  function SafeSlots(v: View, c: Config, now: int): set<int> { set id | id in c.slots && SafeSlot(v, c, now, id) }

  // ----- candidates -----

  predicate Admitted(v: View, now: int, uid: Uid) {
    && uid > 0 && uid != v.roleId && uid !in ActiveUids(v.places)
    && (uid in v.failedUntil ==> v.failedUntil[uid] <= now) && uid !in v.skipped
  }

  /** `filterPearlCandidateUIDs`: admitted, not seen in an earlier source, each once. */
  function Kept(v: View, now: int, input: seq<Uid>, seen: set<Uid>): seq<Uid> {
    if input == [] then []
    else
      var front, uid := Kept(v, now, input[..|input| - 1], seen), input[|input| - 1];
      if Admitted(v, now, uid) && uid !in seen && uid !in front then front + [uid] else front
  }

  function AsSet(uids: seq<Uid>): set<Uid> { set uid | uid in uids }

  datatype Verdict = StaleProfile | LevelUnknown | LevelTooHigh | StaleState | RestInvalid | Protected | Ready

  function Judge(v: View, c: Config, p: Policy, now: int, uid: Uid): Verdict {
    if uid !in v.profiles || !CacheFresh(v.profiles[uid].observedAt, now) then StaleProfile
    else if !v.profiles[uid].levelSeen || v.profiles[uid].level <= 0 then LevelUnknown
    else if p.maxLevel > 0 && v.profiles[uid].level > p.maxLevel then LevelTooHigh
    else if uid !in v.hireStates || !CacheFresh(v.hireStates[uid].observedAt, now) then StaleState
    else
      var laborEnd, rest := v.hireStates[uid].laborEnd, c.restSeconds * 1000;
      if laborEnd > MAX_INT64 - rest then RestInvalid
      else if laborEnd > 0 && now < laborEnd + rest then Protected
      else Ready
  }

  function WithVerdict(v: View, c: Config, p: Policy, now: int, uids: seq<Uid>, verdict: Verdict): seq<Uid> {
    if uids == [] then []
    else
      WithVerdict(v, c, p, now, uids[..|uids| - 1], verdict)
      + if Judge(v, c, p, now, uids[|uids| - 1]) == verdict then [uids[|uids| - 1]] else []
  }

  /** `planPearlCandidateSource`: hire the first ready one, else ask for profiles, else for hire states. */
  function SourceStep(v: View, c: Config, p: Policy, now: int, source: Source, uids: seq<Uid>, place: int): Option<Step> {
    var ready := WithVerdict(v, c, p, now, uids, Ready);
    var profiles := WithVerdict(v, c, p, now, uids, StaleProfile);
    var states := WithVerdict(v, c, p, now, uids, StaleState);
    if ready != [] then Some(Hire(place, ready[0]))
    else if profiles != [] then Some(SyncProfiles(source, profiles))
    else if states != [] then Some(SyncHireStates(source, states))
    else None
  }

  /** `pearlEnemyUIDs`: enemies of the last days, in their order. */
  function EnemyUids(enemies: seq<Enemy>, maxDays: int, now: int): seq<Uid> {
    if enemies == [] then []
    else
      var e := enemies[|enemies| - 1];
      EnemyUids(enemies[..|enemies| - 1], maxDays, now)
      + if maxDays > 0 && e.uid > 0 && now - maxDays * 86400000 <= e.eventTime <= now then [e.uid] else []
  }

  /** The three candidate lists, each without what an earlier one has. */
  function Candidates(v: View, c: Config, now: int, source: Source): seq<Uid>
    decreases match source case Friends => 0 case Recommended => 1 case Enemies => 2
  {
    match source
    case Friends => Kept(v, now, v.friends, {})
    case Recommended => Kept(v, now, v.recommended, AsSet(Candidates(v, c, now, Friends)))
    case Enemies =>
      Kept(v, now, EnemyUids(v.enemies, c.enemyMaxDays, now),
           AsSet(Candidates(v, c, now, Friends)) + AsSet(Candidates(v, c, now, Recommended)))
  }

  // ----- the planner -----

  /** The gates before any candidate is looked at. */
  function Gate(v: View, c: Config, p: Policy, now: int): Option<Block> {
    if p.maxWorkers <= 0 then Some(NoWorkersAllowed)
    else if p.maxLevel < 0 then Some(NegativeLevel)
    else if p.dailyLimit < 0 then Some(NegativeDaily)
    else if !c.known || c.ticketItem != TICKET then Some(NoCatalog)
    else if v.roleId <= 0 then Some(UnknownSelf)
    else if v.locked then Some(SessionLocked)
    else if v.tickets < 1 then Some(NoTicket)
    else if p.dailyLimit > 0 && v.usedToday >= p.dailyLimit then Some(DailyDone)
    else if !WorkersKnown(v.places) then Some(WorkersUnknown)
    else if |Working(v.places, now)| >= p.maxWorkers then Some(EnoughWorkers)
    else if SafeSlots(v, c, now) == {} then Some(NoSlot)
    else None
  }

  predicate Listed(v: View, now: int, source: Source) {
    match source
    case Friends => v.friendsSeen
    case Recommended => CacheFresh(v.recommendedAt, now)
    case Enemies => v.enemiesSeen
  }

  function SourceOrSync(v: View, c: Config, p: Policy, now: int, source: Source, place: int): Option<Step> {
    if !Listed(v, now, source) then Some(SyncList(source))
    else SourceStep(v, c, p, now, source, Candidates(v, c, now, source), place)
  }

  /** `planOneSafePearlHire` */
  function Plan(v: View, c: Config, p: Policy, now: int): Step {
    if !p.autoHire then Off
    else if Gate(v, c, p, now).Some? then Blocked(Gate(v, c, p, now).value)
    else
      var place := Least(SafeSlots(v, c, now));
      var one := SourceOrSync(v, c, p, now, Friends, place);
      if one.Some? then one.value
      else
        var two := SourceOrSync(v, c, p, now, Recommended, place);
        if two.Some? then two.value
        else
          var three := SourceOrSync(v, c, p, now, Enemies, place);
          if three.Some? then three.value else Blocked(NoCandidate)
  }

  // ----- the filtered sources -----

  lemma {:induction false} KeptMembers(v: View, now: int, input: seq<Uid>, seen: set<Uid>)
    ensures forall uid: Uid :: uid in Kept(v, now, input, seen) <==> uid in input && Admitted(v, now, uid) && uid !in seen
    ensures Distinct(Kept(v, now, input, seen))
  {
    if input != [] {
      var rest, last := input[..|input| - 1], input[|input| - 1];
      KeptMembers(v, now, rest, seen);
      assert forall uid: Uid :: uid in input <==> uid in rest || uid == last;
      var front := Kept(v, now, rest, seen);
      assert forall i :: 0 <= i < |front| ==> front[i] in front;
    }
  }

  /** No candidate is offered twice: each list is free of duplicates and the three have nothing in common. */
  lemma SourcesAreDisjoint(v: View, c: Config, now: int)
    ensures Distinct(Candidates(v, c, now, Friends)) && Distinct(Candidates(v, c, now, Recommended))
            && Distinct(Candidates(v, c, now, Enemies))
    ensures forall uid: Uid :: uid in Candidates(v, c, now, Friends) ==>
              uid !in Candidates(v, c, now, Recommended) && uid !in Candidates(v, c, now, Enemies)
    ensures forall uid: Uid :: uid in Candidates(v, c, now, Recommended) ==> uid !in Candidates(v, c, now, Enemies)
  {
    CandidatesAre(v, c, now);
  }

  /** Whoever is listed by a source as it is. */
  function RawList(v: View, c: Config, now: int, source: Source): seq<Uid> {
    match source
    case Friends => v.friends
    case Recommended => v.recommended
    case Enemies => EnemyUids(v.enemies, c.enemyMaxDays, now)
  }

  lemma CandidatesAre(v: View, c: Config, now: int)
    ensures Distinct(Candidates(v, c, now, Friends)) && Distinct(Candidates(v, c, now, Recommended))
            && Distinct(Candidates(v, c, now, Enemies))
    ensures forall uid: Uid :: uid in Candidates(v, c, now, Friends) <==>
              uid in RawList(v, c, now, Friends) && Admitted(v, now, uid)
    ensures forall uid: Uid :: uid in Candidates(v, c, now, Recommended) <==>
              uid in RawList(v, c, now, Recommended) && Admitted(v, now, uid) && uid !in Candidates(v, c, now, Friends)
    ensures forall uid: Uid :: uid in Candidates(v, c, now, Enemies) <==>
              uid in RawList(v, c, now, Enemies) && Admitted(v, now, uid)
              && uid !in Candidates(v, c, now, Friends) && uid !in Candidates(v, c, now, Recommended)
  {
    var friends := Candidates(v, c, now, Friends);
    KeptMembers(v, now, v.friends, {});
    KeptMembers(v, now, v.recommended, AsSet(friends));
    var recommended := Candidates(v, c, now, Recommended);
    KeptMembers(v, now, EnemyUids(v.enemies, c.enemyMaxDays, now), AsSet(friends) + AsSet(recommended));
  }

  /** Somebody listed, by whatever source. */
  predicate ListedBy(v: View, c: Config, now: int, uid: Uid) {
    uid in v.friends || uid in v.recommended || uid in EnemyUids(v.enemies, c.enemyMaxDays, now)
  }

  lemma AllListedAreCandidates(v: View, c: Config, now: int, uid: Uid)
    ensures (uid in Candidates(v, c, now, Friends) || uid in Candidates(v, c, now, Recommended) || uid in Candidates(v, c, now, Enemies))
            <==> ListedBy(v, c, now, uid) && Admitted(v, now, uid)
  {
    CandidatesAre(v, c, now);
  }

  lemma {:induction false} VerdictMembers(v: View, c: Config, p: Policy, now: int, uids: seq<Uid>, verdict: Verdict)
    ensures forall uid: Uid :: uid in WithVerdict(v, c, p, now, uids, verdict) <==>
              uid in uids && Judge(v, c, p, now, uid) == verdict
  {
    if uids != [] {
      VerdictMembers(v, c, p, now, uids[..|uids| - 1], verdict);
      assert forall uid: Uid :: uid in uids <==> uid in uids[..|uids| - 1] || uid == uids[|uids| - 1];
    }
  }

  // ----- soundness -----

  /** Everything a hire must be backed by. */
  predicate SafeHire(v: View, c: Config, p: Policy, now: int, place: int, uid: Uid) {
    && p.autoHire && p.maxLevel >= 0 && c.known && c.ticketItem == TICKET && v.roleId > 0 && !v.locked
    && v.tickets >= 1 && (p.dailyLimit == 0 || v.usedToday < p.dailyLimit)
    && WorkersKnown(v.places) && |Working(v.places, now)| < p.maxWorkers
    && SafeSlot(v, c, now, place) && (forall id :: id in c.slots && SafeSlot(v, c, now, id) ==> place <= id)
    && ListedBy(v, c, now, uid) && Admitted(v, now, uid)
    && Judge(v, c, p, now, uid) == Ready
  }

  lemma GateMeans(v: View, c: Config, p: Policy, now: int)
    requires p.autoHire && Gate(v, c, p, now).None?
    ensures p.maxLevel >= 0 && c.known && c.ticketItem == TICKET && v.roleId > 0 && !v.locked
            && v.tickets >= 1 && (p.dailyLimit == 0 || v.usedToday < p.dailyLimit)
            && WorkersKnown(v.places) && |Working(v.places, now)| < p.maxWorkers && SafeSlots(v, c, now) != {}
    ensures SafeSlot(v, c, now, Least(SafeSlots(v, c, now)))
    ensures forall id: int :: id in c.slots && SafeSlot(v, c, now, id) ==> Least(SafeSlots(v, c, now)) <= id
  {
    var place := Least(SafeSlots(v, c, now));
    assert place in SafeSlots(v, c, now);
    forall id: int | id in c.slots && SafeSlot(v, c, now, id) ensures place <= id { assert id in SafeSlots(v, c, now); }
  }

  lemma SourceHires(v: View, c: Config, p: Policy, now: int, source: Source, place: int)
    requires SourceOrSync(v, c, p, now, source, place).Some? && SourceOrSync(v, c, p, now, source, place).value.Hire?
    ensures var step := SourceOrSync(v, c, p, now, source, place).value;
            && step.place == place && step.uid in Candidates(v, c, now, source)
            && Judge(v, c, p, now, step.uid) == Ready
  {
    var uids := Candidates(v, c, now, source);
    VerdictMembers(v, c, p, now, uids, Ready);
    var ready := WithVerdict(v, c, p, now, uids, Ready);
    assert ready[0] in ready;
  }

  /** A planned hire passes every gate: slot, tickets, limits, source, filters, level and protection. */
  lemma HireIsSafe(v: View, c: Config, p: Policy, now: int)
    requires Plan(v, c, p, now).Hire?
    ensures SafeHire(v, c, p, now, Plan(v, c, p, now).place, Plan(v, c, p, now).uid)
  {
    GateMeans(v, c, p, now);
    var place := Least(SafeSlots(v, c, now));
    var step := Plan(v, c, p, now);
    hide Gate, SafeSlot, Candidates, Judge, WorkersKnown, Working, SafeSlots, SourceStep;
    var source := if SourceOrSync(v, c, p, now, Friends, place).Some? then Friends
                  else if SourceOrSync(v, c, p, now, Recommended, place).Some? then Recommended else Enemies;
    assert SourceOrSync(v, c, p, now, source, place) == Some(step);
    SourceHires(v, c, p, now, source, place);
    AllListedAreCandidates(v, c, now, step.uid);
  }

  // ----- completeness -----

  /** Fresh evidence rules the candidate out, or a filter does. */
  predicate KnownIneligible(v: View, c: Config, p: Policy, now: int, uid: Uid) {
    !Admitted(v, now, uid) || Judge(v, c, p, now, uid) in {LevelUnknown, LevelTooHigh, RestInvalid, Protected}
  }

  lemma NoneWith(v: View, c: Config, p: Policy, now: int, uids: seq<Uid>, verdict: Verdict)
    ensures WithVerdict(v, c, p, now, uids, verdict) == [] <==>
              forall uid: Uid :: uid in uids ==> Judge(v, c, p, now, uid) != verdict
  {
    VerdictMembers(v, c, p, now, uids, verdict);
    var hits := WithVerdict(v, c, p, now, uids, verdict);
    if hits == [] {
      forall uid: Uid | uid in uids ensures Judge(v, c, p, now, uid) != verdict { assert uid !in hits; }
    } else {
      assert hits[0] in hits;
    }
  }

  lemma SourceIsDone(v: View, c: Config, p: Policy, now: int, source: Source, place: int)
    ensures SourceOrSync(v, c, p, now, source, place).None? <==>
              Listed(v, now, source) && forall uid: Uid :: uid in Candidates(v, c, now, source) ==> KnownIneligible(v, c, p, now, uid)
  {
    var uids := Candidates(v, c, now, source);
    CandidatesAre(v, c, now);
    hide Candidates, Kept, Admitted, Judge, WithVerdict, Listed;
    NoneWith(v, c, p, now, uids, Ready);
    NoneWith(v, c, p, now, uids, StaleProfile);
    NoneWith(v, c, p, now, uids, StaleState);
    assert forall uid: Uid :: uid in uids ==> Admitted(v, now, uid);
    forall uid: Uid | uid in uids ensures KnownIneligible(v, c, p, now, uid) <==>
        Judge(v, c, p, now, uid) != Ready && Judge(v, c, p, now, uid) != StaleProfile && Judge(v, c, p, now, uid) != StaleState {
    }
  }

  /**
   The planner gives up for want of a candidate exactly when the gates are open, all three lists are known, and
   everybody on them is known not to be eligible.
   */
  lemma GivesUpExactly(v: View, c: Config, p: Policy, now: int)
    requires p.autoHire && Gate(v, c, p, now).None?
    ensures Plan(v, c, p, now) == Blocked(NoCandidate) <==>
              && Listed(v, now, Friends) && Listed(v, now, Recommended) && Listed(v, now, Enemies)
              && forall uid: Uid :: ListedBy(v, c, now, uid) ==> KnownIneligible(v, c, p, now, uid)
  {
    GateMeans(v, c, p, now);
    var place := Least(SafeSlots(v, c, now));
    SourceIsDone(v, c, p, now, Friends, place);
    SourceIsDone(v, c, p, now, Recommended, place);
    SourceIsDone(v, c, p, now, Enemies, place);
    forall uid: Uid ensures
      (uid in Candidates(v, c, now, Friends) || uid in Candidates(v, c, now, Recommended) || uid in Candidates(v, c, now, Enemies))
      <==> ListedBy(v, c, now, uid) && Admitted(v, now, uid) {
      AllListedAreCandidates(v, c, now, uid);
    }
    SourceNeverGivesUp(v, c, p, now, Friends, place);
    SourceNeverGivesUp(v, c, p, now, Recommended, place);
    SourceNeverGivesUp(v, c, p, now, Enemies, place);
    hide SourceOrSync, Candidates, Judge, Listed, Gate, ListedBy, Admitted;
  }

  lemma SourceNeverGivesUp(v: View, c: Config, p: Policy, now: int, source: Source, place: int)
    ensures SourceOrSync(v, c, p, now, source, place).Some? ==> !SourceOrSync(v, c, p, now, source, place).value.Blocked?
  {
  }

  // ----- progress -----

  predicate IsSync(step: Step) { step.SyncList? || step.SyncProfiles? || step.SyncHireStates? }

  predicate FreshProfile(v: View, now: int, uid: Uid) { uid in v.profiles && CacheFresh(v.profiles[uid].observedAt, now) }

  predicate FreshState(v: View, now: int, uid: Uid) { uid in v.hireStates && CacheFresh(v.hireStates[uid].observedAt, now) }

  predicate SameLists(v: View, w: View, now: int) {
    && w.friends == v.friends && w.recommended == v.recommended && w.enemies == v.enemies
    && w.friendsSeen == v.friendsSeen && w.recommendedAt == v.recommendedAt && w.enemiesSeen == v.enemiesSeen
  }

  /**
   The server answered a synchronisation: the list asked for is known, with whatever content; or the profiles or
   hire states asked for are fresh. Nothing known before gets lost; everything else may change.
   */
  ghost predicate Answered(v: View, step: Step, w: View, now: int) {
    match step
    case SyncList(source) =>
      Listed(w, now, source) && forall s: Source :: Listed(v, now, s) ==> Listed(w, now, s)
    case SyncProfiles(_, uids) =>
      SameLists(v, w, now)
      && forall uid: Uid :: uid in uids || FreshProfile(v, now, uid) ==> FreshProfile(w, now, uid)
    case SyncHireStates(_, uids) =>
      SameLists(v, w, now)
      && (forall uid: Uid :: FreshProfile(v, now, uid) ==> FreshProfile(w, now, uid))
      && forall uid: Uid :: uid in uids || FreshState(v, now, uid) ==> FreshState(w, now, uid)
    case _ => false
  }

  /** How many of the three lists are unknown. */
  function Unlisted(v: View, now: int): nat {
    (if Listed(v, now, Friends) then 0 else 1) + (if Listed(v, now, Recommended) then 0 else 1)
    + (if Listed(v, now, Enemies) then 0 else 1)
  }

  function Everybody(v: View, c: Config, now: int): set<Uid> {
    AsSet(v.friends) + AsSet(v.recommended) + AsSet(EnemyUids(v.enemies, c.enemyMaxDays, now))
  }

  function StaleProfiles(v: View, c: Config, now: int): set<Uid> {
    set uid | uid in Everybody(v, c, now) && !FreshProfile(v, now, uid)
  }

  function StaleStates(v: View, c: Config, now: int): set<Uid> {
    set uid | uid in Everybody(v, c, now) && !FreshState(v, now, uid)
  }

  /** What is still missing: unknown lists, then stale profiles, then stale hire states. */
  predicate Less(v: View, w: View, c: Config, now: int) {
    || Unlisted(w, now) < Unlisted(v, now)
    || (Unlisted(w, now) == Unlisted(v, now)
        && (|StaleProfiles(w, c, now)| < |StaleProfiles(v, c, now)|
            || (|StaleProfiles(w, c, now)| == |StaleProfiles(v, c, now)| && |StaleStates(w, c, now)| < |StaleStates(v, c, now)|)))
  }

  lemma SmallerSet<T>(small: set<T>, large: set<T>, x: T)
    requires small <= large && x in large && x !in small
    ensures |small| < |large|
  {
    SubsetSize(small, large - {x});
  }

  lemma SyncAsksForMissing(v: View, c: Config, p: Policy, now: int)
    requires IsSync(Plan(v, c, p, now))
    ensures var step := Plan(v, c, p, now);
            match step
            case SyncList(source) => !Listed(v, now, source)
            case SyncProfiles(_, uids) => |uids| > 0 && forall uid: Uid :: uid in uids ==> uid in StaleProfiles(v, c, now)
            case SyncHireStates(_, uids) => |uids| > 0 && forall uid: Uid :: uid in uids ==> uid in StaleStates(v, c, now)
            case _ => true
  {
    GateMeans(v, c, p, now);
    var place := Least(SafeSlots(v, c, now));
    SourceAsksForMissing(v, c, p, now, Friends, place);
    SourceAsksForMissing(v, c, p, now, Recommended, place);
    SourceAsksForMissing(v, c, p, now, Enemies, place);
    hide SourceOrSync, Gate, StaleProfiles, StaleStates, Listed;
  }

  lemma SourceAsksForMissing(v: View, c: Config, p: Policy, now: int, source: Source, place: int)
    ensures SourceOrSync(v, c, p, now, source, place).Some? ==>
              match SourceOrSync(v, c, p, now, source, place).value
              case SyncList(s) => !Listed(v, now, s)
              case SyncProfiles(_, uids) => |uids| > 0 && forall uid: Uid :: uid in uids ==> uid in StaleProfiles(v, c, now)
              case SyncHireStates(_, uids) => |uids| > 0 && forall uid: Uid :: uid in uids ==> uid in StaleStates(v, c, now)
              case _ => true
  {
    var uids := Candidates(v, c, now, source);
    VerdictMembers(v, c, p, now, uids, StaleProfile);
    VerdictMembers(v, c, p, now, uids, StaleState);
    CandidatesInEverybody(v, c, now, source);
    hide Candidates, WithVerdict, Everybody, Listed;
  }

  lemma CandidatesInEverybody(v: View, c: Config, now: int, source: Source)
    ensures forall uid: Uid :: uid in Candidates(v, c, now, source) ==> uid in Everybody(v, c, now)
  {
    CandidatesAre(v, c, now);
  }

  /** With time standing still every answered synchronisation leaves strictly less missing. */
  lemma AnswerMakesProgress(v: View, c: Config, p: Policy, now: int, w: View)
    requires IsSync(Plan(v, c, p, now)) && Answered(v, Plan(v, c, p, now), w, now)
    ensures Less(v, w, c, now)
  {
    SyncAsksForMissing(v, c, p, now);
    var step := Plan(v, c, p, now);
    hide Plan;
    if step.SyncList? {
      ListProgress(v, w, now, step.source);
    } else if step.SyncProfiles? {
      assert StaleProfiles(w, c, now) <= StaleProfiles(v, c, now);
      SmallerSet(StaleProfiles(w, c, now), StaleProfiles(v, c, now), step.uids[0]);
    } else {
      assert StaleProfiles(w, c, now) <= StaleProfiles(v, c, now);
      SubsetSize(StaleProfiles(w, c, now), StaleProfiles(v, c, now));
      SmallerSet(StaleStates(w, c, now), StaleStates(v, c, now), step.uids[0]);
    }
  }

  lemma ListProgress(v: View, w: View, now: int, source: Source)
    requires !Listed(v, now, source) && Listed(w, now, source)
    requires forall s: Source :: Listed(v, now, s) ==> Listed(w, now, s)
    ensures Unlisted(w, now) < Unlisted(v, now)
  {
    hide Listed;
    assert Listed(v, now, Friends) ==> Listed(w, now, Friends);
    assert Listed(v, now, Recommended) ==> Listed(w, now, Recommended);
    assert Listed(v, now, Enemies) ==> Listed(w, now, Enemies);
  }

  /**
   So the planner decides: whatever the server answers, as long as it answers, after finitely many synchronisations
   there is a hire or a reason not to hire.
   */
  ghost function Decision(v: View, c: Config, p: Policy, now: int, server: View -> View): (step: Step)
    requires forall w: View :: IsSync(Plan(w, c, p, now)) ==> Answered(w, Plan(w, c, p, now), server(w), now)
    ensures !IsSync(step)
    decreases Unlisted(v, now), |StaleProfiles(v, c, now)|, |StaleStates(v, c, now)|
  {
    var step := Plan(v, c, p, now);
    if !IsSync(step) then step
    else
      AnswerMakesProgress(v, c, p, now, server(v));
      Decision(server(v), c, p, now, server)
  }

  // ----- validation before the request is sent -----

  /** Queue metadata an activity or race driver may put on the operation. */
  datatype Intent = Intent(goal: string, reason: string)

  /** A queued pearl operation; `target` and `uid` are zero unless it is a hire. */
  datatype Op = Op(isHire: bool, goal: string, reason: string, target: int, uid: Uid,
                   count: int, goldCost: int, diamondCost: int, itemCost: map<int, int>)

  function DefaultReason(step: Step): string {
    match step case Blocked(_) => "blocked" case Hire(_, _) => "candidate passed" case _ => "sync"
  }

  function OpFor(step: Step, intent: Intent): Op {
    var goal := if intent.goal == "" then "basic.pearl" else intent.goal;
    if step.Hire? then
      Op(true, goal, if intent.reason == "" then DefaultReason(step) else intent.reason, step.place, step.uid,
         1, 0, 0, map[TICKET := 1])
    else Op(false, goal, DefaultReason(step), 0, 0, 0, 0, 0, map[])
  }

  /** `ValidatePearlHireCandidate`: the same planner is run again with the operation's own metadata. */
  predicate Validated(v: View, c: Config, p: Policy, now: int, op: Op) {
    var planned := OpFor(Plan(v, c, p, now), Intent(op.goal, op.reason));
    && planned.isHire && planned.target == op.target && planned.uid == op.uid
    && op.count == 1 && op.goldCost == 0 && op.diamondCost == 0 && op.itemCost == map[TICKET := 1]
  }

  predicate SpendFresh(at: int, now: int) { at > 0 && 0 <= now - at < SPEND_TTL }

  /** `PearlHireCandidateFresh` */
  predicate CandidateFresh(v: View, now: int, uid: Uid) {
    && uid > 0 && uid in v.profiles && uid in v.hireStates
    && v.profiles[uid].levelSeen && v.profiles[uid].level > 0
    && SpendFresh(v.profiles[uid].observedAt, now) && SpendFresh(v.hireStates[uid].observedAt, now)
  }

  /** `ValidateSafePearlHire` */
  predicate ValidatedSafe(v: View, c: Config, p: Policy, now: int, op: Op) {
    Validated(v, c, p, now, op) && CandidateFresh(v, now, op.uid)
  }

  /** A hire planned under any intent passes its own re-validation in the same state. */
  lemma PlannedHireValidates(v: View, c: Config, p: Policy, now: int, intent: Intent)
    requires Plan(v, c, p, now).Hire?
    ensures Validated(v, c, p, now, OpFor(Plan(v, c, p, now), intent))
  {
  }

  /** Only the next safe hire validates, at exactly one ticket and nothing else. */
  lemma ValidatedExactly(v: View, c: Config, p: Policy, now: int, op: Op)
    ensures Validated(v, c, p, now, op) <==>
              && Plan(v, c, p, now) == Hire(op.target, op.uid)
              && op.count == 1 && op.goldCost == 0 && op.diamondCost == 0 && op.itemCost == map[TICKET := 1]
    ensures Validated(v, c, p, now, op) ==> SafeHire(v, c, p, now, op.target, op.uid)
  {
    if Plan(v, c, p, now).Hire? { HireIsSafe(v, c, p, now); }
  }

  /** At the sending boundary a planned hire passes exactly when both pieces of evidence are under 30 seconds old. */
  lemma PlannedHireIsSendable(v: View, c: Config, p: Policy, now: int, intent: Intent)
    requires Plan(v, c, p, now).Hire?
    ensures var uid := Plan(v, c, p, now).uid;
            && uid in v.profiles && uid in v.hireStates
            && (ValidatedSafe(v, c, p, now, OpFor(Plan(v, c, p, now), intent)) <==>
                  now - v.profiles[uid].observedAt < SPEND_TTL && now - v.hireStates[uid].observedAt < SPEND_TTL)
  {
    HireIsSafe(v, c, p, now);
    PlannedHireValidates(v, c, p, now, intent);
    hide Plan, Validated, SafeSlot, ListedBy, WorkersKnown, Working;
  }

  // ----- as it runs -----

  /** `pearlActiveWorkers`, in any order of the slots. */
  method ActiveWorkers(places: map<int, Place>, now: int) returns (active: int, uids: set<Uid>, known: bool)
    ensures known <==> WorkersKnown(places)
    ensures known ==> active == |Working(places, now)| && uids == ActiveUids(places)
  {
    active, uids := 0, {};
    var rest := places.Keys;
    ghost var working: set<int> := {};
    while rest != {}
      invariant rest <= places.Keys
      invariant forall id: int :: id in places && id !in rest ==> PlaceKnown(places[id])
      invariant working == set id | id in places && id !in rest && places[id].uid > 0 && places[id].end > now
      invariant active == |working|
      invariant uids == set id | id in places && id !in rest && places[id].uid > 0 :: places[id].uid
      decreases rest
    {
      var id := Least(rest);
      assert id in places;
      var place := places[id];
      if !place.uidSeen || !place.endSeen { return 0, {}, false; }
      if place.uid < 0 || place.end < 0 || (place.uid == 0) != (place.end == 0) { return 0, {}, false; }
      rest := rest - {id};
      if place.uid > 0 {
        uids := uids + {place.uid};
        if place.end > now {
          active := active + 1;
          working := working + {id};
        }
      }
    }
    assert working == Working(places, now);
    return active, uids, true;
  }

  /** `firstSafePearlHireSlot` */
  method FirstSafeSlot(v: View, c: Config, now: int) returns (slot: Option<int>)
    ensures slot == if SafeSlots(v, c, now) == {} then None else Some(Least(SafeSlots(v, c, now)))
  {
    var ids := Ascending(c.slots.Keys);
    hide Ascending;
    for i := 0 to |ids|
      invariant forall j :: 0 <= j < i ==> !SafeSlot(v, c, now, ids[j])
    {
      var id := ids[i];
      assert id in ids;
      if c.slots[id] || id !in v.places { continue; }
      var place := v.places[id];
      if !place.uidSeen || !place.endSeen || !SlotFree(place, now) { continue; }
      FirstIsLeast(v, c, now, ids, i);
      return Some(id);
    }
    forall id: int | id in c.slots ensures !SafeSlot(v, c, now, id) { assert id in ids; }
    NoSafeSlot(v, c, now);
    return None;
  }

  lemma FirstIsLeast(v: View, c: Config, now: int, ids: seq<int>, i: nat)
    requires i < |ids| && ids == Ascending(c.slots.Keys) && SafeSlot(v, c, now, ids[i])
    requires forall j :: 0 <= j < i ==> !SafeSlot(v, c, now, ids[j])
    ensures SafeSlots(v, c, now) != {} && Least(SafeSlots(v, c, now)) == ids[i]
  {
    hide SafeSlot;
    assert ids[i] in ids && ids[i] in SafeSlots(v, c, now);
    forall other: int | other in SafeSlots(v, c, now) ensures ids[i] <= other {
      assert other in ids;
      var j :| 0 <= j < |ids| && ids[j] == other;
    }
  }

  lemma NoSafeSlot(v: View, c: Config, now: int)
    requires forall id: int :: id in c.slots ==> !SafeSlot(v, c, now, id)
    ensures SafeSlots(v, c, now) == {}
  {
    if SafeSlots(v, c, now) != {} {
      var id := AnyOf(SafeSlots(v, c, now));
      assert false;
    }
  }

  /** `filterPearlCandidateUIDs`, with the `seen` map it keeps across the sources. */
  method FilterCandidates(v: View, now: int, input: seq<Uid>, active: set<Uid>, before: set<Uid>) returns (out: seq<Uid>, seen: set<Uid>)
    requires active == ActiveUids(v.places)
    ensures out == Kept(v, now, input, before) && seen == before + AsSet(out)
  {
    out, seen := [], before;
    for i := 0 to |input|
      invariant out == Kept(v, now, input[..i], before)
      invariant seen == before + AsSet(out)
    {
      assert input[..i + 1][..i] == input[..i];
      var uid := input[i];
      if uid <= 0 || uid == v.roleId { continue; }
      if uid in active { continue; }
      if uid in v.failedUntil && v.failedUntil[uid] > now { continue; }
      if uid in v.skipped { continue; }
      if uid in seen { continue; }
      seen := seen + {uid};
      out := out + [uid];
    }
    assert input[..|input|] == input;
  }

  /** The candidate loop of `planPearlCandidateSource`. */
  method PlanSource(v: View, c: Config, p: Policy, now: int, source: Source, uids: seq<Uid>, place: int) returns (step: Option<Step>)
    ensures step == SourceStep(v, c, p, now, source, uids, place)
  {
    var staleProfiles: seq<Uid>, staleStates: seq<Uid>, readyUid: Option<Uid> := [], [], None;
    for i := 0 to |uids|
      invariant staleProfiles == WithVerdict(v, c, p, now, uids[..i], StaleProfile)
      invariant staleStates == WithVerdict(v, c, p, now, uids[..i], StaleState)
      invariant var ready := WithVerdict(v, c, p, now, uids[..i], Ready);
                readyUid == if ready == [] then None else Some(ready[0])
    {
      assert uids[..i + 1][..i] == uids[..i];
      var uid := uids[i];
      if uid !in v.profiles || !CacheFresh(v.profiles[uid].observedAt, now) {
        staleProfiles := staleProfiles + [uid];
        continue;
      }
      var profile := v.profiles[uid];
      if !profile.levelSeen || profile.level <= 0 { continue; }
      if p.maxLevel > 0 && profile.level > p.maxLevel { continue; }
      if uid !in v.hireStates || !CacheFresh(v.hireStates[uid].observedAt, now) {
        staleStates := staleStates + [uid];
        continue;
      }
      var state, rest := v.hireStates[uid], c.restSeconds * 1000;
      if state.laborEnd > MAX_INT64 - rest { continue; }
      if state.laborEnd > 0 && now < state.laborEnd + rest { continue; }
      if readyUid.None? { readyUid := Some(uid); }
    }
    assert uids[..|uids|] == uids;
    if readyUid.Some? { return Some(Hire(place, readyUid.value)); }
    if |staleProfiles| > 0 { return Some(SyncProfiles(source, staleProfiles)); }
    if |staleStates| > 0 { return Some(SyncHireStates(source, staleStates)); }
    return None;
  }

  /** `pearlEnemyUIDs` */
  method RecentEnemies(enemies: seq<Enemy>, maxDays: int, now: int) returns (out: seq<Uid>)
    ensures out == EnemyUids(enemies, maxDays, now)
  {
    out := [];
    if maxDays <= 0 {
      NoEnemies(enemies, maxDays, now);
      return;
    }
    for i := 0 to |enemies|
      invariant out == EnemyUids(enemies[..i], maxDays, now)
    {
      assert enemies[..i + 1][..i] == enemies[..i];
      var e := enemies[i];
      if e.uid > 0 && e.eventTime >= now - maxDays * 86400000 && e.eventTime <= now { out := out + [e.uid]; }
    }
    assert enemies[..|enemies|] == enemies;
  }

  lemma {:induction false} NoEnemies(enemies: seq<Enemy>, maxDays: int, now: int)
    requires maxDays <= 0
    ensures EnemyUids(enemies, maxDays, now) == []
  {
    if enemies != [] { NoEnemies(enemies[..|enemies| - 1], maxDays, now); }
  }

  /** The gates of `planOneSafePearlHire`, in their order, with the slot a hire would use. */
  method CheckGates(v: View, c: Config, p: Policy, now: int) returns (block: Option<Block>, active: set<Uid>, place: int)
    ensures block == Gate(v, c, p, now)
    ensures block.None? ==> active == ActiveUids(v.places) && SafeSlots(v, c, now) != {} && place == Least(SafeSlots(v, c, now))
  {
    active, place := {}, 0;
    if p.maxWorkers <= 0 { return Some(NoWorkersAllowed), active, place; }
    if p.maxLevel < 0 { return Some(NegativeLevel), active, place; }
    if p.dailyLimit < 0 { return Some(NegativeDaily), active, place; }
    if !c.known || c.ticketItem != TICKET { return Some(NoCatalog), active, place; }
    if v.roleId <= 0 { return Some(UnknownSelf), active, place; }
    if v.locked { return Some(SessionLocked), active, place; }
    if v.tickets < 1 { return Some(NoTicket), active, place; }
    if p.dailyLimit > 0 && v.usedToday >= p.dailyLimit { return Some(DailyDone), active, place; }
    var workers, uids, known := ActiveWorkers(v.places, now);
    if !known { return Some(WorkersUnknown), active, place; }
    if workers >= p.maxWorkers { return Some(EnoughWorkers), active, place; }
    var slot := FirstSafeSlot(v, c, now);
    if slot.None? { return Some(NoSlot), active, place; }
    return None, uids, slot.value;
  }

  method PlanOneSafePearlHire(v: View, c: Config, p: Policy, now: int) returns (step: Step)
    ensures step == Plan(v, c, p, now)
  {
    if !p.autoHire { return Off; }
    var block, active, place := CheckGates(v, c, p, now);
    hide Gate, SourceStep, Kept, SafeSlots;
    if block.Some? { return Blocked(block.value); }
    if !v.friendsSeen { return SyncList(Friends); }
    var friends, seen := FilterCandidates(v, now, v.friends, active, {});
    var one := PlanSource(v, c, p, now, Friends, friends, place);
    if one.Some? { return one.value; }
    if !CacheFresh(v.recommendedAt, now) { return SyncList(Recommended); }
    assert seen == AsSet(friends);
    var recommended, seenToo := FilterCandidates(v, now, v.recommended, active, seen);
    var two := PlanSource(v, c, p, now, Recommended, recommended, place);
    if two.Some? { return two.value; }
    if !v.enemiesSeen { return SyncList(Enemies); }
    var recent := RecentEnemies(v.enemies, c.enemyMaxDays, now);
    var enemies, _ := FilterCandidates(v, now, recent, active, seenToo);
    var three := PlanSource(v, c, p, now, Enemies, enemies, place);
    if three.Some? { return three.value; }
    return Blocked(NoCandidate);
  }
}
