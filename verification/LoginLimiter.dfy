/**
 The failed-login limiter: one table of buckets per user name and one per address. Times are integers in
 any one unit; Go's zero time is `None`. Keys are taken after normalisation.
 */
module LoginLimiter {
  import opened Common

  type Key = string

  datatype Config = Config(window: int, threshold: int, lockout: int, maxEntries: int)

  /** What `normalizeLoginLimiterConfig` guarantees for each of the two tables. */
  predicate Normalised(c: Config) { c.window > 0 && c.threshold > 0 && c.lockout > 0 && c.maxEntries > 0 }

  datatype Bucket = Bucket(failures: nat, firstFailure: Option<int>, lockedUntil: Option<int>, lastSeen: int)

  type Table = map<Key, Bucket>

  predicate Alive(c: Config, b: Bucket, now: int) {
    if b.lockedUntil.Some? then now < b.lockedUntil.value
    else b.firstFailure.Some? && now - b.firstFailure.value <= c.window
  }

  function Pruned(c: Config, t: Table, now: int): Table {
    map k | k in t && Alive(c, t[k], now) :: t[k]
  }

  /** `checkBucket`: the bucket afterwards, and the deadline if the key is locked out. */
  function Checked(b: Bucket, now: int): (Bucket, Option<int>) {
    if b.lockedUntil.None? then (b, None)
    else if now < b.lockedUntil.value then (b.(lastSeen := now), b.lockedUntil)
    else (b.(lockedUntil := None), None)
  }

  /** The counting half of `recordFailure`, after room has been made. */
  function Counted(c: Config, found: Bucket, now: int): (Bucket, Option<int>) {
    var (b, until) := Checked(found.(lastSeen := now), now);
    if until.Some? then (b, until)
    else
      var stale := b.firstFailure.None? || now - b.firstFailure.value > c.window;
      var b := if stale then b.(failures := 0, firstFailure := Some(now)) else b;
      var n := b.failures + 1;
      if n >= c.threshold
      then (b.(failures := 0, firstFailure := None, lockedUntil := Some(now + c.lockout)), Some(now + c.lockout))
      else (b.(failures := n), None)
  }

  const NewBucket := Bucket(0, None, None, 0)

  function Lookup(t: Table, k: Key): Bucket { if k in t then t[k] else NewBucket }

  /** No key that stays was seen before one that goes. */
  predicate LongestUnseenGo(t: Table, evicted: set<Key>) {
    evicted <= t.Keys && forall k, m :: k in evicted && m in t && m !in evicted ==> t[k].lastSeen <= t[m].lastSeen
  }

  /** Eviction: nothing while there is room, otherwise the longest unseen until exactly one place is free. */
  predicate MakesRoom(c: Config, t: Table, evicted: set<Key>) {
    if |t| < c.maxEntries then evicted == {}
    else LongestUnseenGo(t, evicted) && |t.Keys - evicted| == c.maxEntries - 1
  }

  /** Evicting one more, the longest unseen of those left. */
  lemma EvictNext(t: Table, evicted: set<Key>, oldest: Key)
    requires LongestUnseenGo(t, evicted) && oldest in t - evicted
    requires forall m :: m in t - evicted ==> t[oldest].lastSeen <= t[m].lastSeen
    ensures LongestUnseenGo(t, evicted + {oldest}) && t - (evicted + {oldest}) == (t - evicted) - {oldest}
    ensures |t - (evicted + {oldest})| == |t - evicted| - 1
  {
    var rest := (t - evicted) - {oldest};
    assert rest.Keys == (t - evicted).Keys - {oldest};
    assert t - (evicted + {oldest}) == rest;
  }

  lemma EvictedKeys(t: Table, evicted: set<Key>)
    ensures (t - evicted).Keys == t.Keys - evicted && |t - evicted| == |t.Keys - evicted| && t - {} == t
  {
  }

  /** What happens to one table; every entry point but `RecordSuccess` prunes first. */
  datatype Event =
    | Tick(now: int)
    | Check(key: Key, now: int)
    | Failure(key: Key, now: int, evicted: set<Key>)
    | Success(key: Key, now: int)

  predicate Enabled(c: Config, t: Table, e: Event) {
    e.Failure? ==> MakesRoom(c, Pruned(c, t, e.now), e.evicted)
  }

  function Room(c: Config, t: Table, now: int, evicted: set<Key>): Table {
    Pruned(c, t, now) - evicted
  }

  function Step(c: Config, t: Table, e: Event): Table {
    match e
    case Tick(now) => Pruned(c, t, now)
    case Check(k, now) =>
      var p := Pruned(c, t, now);
      if k in p then p[k := Checked(p[k], now).0] else p
    case Failure(k, now, evicted) =>
      var r := Room(c, t, now, evicted);
      r[k := Counted(c, Lookup(r, k), now).0]
    case Success(k, _) => t - {k}
  }

  /** The lockout deadline an event reports for its own key. */
  function Limit(c: Config, t: Table, e: Event): Option<int> {
    match e
    case Check(k, now) => var p := Pruned(c, t, now); if k in p then Checked(p[k], now).1 else None
    case Failure(k, now, evicted) => Counted(c, Lookup(Room(c, t, now, evicted), k), now).1
    case _ => None
  }

  // ----- what every run keeps -----

  /** A bucket is either locked with its counter reset, or counts between one and threshold - 1 failures. */
  predicate Sound(c: Config, b: Bucket) {
    if b.lockedUntil.Some? then b.failures == 0 && b.firstFailure.None?
    else 1 <= b.failures < c.threshold && b.firstFailure.Some?
  }

  predicate TableOk(c: Config, t: Table) {
    |t| <= c.maxEntries && forall k :: k in t ==> Sound(c, t[k])
  }

  lemma CountedSound(c: Config, b: Bucket, now: int)
    requires Normalised(c) && (b == NewBucket || Sound(c, b))
    ensures Sound(c, Counted(c, b, now).0)
  {
  }

  lemma RoomIsMade(c: Config, t: Table, now: int, evicted: set<Key>)
    requires TableOk(c, t) && MakesRoom(c, Pruned(c, t, now), evicted)
    ensures |Room(c, t, now, evicted)| < c.maxEntries
    ensures forall k :: k in Room(c, t, now, evicted) ==> Sound(c, Room(c, t, now, evicted)[k])
  {
    assert Room(c, t, now, evicted).Keys == Pruned(c, t, now).Keys - evicted;
  }

  lemma RecordedKeepsTable(c: Config, r: Table, k: Key, b: Bucket)
    requires |r| < c.maxEntries && Sound(c, b) && forall m :: m in r ==> Sound(c, r[m])
    ensures TableOk(c, r[k := b])
  {
    assert r[k := b].Keys == r.Keys + {k};
  }

  lemma FailureKeepsTable(c: Config, t: Table, k: Key, now: int, evicted: set<Key>)
    requires Normalised(c) && TableOk(c, t) && MakesRoom(c, Pruned(c, t, now), evicted)
    ensures TableOk(c, Step(c, t, Failure(k, now, evicted)))
  {
    RoomIsMade(c, t, now, evicted);
    var r := Room(c, t, now, evicted);
    CountedSound(c, Lookup(r, k), now);
    RecordedKeepsTable(c, r, k, Counted(c, Lookup(r, k), now).0);
  }

  lemma StepKeepsTable(c: Config, t: Table, e: Event)
    requires Normalised(c) && TableOk(c, t) && Enabled(c, t, e)
    ensures TableOk(c, Step(c, t, e))
  {
    if e.Failure? {
      FailureKeepsTable(c, t, e.key, e.now, e.evicted);
    } else {
      SubsetSize(Step(c, t, e).Keys, t.Keys);
    }
  }

  ghost predicate Run(c: Config, tables: seq<Table>, events: seq<Event>) {
    && |tables| == |events| + 1
    && tables[0] == map[]
    && forall i {:trigger events[i]} :: 0 <= i < |events| ==>
         Enabled(c, tables[i], events[i]) && tables[i + 1] == Step(c, tables[i], events[i])
  }

  lemma RunStep(c: Config, tables: seq<Table>, events: seq<Event>, k: nat)
    requires Run(c, tables, events) && k < |events|
    ensures k + 1 < |tables| && Enabled(c, tables[k], events[k]) && tables[k + 1] == Step(c, tables[k], events[k])
  {
  }

  lemma RunBegins(c: Config, tables: seq<Table>, events: seq<Event>)
    requires Normalised(c) && Run(c, tables, events)
    ensures |tables| == |events| + 1 && tables[0] == map[] && TableOk(c, tables[0])
  {
  }

  /** In every run each table stays within its bound and no unlocked bucket is empty or over its threshold. */
  lemma {:induction false} RunKeepsTable(c: Config, tables: seq<Table>, events: seq<Event>, k: nat)
    requires Normalised(c) && Run(c, tables, events) && k < |tables|
    ensures TableOk(c, tables[k])
  {
    hide *;
    RunBegins(c, tables, events);
    if k > 0 {
      RunKeepsTable(c, tables, events, k - 1);
      RunStep(c, tables, events, k - 1);
      StepKeepsTable(c, tables[k - 1], events[k - 1]);
    }
  }

  /** The event leaves the key's record alone: it is neither cleared nor evicted. */
  predicate Spares(e: Event, key: Key) {
    && (e.Success? ==> e.key != key)
    && (e.Failure? ==> key !in e.evicted)
  }

  predicate LockedUntil(t: Table, key: Key, until: int) { key in t && t[key].lockedUntil == Some(until) }

  lemma LockOutlivesStep(c: Config, t: Table, e: Event, key: Key, until: int)
    requires LockedUntil(t, key, until) && Spares(e, key) && e.now < until
    ensures LockedUntil(Step(c, t, e), key, until)
    ensures (e.Check? || e.Failure?) && e.key == key ==> Limit(c, t, e) == Some(until)
  {
  }

  /** A lock outlives everything that happens before its deadline, and every attempt meanwhile is refused. */
  lemma {:induction false} LockHolds(c: Config, tables: seq<Table>, events: seq<Event>, i: nat, k: nat, key: Key, until: int)
    requires Run(c, tables, events) && i <= k < |events| && LockedUntil(tables[i], key, until)
    requires forall j :: i <= j <= k ==> Spares(events[j], key) && events[j].now < until
    ensures LockedUntil(tables[k], key, until)
    ensures (events[k].Check? || events[k].Failure?) && events[k].key == key ==>
              Limit(c, tables[k], events[k]) == Some(until)
  {
    hide *;
    RunStep(c, tables, events, k);
    if i < k {
      LockHolds(c, tables, events, i, k - 1, key, until);
      RunStep(c, tables, events, k - 1);
      LockOutlivesStep(c, tables[k - 1], events[k - 1], key, until);
    }
    LockOutlivesStep(c, tables[k], events[k], key, until);
  }

  predicate NothingLocked(t: Table) { forall m :: m in t ==> t[m].lockedUntil.None? }

  lemma NothingIsUnlocked()
    ensures NothingLocked(map[])
  {
  }

  lemma OnePlaceStep(c: Config, t: Table, e: Event)
    requires c.maxEntries == 1 && c.threshold > 1 && Enabled(c, t, e) && NothingLocked(t)
    ensures NothingLocked(Step(c, t, e)) && Limit(c, t, e).None?
  {
    if e.Failure? {
      var r := Room(c, t, e.now, e.evicted);
      assert r.Keys == Pruned(c, t, e.now).Keys - e.evicted;
      assert r == map[];
    }
  }

  /**
   Making room may evict the very key whose failure is being recorded, which then starts over at one: with a
   single place in the table no failure is ever limited, however many there are.
   */
  lemma {:induction false} OnePlaceNeverLimits(c: Config, tables: seq<Table>, events: seq<Event>, k: nat)
    requires Normalised(c) && c.maxEntries == 1 && c.threshold > 1 && Run(c, tables, events) && k < |events|
    ensures NothingLocked(tables[k]) && Limit(c, tables[k], events[k]).None?
  {
    hide *;
    RunBegins(c, tables, events);
    RunStep(c, tables, events, k);
    NothingIsUnlocked();
    if k > 0 {
      OnePlaceNeverLimits(c, tables, events, k - 1);
      RunStep(c, tables, events, k - 1);
      OnePlaceStep(c, tables[k - 1], events[k - 1]);
    }
    OnePlaceStep(c, tables[k], events[k]);
  }

  // ----- how many failures one key gets through -----

  /** The story of one key: the times of its unlimited failures, and at which of them a counting period starts. */
  datatype Story = Story(times: seq<int>, starts: seq<nat>, clock: int)

  /** A failure of the key is let through: it extends the current period, or opens one if none is counting. */
  predicate LetThrough(c: Config, t: Table, e: Event, key: Key) {
    e.Failure? && e.key == key && Limit(c, t, e).None?
  }

  function Extended(c: Config, t: Table, h: Story, e: Event, key: Key): Story {
    if !LetThrough(c, t, e, key) then h.(clock := e.now)
    else if key in Room(c, t, e.now, e.evicted) then h.(times := h.times + [e.now], clock := e.now)
    else Story(h.times + [e.now], h.starts + [|h.times|], e.now)
  }

  predicate Sorted(times: seq<int>) { forall i, j :: 0 <= i <= j < |times| ==> times[i] <= times[j] }

  /** The most unlimited failures that can fall into one window. */
  function Bound(c: Config): int
    requires Normalised(c)
  {
    if c.threshold == 1 then 0
    else if c.window % c.lockout == 0 then (c.window / c.lockout + 1) * (c.threshold - 1)
    else (c.window / c.lockout + 2) * (c.threshold - 1) - 1
  }

  /** Where period `k` ends: before the next one, or with the last failure. */
  function End(times: seq<int>, starts: seq<nat>, k: nat): nat {
    if k + 1 < |starts| then starts[k + 1] else |times|
  }

  /** A new period may start at `now`: a lockout has passed since the last failure of period `k`, or a window since its first. */
  predicate IsOver(c: Config, times: seq<int>, starts: seq<nat>, k: nat, now: int) {
    && k < |starts| && starts[k] < End(times, starts, k) <= |times|
    && (now >= times[End(times, starts, k) - 1] + c.lockout || now > times[starts[k]] + c.window)
  }

  /** A period holds fewer failures than the threshold, none of them later than a window after its first. */
  predicate PeriodOk(c: Config, times: seq<int>, starts: seq<nat>, k: nat) {
    && k < |starts| && starts[k] < End(times, starts, k) <= |times| && End(times, starts, k) - starts[k] < c.threshold
    && forall j :: starts[k] <= j < End(times, starts, k) ==> times[j] <= times[starts[k]] + c.window
  }

  /** And the next period starts when it is over. */
  predicate NextOk(c: Config, times: seq<int>, starts: seq<nat>, k: nat) {
    k + 1 < |starts| ==> starts[k + 1] < |times| && IsOver(c, times, starts, k, times[starts[k + 1]])
  }

  ghost predicate PeriodsOk(c: Config, times: seq<int>, starts: seq<nat>) {
    && Sorted(times) && (times == [] <==> starts == []) && (starts != [] ==> starts[0] == 0)
    && forall k :: 0 <= k < |starts| ==> PeriodOk(c, times, starts, k) && NextOk(c, times, starts, k)
  }

  /** What the key's place in the table says about its story. */
  predicate BucketTells(c: Config, t: Table, h: Story, key: Key) {
    var n, last := |h.times|, |h.starts| - 1;
    if key !in t then last >= 0 ==> IsOver(c, h.times, h.starts, last, h.clock)
    else if t[key].lockedUntil.Some? then last >= 0 ==> n > 0 && t[key].lockedUntil.value >= h.times[n - 1] + c.lockout
    else last >= 0 && h.starts[last] < n
         && t[key].failures == n - h.starts[last] && t[key].firstFailure == Some(h.times[h.starts[last]])
  }

  ghost predicate StoryOk(c: Config, t: Table, h: Story, key: Key) {
    && PeriodsOk(c, h.times, h.starts) && BucketTells(c, t, h, key)
    && (h.times != [] ==> h.times[|h.times| - 1] <= h.clock)
  }

  lemma PeriodHolds(c: Config, times: seq<int>, starts: seq<nat>, k: nat)
    requires PeriodsOk(c, times, starts) && k < |starts|
    ensures PeriodOk(c, times, starts, k) && NextOk(c, times, starts, k)
  {
  }

  lemma SortedMore(times: seq<int>, now: int)
    requires Sorted(times) && (times != [] ==> times[|times| - 1] <= now)
    ensures Sorted(times + [now])
  {
  }

  /** Opening a new period once the last one is over. */
  lemma NewPeriod(c: Config, times: seq<int>, starts: seq<nat>, now: int)
    requires c.threshold > 1 && c.window > 0 && PeriodsOk(c, times, starts) && (times != [] ==> times[|times| - 1] <= now)
    requires |starts| > 0 ==> IsOver(c, times, starts, |starts| - 1, now)
    ensures PeriodsOk(c, times + [now], starts + [|times|])
  {
    var more, begun := times + [now], starts + [|times|];
    SortedMore(times, now);
    forall k | 0 <= k < |begun| ensures PeriodOk(c, more, begun, k) && NextOk(c, more, begun, k) {
      if k < |starts| {
        PeriodHolds(c, times, starts, k);
        assert End(more, begun, k) == End(times, starts, k) && begun[k] == starts[k];
      }
    }
  }

  /** Another failure in the current period. */
  lemma SamePeriod(c: Config, times: seq<int>, starts: seq<nat>, now: int)
    requires PeriodsOk(c, times, starts) && |starts| > 0 && (times != [] ==> times[|times| - 1] <= now)
    requires var start := starts[|starts| - 1];
             start < |times| && now - times[start] <= c.window && |times| - start + 1 < c.threshold
    ensures PeriodsOk(c, times + [now], starts)
  {
    SortedMore(times, now);
    forall k | 0 <= k < |starts| ensures PeriodOk(c, times + [now], starts, k) && NextOk(c, times + [now], starts, k) {
      PeriodHolds(c, times, starts, k);
    }
  }

  lemma LastPeriod(c: Config, times: seq<int>, starts: seq<nat>)
    requires PeriodsOk(c, times, starts)
    ensures |starts| > 0 <==> |times| > 0
    ensures |starts| > 0 ==> starts[|starts| - 1] < |times|
  {
    if |starts| > 0 { PeriodHolds(c, times, starts, |starts| - 1); }
  }

  /** Pruning the key's bucket ends its period. */
  lemma PruningEndsPeriod(c: Config, t: Table, h: Story, key: Key, now: int)
    requires Normalised(c) && TableOk(c, t)
    requires StoryOk(c, t, h, key) && h.clock <= now
    ensures BucketTells(c, Pruned(c, t, now), h.(clock := now), key)
  {
    LastPeriod(c, h.times, h.starts);
    hide PeriodsOk;
  }

  /** A failure of the key itself, with `r` the table after pruning and making room. */
  lemma FailureKeepsStory(c: Config, r: Table, h: Story, now: int, key: Key)
    requires Normalised(c) && StoryOk(c, r, h.(clock := now), key)
    requires key in r ==> Sound(c, r[key]) && Alive(c, r[key], now)
    ensures var (b, until) := Counted(c, Lookup(r, key), now);
            var g := if until.Some? then h.(clock := now)
                     else if key in r then h.(times := h.times + [now], clock := now)
                     else Story(h.times + [now], h.starts + [|h.times|], now);
            StoryOk(c, r[key := b], g, key)
  {
    var (b, until) := Counted(c, Lookup(r, key), now);
    LastPeriod(c, h.times, h.starts);
    hide PeriodsOk;
    if until.None? {
      if key in r { SamePeriod(c, h.times, h.starts, now); } else { NewPeriod(c, h.times, h.starts, now); }
    }
  }

  /** Two tables agree on a key up to when it was last seen. */
  predicate SamePlace(t: Table, u: Table, key: Key) {
    && (key in t <==> key in u)
    && (key in t ==> u[key] == t[key].(lastSeen := u[key].lastSeen))
  }

  lemma OtherEventsKeepPlace(c: Config, t: Table, e: Event, key: Key)
    requires Spares(e, key) && !(e.Failure? && e.key == key)
    ensures SamePlace(if e.Success? then t else Pruned(c, t, e.now), Step(c, t, e), key)
  {
  }

  lemma RoomKeepsPlace(c: Config, t: Table, now: int, evicted: set<Key>, key: Key)
    requires key !in evicted
    ensures SamePlace(Pruned(c, t, now), Room(c, t, now, evicted), key)
    ensures key in Room(c, t, now, evicted) ==> key in t && t[key] == Room(c, t, now, evicted)[key] && Alive(c, t[key], now)
  {
  }

  lemma SamePlaceTellsSame(c: Config, t: Table, u: Table, h: Story, key: Key)
    requires SamePlace(t, u, key)
    ensures BucketTells(c, t, h, key) == BucketTells(c, u, h, key)
  {
  }

  lemma OwnFailureKeepsStory(c: Config, t: Table, h: Story, e: Event, key: Key)
    requires Normalised(c) && TableOk(c, t) && Enabled(c, t, e)
    requires e.Failure? && e.key == key && key !in e.evicted
    requires StoryOk(c, t, h, key) && h.clock <= e.now
    ensures StoryOk(c, Step(c, t, e), Extended(c, t, h, e, key), key)
  {
    hide MakesRoom, PeriodsOk, BucketTells, Counted, Alive, Sound, Pruned;
    PruningEndsPeriod(c, t, h, key, e.now);
    var r := Room(c, t, e.now, e.evicted);
    RoomKeepsPlace(c, t, e.now, e.evicted, key);
    SamePlaceTellsSame(c, Pruned(c, t, e.now), r, h.(clock := e.now), key);
    FailureKeepsStory(c, r, h, e.now, key);
  }

  lemma StepKeepsStory(c: Config, t: Table, h: Story, e: Event, key: Key)
    requires Normalised(c) && TableOk(c, t) && Enabled(c, t, e)
    requires StoryOk(c, t, h, key) && Spares(e, key) && h.clock <= e.now
    ensures StoryOk(c, Step(c, t, e), Extended(c, t, h, e, key), key)
  {
    if e.Failure? && e.key == key {
      OwnFailureKeepsStory(c, t, h, e, key);
    } else {
      hide PeriodsOk, BucketTells, Counted, Alive, TableOk, MakesRoom, SamePlace;
        var kept := if e.Success? then t else Pruned(c, t, e.now);
      if !e.Success? { PruningEndsPeriod(c, t, h, key, e.now); }
      OtherEventsKeepPlace(c, t, e, key);
      SamePlaceTellsSame(c, kept, Step(c, t, e), h.(clock := e.now), key);
    }
  }

  predicate Monotone(events: seq<Event>) {
    forall i, j :: 0 <= i <= j < |events| ==> events[i].now <= events[j].now
  }

  /** The story of a key after the first `k` events. */
  ghost function StoryAt(c: Config, tables: seq<Table>, events: seq<Event>, key: Key, k: nat): Story
    requires Run(c, tables, events) && k <= |events|
  {
    if k == 0 then Story([], [], if events == [] then 0 else events[0].now)
    else Extended(c, tables[k - 1], StoryAt(c, tables, events, key, k - 1), events[k - 1], key)
  }

  lemma StoryClock(c: Config, tables: seq<Table>, events: seq<Event>, key: Key, k: nat)
    requires Run(c, tables, events) && Monotone(events) && k < |events|
    ensures StoryAt(c, tables, events, key, k).clock <= events[k].now
  {
  }

  lemma StoryStep(c: Config, tables: seq<Table>, events: seq<Event>, key: Key, k: nat)
    requires Run(c, tables, events) && k < |events|
    ensures StoryAt(c, tables, events, key, k + 1)
            == Extended(c, tables[k], StoryAt(c, tables, events, key, k), events[k], key)
  {
  }

  lemma StoryBegins(c: Config, tables: seq<Table>, events: seq<Event>, key: Key)
    requires Run(c, tables, events)
    ensures StoryOk(c, tables[0], StoryAt(c, tables, events, key, 0), key)
  {
  }

  lemma {:induction false} RunKeepsStory(c: Config, tables: seq<Table>, events: seq<Event>, key: Key, k: nat)
    requires Normalised(c) && Run(c, tables, events) && Monotone(events) && k <= |events|
    requires forall j :: 0 <= j < k ==> Spares(events[j], key)
    ensures StoryOk(c, tables[k], StoryAt(c, tables, events, key, k), key)
  {
    hide *;
    if k == 0 {
      StoryBegins(c, tables, events, key);
    } else {
      RunStep(c, tables, events, k - 1);
      StoryStep(c, tables, events, key, k - 1);
      RunKeepsStory(c, tables, events, key, k - 1);
      RunKeepsTable(c, tables, events, k - 1);
      StoryClock(c, tables, events, key, k - 1);
      StepKeepsStory(c, tables[k - 1], StoryAt(c, tables, events, key, k - 1), events[k - 1], key);
    }
  }

  /** The times of the key's unlimited failures among the first `k` events. */
  ghost function Unlimited(c: Config, tables: seq<Table>, events: seq<Event>, key: Key, k: nat): seq<int>
    requires Run(c, tables, events) && k <= |events|
  {
    if k == 0 then []
    else Unlimited(c, tables, events, key, k - 1)
         + (if LetThrough(c, tables[k - 1], events[k - 1], key) then [events[k - 1].now] else [])
  }

  lemma {:induction false} StoryTellsUnlimited(c: Config, tables: seq<Table>, events: seq<Event>, key: Key, k: nat)
    requires Run(c, tables, events) && k <= |events|
    ensures StoryAt(c, tables, events, key, k).times == Unlimited(c, tables, events, key, k)
  {
    if k > 0 { StoryTellsUnlimited(c, tables, events, key, k - 1); }
  }

  function Within(times: seq<int>, start: int, length: int): set<int> {
    set i | 0 <= i < |times| && start <= times[i] <= start + length
  }

  /** Indices less than `length` apart are at most `length` many. */
  lemma {:induction false} NarrowSet(s: set<int>, low: int, length: nat)
    requires forall i :: i in s ==> low <= i < low + length
    ensures |s| <= length
  {
    if length == 0 {
      if s != {} { var i := AnyOf(s); }
    } else {
      NarrowSet(s - {low + length - 1}, low, length - 1);
      assert s <= (s - {low + length - 1}) + {low + length - 1};
      SubsetSize(s, (s - {low + length - 1}) + {low + length - 1});
    }
  }

  /** The period a failure belongs to. */
  lemma {:induction false} PeriodOf(c: Config, times: seq<int>, starts: seq<nat>, i: nat, k: nat) returns (a: nat)
    requires PeriodsOk(c, times, starts) && k < |starts| && i < End(times, starts, k)
    ensures a <= k && starts[a] <= i < End(times, starts, a)
  {
    if starts[k] <= i {
      a := k;
    } else {
      a := PeriodOf(c, times, starts, i, k - 1);
    }
  }

  lemma InOrder(times: seq<int>, i: nat, j: nat)
    requires Sorted(times) && i <= j < |times|
    ensures times[i] <= times[j]
  {
  }

  /** Period `a` ended by a lockout; otherwise it ended by age. */
  predicate EndsByLock(c: Config, times: seq<int>, starts: seq<nat>, a: nat) {
    && a + 1 < |starts| && 0 < starts[a + 1] < |times|
    && times[starts[a + 1]] >= times[starts[a + 1] - 1] + c.lockout
  }

  /** The first period after that of failure `i`. */
  lemma NextStartsApart(c: Config, times: seq<int>, starts: seq<nat>, i: nat, a: nat)
    requires PeriodsOk(c, times, starts) && a + 1 < |starts| && starts[a] <= i < End(times, starts, a)
    ensures starts[a + 1] < |times|
    ensures EndsByLock(c, times, starts, a) ==> times[starts[a + 1]] >= times[i] + c.lockout
    ensures !EndsByLock(c, times, starts, a) && times[starts[a + 1]] <= times[i] + c.window ==>
              i > starts[a] && times[starts[a + 1]] >= times[i] + 1
  {
    PeriodHolds(c, times, starts, a);
    InOrder(times, i, starts[a + 1] - 1);
  }

  /** A later period that starts within a window of an earlier failure ended by a lockout. */
  lemma LaterStartsApart(c: Config, times: seq<int>, starts: seq<nat>, i: nat, k: nat)
    requires PeriodsOk(c, times, starts) && k + 1 < |starts| && i < starts[k] < |times| && starts[k + 1] < |times|
    requires times[starts[k + 1]] <= times[i] + c.window
    ensures times[starts[k + 1]] >= times[starts[k]] + c.lockout
  {
    PeriodHolds(c, times, starts, k);
    InOrder(times, i, starts[k]);
    InOrder(times, starts[k], starts[k + 1] - 1);
  }

  /** Within a window from failure `i`, each further period starts a lockout later, but for the first, which may have aged. */
  lemma {:induction false} StartsApart(c: Config, times: seq<int>, starts: seq<nat>, i: nat, a: nat, k: nat)
    requires Normalised(c) && PeriodsOk(c, times, starts) && a < k < |starts|
    requires i < |times| && starts[a] <= i < End(times, starts, a)
    requires starts[k] < |times| && times[starts[k]] <= times[i] + c.window
    ensures EndsByLock(c, times, starts, a) ==> times[starts[k]] >= times[i] + (k - a) * c.lockout
    ensures !EndsByLock(c, times, starts, a) ==> i > starts[a] && times[starts[k]] >= times[i] + 1 + (k - a - 1) * c.lockout
    decreases k
  {
    NextStartsApart(c, times, starts, i, a);
    if k > a + 1 {
      StartsGrow(c, times, starts, a + 1, k - 1);
      StartsGrow(c, times, starts, k - 1, k);
      InOrder(times, starts[k - 1], starts[k]);
      LaterStartsApart(c, times, starts, i, k - 1);
      hide PeriodsOk, EndsByLock;
      StartsApart(c, times, starts, i, a, k - 1);
      OneLockoutMore(k - a - 1, c.lockout);
      OneLockoutMore(k - a - 2, c.lockout);
    }
  }

  lemma OneLockoutMore(n: int, lockout: int)
    ensures (n + 1) * lockout == n * lockout + lockout
  {
  }

  lemma {:induction false} StartsGrow(c: Config, times: seq<int>, starts: seq<nat>, a: nat, k: nat)
    requires PeriodsOk(c, times, starts) && a <= k < |starts|
    ensures starts[a] <= starts[k] < |times|
  {
    PeriodHolds(c, times, starts, k);
    if a < k {
      PeriodHolds(c, times, starts, k - 1);
      StartsGrow(c, times, starts, a, k - 1);
    }
  }

  lemma {:induction false} StartsClose(c: Config, times: seq<int>, starts: seq<nat>, a: nat, k: nat)
    requires PeriodsOk(c, times, starts) && a <= k < |starts|
    ensures starts[k] - starts[a] <= (k - a) * (c.threshold - 1)
  {
    if a < k {
      PeriodHolds(c, times, starts, k - 1);
      hide PeriodsOk;
      StartsClose(c, times, starts, a, k - 1);
      OneLockoutMore(k - a - 1, c.threshold - 1);
    }
  }

  /** So many lockouts fit into a window. */
  lemma LockoutsFit(c: Config, m: nat)
    requires Normalised(c) && c.threshold > 1
    ensures m * c.lockout <= c.window ==> (m + 1) * (c.threshold - 1) <= Bound(c)
    ensures m >= 1 && 1 + (m - 1) * c.lockout <= c.window ==> (m + 1) * (c.threshold - 1) - 1 <= Bound(c)
    ensures Bound(c) >= c.threshold - 1
  {
    var q, n := c.window / c.lockout, c.threshold - 1;
    AtMostQuotient(c.window, c.lockout, m);
    if m >= 1 {
      AtMostQuotient(c.window, c.lockout, m - 1);
      AtMostQuotient(c.window - 1, c.lockout, m - 1);
    }
    SmallerQuotient(c.window, c.lockout);
    if m <= q { MoreIsMore(m + 1, q + 1, n); }
    if m <= q + 1 { MoreIsMore(m + 1, q + 2, n); }
    MoreIsMore(1, q + 1, n);
    OneLockoutMore(q + 1, n);
  }

  lemma MoreIsMore(a: int, b: int, n: nat)
    requires a <= b
    ensures a * n <= b * n
  {
  }

  lemma AtMostQuotient(w: int, d: int, m: nat)
    requires w >= 0 && d > 0
    ensures m * d <= w ==> m <= w / d
    ensures (w / d) * d <= w && w / d >= 0
  {
    if m > w / d { MoreIsMore(w / d + 1, m, d); }
  }

  lemma SmallerQuotient(w: int, d: int)
    requires w > 0 && d > 0
    ensures (w - 1) / d == if w % d == 0 then w / d - 1 else w / d
  {
    var q := w / d;
    assert w == q * d + w % d;
    if w % d == 0 {
      assert w - 1 == (q - 1) * d + (d - 1);
      QuotientIs(w - 1, d, q - 1, d - 1);
    } else {
      QuotientIs(w - 1, d, q, w % d - 1);
    }
  }

  lemma QuotientIs(w: int, d: int, q: int, r: int)
    requires d > 0 && w == q * d + r && 0 <= r < d
    ensures w / d == q && w % d == r
  {
    var p := w / d;
    assert w == p * d + w % d;
    if p < q { MoreIsMore(p + 1, q, d); } else if p > q { MoreIsMore(q + 1, p, d); }
  }

  /** Failures that all fall into one window are at most Bound many. */
  lemma FewInWindow(c: Config, times: seq<int>, starts: seq<nat>, i: nat, j: nat)
    requires Normalised(c) && PeriodsOk(c, times, starts) && i <= j < |times| && times[j] - times[i] <= c.window
    ensures j - i + 1 <= Bound(c)
  {
    LastPeriod(c, times, starts);
    var b := PeriodOf(c, times, starts, j, |starts| - 1);
    var a := PeriodOf(c, times, starts, i, b);
    PeriodHolds(c, times, starts, a);
    PeriodHolds(c, times, starts, b);
    LockoutsFit(c, b - a);
    if a < b {
      InOrder(times, starts[b], j);
      StartsApart(c, times, starts, i, a, b);
      StartsClose(c, times, starts, a, b);
      OneLockoutMore(b - a, c.threshold - 1);
    }
  }

  /**
   With a clock that never goes back, no success for the key and no eviction of it, every interval as long as the
   window holds at most Bound unlimited failures of the key, whatever the lockout.
   */
  lemma WindowBound(c: Config, tables: seq<Table>, events: seq<Event>, key: Key, start: int)
    requires Normalised(c) && Run(c, tables, events) && Monotone(events)
    requires forall j :: 0 <= j < |events| ==> Spares(events[j], key)
    ensures |Within(Unlimited(c, tables, events, key, |events|), start, c.window)| <= Bound(c)
  {
    RunKeepsStory(c, tables, events, key, |events|);
    StoryTellsUnlimited(c, tables, events, key, |events|);
    var h := StoryAt(c, tables, events, key, |events|);
    var hits := Within(h.times, start, c.window);
    BoundIsNatural(c);
    if hits != {} {
      hide Run, PeriodsOk, Bound;
      var first := Least(hits);
      forall i | i in hits ensures first <= i < first + Bound(c) { FewInWindow(c, h.times, h.starts, first, i); }
      NarrowSet(hits, first, Bound(c));
    }
  }

  lemma BoundIsNatural(c: Config)
    requires Normalised(c)
    ensures Bound(c) >= 0
  {
    if c.threshold > 1 { LockoutsFit(c, 0); }
  }

  // ----- runs of one key, and that the bound is reached -----

  function OneKeyEvents(key: Key, times: seq<int>): (events: seq<Event>)
    ensures |events| == |times| && forall i :: 0 <= i < |times| ==> events[i] == Failure(key, times[i], {})
  {
    seq(|times|, i requires 0 <= i < |times| => Failure(key, times[i], {}))
  }

  /** The tables of a run in which only `key` fails and its bucket after failure i is `buckets[i]`. */
  function OneKeyTables(key: Key, buckets: seq<Bucket>): (tables: seq<Table>)
    ensures |tables| == |buckets| + 1 && tables[0] == map[]
    ensures forall i :: 0 < i < |tables| ==> tables[i] == map[key := buckets[i - 1]]
  {
    seq(|buckets| + 1, i requires 0 <= i <= |buckets| => if i == 0 then map[] else map[key := buckets[i - 1]])
  }

  /** What failure i finds: the bucket left by the one before, unless pruning has dropped it. */
  function FoundAt(c: Config, times: seq<int>, buckets: seq<Bucket>, i: nat): Bucket
    requires i < |times| == |buckets|
  {
    if i > 0 && Alive(c, buckets[i - 1], times[i]) then buckets[i - 1] else NewBucket
  }

  ghost predicate Follows(c: Config, times: seq<int>, buckets: seq<Bucket>) {
    && |times| == |buckets| && (|times| <= 1 || c.maxEntries > 1)
    && forall i :: 0 <= i < |times| ==> buckets[i] == Counted(c, FoundAt(c, times, buckets, i), times[i]).0
  }

  lemma OneKeyStep(c: Config, key: Key, times: seq<int>, buckets: seq<Bucket>, i: nat)
    requires Normalised(c) && Follows(c, times, buckets) && i < |times|
    ensures var t, e := OneKeyTables(key, buckets)[i], OneKeyEvents(key, times)[i];
            && Enabled(c, t, e) && Step(c, t, e) == OneKeyTables(key, buckets)[i + 1]
            && Limit(c, t, e) == Counted(c, FoundAt(c, times, buckets, i), times[i]).1
  {
    var t, now := OneKeyTables(key, buckets)[i], times[i];
    var p := Pruned(c, t, now);
    assert Room(c, t, now, {}) == p;
    if i > 0 && Alive(c, buckets[i - 1], now) {
      assert p == map[key := buckets[i - 1]];
    } else {
      assert p == map[];
    }
  }

  lemma OneKeyRun(c: Config, key: Key, times: seq<int>, buckets: seq<Bucket>)
    requires Normalised(c) && Follows(c, times, buckets)
    ensures Run(c, OneKeyTables(key, buckets), OneKeyEvents(key, times))
  {
    hide Step, Enabled, Limit, Counted, FoundAt, Normalised, Follows;
    var tables, events := OneKeyTables(key, buckets), OneKeyEvents(key, times);
    assert |times| == |buckets| by { FollowsLength(c, times, buckets); }
    forall i {:trigger events[i]} | 0 <= i < |events|
      ensures Enabled(c, tables[i], events[i]) && tables[i + 1] == Step(c, tables[i], events[i])
    {
      OneKeyStep(c, key, times, buckets, i);
    }
  }

  lemma FollowsLength(c: Config, times: seq<int>, buckets: seq<Bucket>)
    requires Follows(c, times, buckets)
    ensures |times| == |buckets|
  {
  }

  predicate IsLimited(c: Config, times: seq<int>, buckets: seq<Bucket>, i: nat)
    requires i < |times| == |buckets|
  {
    Counted(c, FoundAt(c, times, buckets, i), times[i]).1.Some?
  }

  lemma OneKeyUnlimitedStep(c: Config, key: Key, times: seq<int>, buckets: seq<Bucket>, k: nat)
    requires Normalised(c) && Follows(c, times, buckets) && k < |times|
    requires Run(c, OneKeyTables(key, buckets), OneKeyEvents(key, times))
    ensures var tables, events := OneKeyTables(key, buckets), OneKeyEvents(key, times);
            Unlimited(c, tables, events, key, k + 1) ==
              Unlimited(c, tables, events, key, k) + if IsLimited(c, times, buckets, k) then [] else [times[k]]
  {
    hide Step, Enabled, Limit, Counted, Normalised, Follows;
    FollowsLength(c, times, buckets);
    OneKeyStep(c, key, times, buckets, k);
  }

  lemma UnlimitedAtFirst(c: Config, tables: seq<Table>, events: seq<Event>, key: Key)
    requires Run(c, tables, events)
    ensures Unlimited(c, tables, events, key, 0) == []
  {
  }

  function Indices(from: nat, to: nat): (s: set<int>)
    requires from <= to
    ensures |s| == to - from && forall i :: i in s <==> from <= i < to
  {
    if from == to then {} else Indices(from, to - 1) + {to - 1}
  }

  lemma AllWithin(times: seq<int>, from: nat, start: int, length: int)
    requires from <= |times| && forall i :: 0 <= i < |times| ==> (start <= times[i] <= start + length <==> i >= from)
    ensures |Within(times, start, length)| == |times| - from
  {
    assert Within(times, start, length) == Indices(from, |times|);
  }

  /** A run that meets the assumptions of the window bound, with `count` unlimited failures in one window. */
  ghost predicate LetsThrough(c: Config, key: Key, tables: seq<Table>, events: seq<Event>, start: int, count: int) {
    && Run(c, tables, events) && Monotone(events) && (forall j :: 0 <= j < |events| ==> Spares(events[j], key))
    && |Within(Unlimited(c, tables, events, key, |events|), start, c.window)| == count
  }

  // Rounds of threshold failures at once, the last of which locks, each round when the lock of the one before ends.
  // A late run puts one period before them that is as old as a period gets, with all but its first failure at the end.

  function Lead(c: Config, late: bool): int { if late then c.threshold - 1 else 0 }

  function TightTime(c: Config, late: bool, i: nat): int
    requires Normalised(c)
  {
    if i < Lead(c, late) then (if i == 0 then 0 else c.window)
    else (if late then c.window + 1 else 0) + (i - Lead(c, late)) / c.threshold * c.lockout
  }

  /** The bucket after failure i. */
  function TightBucket(c: Config, late: bool, i: nat): Bucket
    requires Normalised(c)
  {
    var t := TightTime(c, late, i);
    if i < Lead(c, late) then Bucket(i + 1, Some(0), None, t)
    else
      var r := (i - Lead(c, late)) % c.threshold;
      if r < c.threshold - 1 then Bucket(r + 1, Some(t), None, t) else Bucket(0, None, Some(t + c.lockout), t)
  }

  predicate TightLocks(c: Config, late: bool, i: nat)
    requires Normalised(c)
  {
    i >= Lead(c, late) && (i - Lead(c, late)) % c.threshold == c.threshold - 1
  }

  lemma RoundNext(x: int, d: int)
    requires x > 0 && d > 0
    ensures if x % d > 0 then (x - 1) / d == x / d && (x - 1) % d == x % d - 1
            else (x - 1) / d == x / d - 1 && (x - 1) % d == d - 1
  {
    assert x == x / d * d + x % d;
    if x % d > 0 {
      QuotientIs(x - 1, d, x / d, x % d - 1);
    } else {
      OneLockoutMore(x / d - 1, d);
      QuotientIs(x - 1, d, x / d - 1, d - 1);
    }
  }

  lemma TightAt(c: Config, late: bool, i: nat)
    requires Normalised(c) && (late ==> c.threshold > 1)
    ensures var t := TightTime(c, late, i);
            var found := if i > 0 && Alive(c, TightBucket(c, late, i - 1), t) then TightBucket(c, late, i - 1) else NewBucket;
            && Counted(c, found, t).0 == TightBucket(c, late, i)
            && (Counted(c, found, t).1.Some? <==> TightLocks(c, late, i))
  {
    var x := i - Lead(c, late);
    if x > 0 {
      RoundNext(x, c.threshold);
      OneLockoutMore(x / c.threshold - 1, c.lockout);
    } else if x == 0 {
      QuotientIs(0, c.threshold, 0, 0);
    }
  }

  function TightTimes(c: Config, late: bool, n: nat): (times: seq<int>)
    requires Normalised(c)
    ensures |times| == n && forall i :: 0 <= i < n ==> times[i] == TightTime(c, late, i)
  {
    seq(n, i requires 0 <= i < n => TightTime(c, late, i))
  }

  function TightBuckets(c: Config, late: bool, n: nat): (buckets: seq<Bucket>)
    requires Normalised(c)
    ensures |buckets| == n && forall i :: 0 <= i < n ==> buckets[i] == TightBucket(c, late, i)
  {
    seq(n, i requires 0 <= i < n => TightBucket(c, late, i))
  }

  lemma TightFollow(c: Config, late: bool, n: nat)
    requires Normalised(c) && (c.maxEntries > 1 || n <= 1) && (late ==> c.threshold > 1)
    ensures Follows(c, TightTimes(c, late, n), TightBuckets(c, late, n))
    ensures forall i :: 0 <= i < n ==> (IsLimited(c, TightTimes(c, late, n), TightBuckets(c, late, n), i) <==> TightLocks(c, late, i))
  {
    hide Counted, Alive, TightTime, TightBucket, TightLocks;
    var times, buckets := TightTimes(c, late, n), TightBuckets(c, late, n);
    forall i | 0 <= i < n
      ensures buckets[i] == Counted(c, FoundAt(c, times, buckets, i), times[i]).0
      ensures IsLimited(c, times, buckets, i) <==> TightLocks(c, late, i)
    {
      TightAt(c, late, i);
    }
  }

  lemma LaterRound(x: int, y: int, d: int)
    requires 0 <= x <= y && d > 0
    ensures 0 <= x / d <= y / d
  {
    AtMostQuotient(x, d, 0);
    AtMostQuotient(y, d, x / d);
  }

  lemma TightInOrder(c: Config, late: bool, i: nat, j: nat)
    requires Normalised(c) && i <= j
    ensures TightTime(c, late, i) <= TightTime(c, late, j)
  {
    var x, y := i - Lead(c, late), j - Lead(c, late);
    if y >= 0 {
      AtMostQuotient(y, c.threshold, 0);
      MoreIsMore(0, y / c.threshold, c.lockout);
      if x >= 0 {
        LaterRound(x, y, c.threshold);
        MoreIsMore(x / c.threshold, y / c.threshold, c.lockout);
      }
    }
  }

  function TightEvents(c: Config, key: Key, late: bool, n: nat): seq<Event>
    requires Normalised(c)
  {
    OneKeyEvents(key, TightTimes(c, late, n))
  }

  function TightTables(c: Config, key: Key, late: bool, n: nat): seq<Table>
    requires Normalised(c)
  {
    OneKeyTables(key, TightBuckets(c, late, n))
  }

  lemma TightRun(c: Config, key: Key, late: bool, n: nat)
    requires Normalised(c) && (c.maxEntries > 1 || n <= 1) && (late ==> c.threshold > 1)
    ensures Run(c, TightTables(c, key, late, n), TightEvents(c, key, late, n)) && Monotone(TightEvents(c, key, late, n))
    ensures forall j :: 0 <= j < n ==> Spares(TightEvents(c, key, late, n)[j], key)
  {
    TightFollow(c, late, n);
    hide Follows, TightTime, Run;
    OneKeyRun(c, key, TightTimes(c, late, n), TightBuckets(c, late, n));
    forall i, j | 0 <= i <= j < n ensures TightTime(c, late, i) <= TightTime(c, late, j) { TightInOrder(c, late, i, j); }
  }

  lemma TightUnlimitedStep(c: Config, key: Key, late: bool, n: nat, k: nat)
    requires Normalised(c) && (c.maxEntries > 1 || n <= 1) && (late ==> c.threshold > 1) && k < n
    requires Run(c, TightTables(c, key, late, n), TightEvents(c, key, late, n))
    ensures Unlimited(c, TightTables(c, key, late, n), TightEvents(c, key, late, n), key, k + 1) ==
              Unlimited(c, TightTables(c, key, late, n), TightEvents(c, key, late, n), key, k)
              + if TightLocks(c, late, k) then [] else [TightTime(c, late, k)]
  {
    TightFollow(c, late, n);
    hide Follows, TightTime, Run, IsLimited, TightLocks, Unlimited;
    OneKeyUnlimitedStep(c, key, TightTimes(c, late, n), TightBuckets(c, late, n), k);
  }

  /** How many of the first k failures are let through. */
  function TightCount(c: Config, late: bool, k: nat): int
    requires Normalised(c)
  {
    if k <= Lead(c, late) then k else k - (k - Lead(c, late)) / c.threshold
  }

  lemma TightCountNext(c: Config, late: bool, k: nat)
    requires Normalised(c)
    ensures TightCount(c, late, 0) == 0
    ensures TightCount(c, late, k + 1) == TightCount(c, late, k) + if TightLocks(c, late, k) then 0 else 1
  {
    var x := k + 1 - Lead(c, late);
    QuotientIs(0, c.threshold, 0, 0);
    if x > 0 { RoundNext(x, c.threshold); }
  }

  /** All times fall into the window, but for the first of a late run. */
  predicate InWindow(c: Config, late: bool, start: int, times: seq<int>) {
    forall i :: 0 <= i < |times| ==> (start <= times[i] <= start + c.window <==> !late || i > 0)
  }

  /** What is let through of the first k failures. */
  ghost predicate TightTells(c: Config, late: bool, start: int, k: nat, times: seq<int>)
    requires Normalised(c)
  {
    |times| == TightCount(c, late, k) && (k > 0 && late ==> |times| > 0) && InWindow(c, late, start, times)
  }

  lemma TightTellsFirst(c: Config, late: bool, start: int)
    requires Normalised(c)
    ensures TightTells(c, late, start, 0, [])
  {
    TightCountNext(c, late, 0);
  }

  lemma TightTellsNext(c: Config, late: bool, start: int, k: nat, times: seq<int>)
    requires Normalised(c) && (late ==> c.threshold > 1) && TightTells(c, late, start, k, times)
    requires start <= TightTime(c, late, k) <= start + c.window <==> !late || k > 0
    ensures TightTells(c, late, start, k + 1, times + if TightLocks(c, late, k) then [] else [TightTime(c, late, k)])
  {
    FirstIsNoLock(c, late);
    TightCountNext(c, late, k);
    TightCountNext(c, late, 0);
    hide TightCount, TightTime, TightLocks;
    assert times + [] == times;
  }

  /** Failure k of the run is let through unless it locks, and its time lies in the window unless it is the first of a late run. */
  ghost predicate TightStep(c: Config, key: Key, late: bool, start: int, tables: seq<Table>, events: seq<Event>, k: nat)
    requires Normalised(c) && Run(c, tables, events) && k < |events|
  {
    && Unlimited(c, tables, events, key, k + 1) ==
         Unlimited(c, tables, events, key, k) + (if TightLocks(c, late, k) then [] else [TightTime(c, late, k)])
    && (start <= TightTime(c, late, k) <= start + c.window <==> !late || k > 0)
  }

  lemma {:induction false} TightStepsTell(c: Config, key: Key, late: bool, start: int, tables: seq<Table>, events: seq<Event>, k: nat)
    requires Normalised(c) && (late ==> c.threshold > 1) && Run(c, tables, events) && k <= |events|
    requires forall i: nat :: i < |events| ==> TightStep(c, key, late, start, tables, events, i)
    ensures TightTells(c, late, start, k, Unlimited(c, tables, events, key, k))
  {
    if k == 0 {
      UnlimitedAtFirst(c, tables, events, key);
      TightTellsFirst(c, late, start);
    } else {
      hide Run, TightTells, TightLocks, TightTime;
      TightStepsTell(c, key, late, start, tables, events, k - 1);
      assert TightStep(c, key, late, start, tables, events, k - 1);
      TightTellsNext(c, late, start, k - 1, Unlimited(c, tables, events, key, k - 1));
    }
  }

  lemma TightUnlimited(c: Config, key: Key, late: bool, n: nat, start: int)
    requires Normalised(c) && (c.maxEntries > 1 || n <= 1) && (late ==> c.threshold > 1)
    requires Run(c, TightTables(c, key, late, n), TightEvents(c, key, late, n))
    requires InWindow(c, late, start, TightTimes(c, late, n))
    ensures |TightEvents(c, key, late, n)| == n
    ensures TightTells(c, late, start, n, Unlimited(c, TightTables(c, key, late, n), TightEvents(c, key, late, n), key, n))
  {
    var tables, events := TightTables(c, key, late, n), TightEvents(c, key, late, n);
    assert |events| == n;
    hide TightTables, TightEvents, Run, Unlimited, InWindow, TightTells, TightLocks, TightTime;
    forall i: nat | i < |events| ensures TightStep(c, key, late, start, tables, events, i) {
      TightUnlimitedStep(c, key, late, n, i);
      TimeInWindow(c, late, start, n, i);
    }
    TightStepsTell(c, key, late, start, tables, events, n);
  }

  lemma TimeInWindow(c: Config, late: bool, start: int, n: nat, i: nat)
    requires Normalised(c) && InWindow(c, late, start, TightTimes(c, late, n))
    ensures i < n ==> (start <= TightTime(c, late, i) <= start + c.window <==> !late || i > 0)
  {
    hide TightTime;
  }

  lemma FirstIsNoLock(c: Config, late: bool)
    requires Normalised(c) && (late ==> c.threshold > 1)
    ensures late ==> !TightLocks(c, late, 0)
  {
  }

  lemma TightLetsThrough(c: Config, key: Key, late: bool, n: nat, start: int)
    requires Normalised(c) && (c.maxEntries > 1 || n <= 1) && (late ==> c.threshold > 1 && n > 0)
    requires InWindow(c, late, start, TightTimes(c, late, n))
    ensures LetsThrough(c, key, TightTables(c, key, late, n), TightEvents(c, key, late, n), start,
                        TightCount(c, late, n) - if late then 1 else 0)
  {
    TightRun(c, key, late, n);
    TightUnlimited(c, key, late, n, start);
    hide Run, Unlimited, TightTime, TightCount, TightTables, TightEvents, Within, Monotone, Spares;
    var times := Unlimited(c, TightTables(c, key, late, n), TightEvents(c, key, late, n), key, n);
    AllWithin(times, if late then 1 else 0, start, c.window);
  }

  /** As many rounds as start within a window, and all of the last one but the failure that locks. */
  function Rounds(c: Config, late: bool): int
    requires Normalised(c)
  {
    (if late then c.window - 1 else c.window) / c.lockout
  }

  function TightLength(c: Config, late: bool): int
    requires Normalised(c)
  {
    Lead(c, late) + (Rounds(c, late) + 1) * c.threshold - 1
  }

  lemma RoundsStart(c: Config, late: bool)
    requires Normalised(c)
    ensures Rounds(c, late) >= 0 && Rounds(c, late) * c.lockout <= if late then c.window - 1 else c.window
    ensures TightLength(c, late) >= Lead(c, late)
    ensures late && c.threshold > 1 ==> TightLength(c, late) > 0
  {
    AtMostQuotient(if late then c.window - 1 else c.window, c.lockout, 0);
    MoreIsMore(1, Rounds(c, late) + 1, c.threshold);
  }

  lemma TightInWindow(c: Config, late: bool, i: nat)
    requires Normalised(c) && (late ==> c.threshold > 1) && i < TightLength(c, late)
    ensures var start := if late then c.window else 0;
            start <= TightTime(c, late, i) <= start + c.window <==> !late || i > 0
  {
    RoundsStart(c, late);
    var x := i - Lead(c, late);
    if x >= 0 {
      var q, rounds := x / c.threshold, Rounds(c, late);
      AtMostQuotient(x, c.threshold, 0);
      if q > rounds { MoreIsMore(rounds + 1, q, c.threshold); }
      MoreIsMore(0, q, c.lockout);
      MoreIsMore(q, rounds, c.lockout);
    }
  }

  lemma TightReaches(c: Config, key: Key)
    requires Normalised(c) && c.maxEntries > 1 && c.threshold > 1
    ensures var late := c.window % c.lockout != 0;
            LetsThrough(c, key, TightTables(c, key, late, TightLength(c, late)), TightEvents(c, key, late, TightLength(c, late)),
                        if late then c.window else 0, Bound(c))
  {
    var late := c.window % c.lockout != 0;
    var n := TightLength(c, late);
    RoundsStart(c, late);
    TightTotal(c, late);
    hide LetsThrough, TightTime, TightLength, TightCount, Bound;
    forall i: nat | i < n
      ensures var start := if late then c.window else 0;
              start <= TightTime(c, late, i) <= start + c.window <==> !late || i > 0
    {
      TightInWindow(c, late, i);
    }
    TightLetsThrough(c, key, late, n, if late then c.window else 0);
  }

  lemma TightTotal(c: Config, late: bool)
    requires Normalised(c) && c.threshold > 1 && (late <==> c.window % c.lockout != 0)
    ensures TightLength(c, late) >= 0
    ensures TightCount(c, late, TightLength(c, late)) - (if late then 1 else 0) == Bound(c)
  {
    var rounds, n := Rounds(c, late), TightLength(c, late);
    RoundsStart(c, late);
    SmallerQuotient(c.window, c.lockout);
    OneLockoutMore(rounds, c.threshold);
    QuotientIs(n - Lead(c, late), c.threshold, rounds, c.threshold - 1);
    RoundsTimes(rounds, c.threshold);
  }

  lemma RoundsTimes(rounds: int, threshold: int)
    ensures (rounds + 1) * threshold - 1 - rounds == (rounds + 1) * (threshold - 1)
    ensures (rounds + 1) * (threshold - 1) + (threshold - 1) == (rounds + 2) * (threshold - 1)
  {
  }

  lemma {:induction false} NothingBeforeFirst(c: Config, key: Key, start: int)
    requires Normalised(c)
    ensures LetsThrough(c, key, [map[]], [], start, 0)
  {
    assert Unlimited(c, [map[]], [], key, 0) == [];
    assert Within([], start, c.window) == {};
  }

  /** With a single place: the key's bucket tells its last unlimited failure, and they are a window apart. */
  predicate OnePlaceTells(c: Config, t: Table, times: seq<int>, clock: int, key: Key) {
    && (forall i, j :: 0 <= i < j < |times| ==> times[j] - times[i] > c.window)
    && (forall i :: 0 <= i < |times| ==> times[i] <= times[|times| - 1] <= clock)
    && if key in t then times != [] && t[key].firstFailure == Some(times[|times| - 1])
       else times == [] || times[|times| - 1] + c.window < clock
  }

  lemma OnePlaceIsEmptied(c: Config, t: Table, e: Event, key: Key)
    requires c.maxEntries == 1 && Enabled(c, t, e) && e.Failure? && key !in e.evicted
    ensures key !in Pruned(c, t, e.now) && Room(c, t, e.now, e.evicted) == map[]
  {
    var p := Pruned(c, t, e.now);
    if |p| < 1 {
      assert p == map[];
    } else {
      assert p.Keys - e.evicted == {};
      assert Room(c, t, e.now, e.evicted).Keys == p.Keys - e.evicted;
    }
  }

  lemma OnePlaceTellsStep(c: Config, t: Table, e: Event, times: seq<int>, clock: int, key: Key)
    requires Normalised(c) && c.maxEntries == 1 && c.threshold > 1 && Enabled(c, t, e) && NothingLocked(t)
    requires OnePlaceTells(c, t, times, clock, key) && Spares(e, key) && clock <= e.now
    ensures OnePlaceTells(c, Step(c, t, e), times + if LetThrough(c, t, e, key) then [e.now] else [], e.now, key)
  {
    OnePlaceStep(c, t, e);
    if e.Failure? { OnePlaceIsEmptied(c, t, e, key); }
  }

  /** The clock of the last of the first `k` events. */
  function ClockAt(events: seq<Event>, k: nat): int
    requires k <= |events|
  {
    if events == [] then 0 else if k == 0 then events[0].now else events[k - 1].now
  }

  lemma OnePlaceTellsNext(c: Config, tables: seq<Table>, events: seq<Event>, key: Key, k: nat)
    requires Normalised(c) && c.maxEntries == 1 && c.threshold > 1 && Run(c, tables, events) && Monotone(events)
    requires k < |events| && Spares(events[k], key)
    requires OnePlaceTells(c, tables[k], Unlimited(c, tables, events, key, k), ClockAt(events, k), key)
    ensures OnePlaceTells(c, tables[k + 1], Unlimited(c, tables, events, key, k + 1), ClockAt(events, k + 1), key)
  {
    hide Run, Step, Enabled, OnePlaceTells, LetThrough, NothingLocked, Spares, Normalised;
    OnePlaceNeverLimits(c, tables, events, k);
    RunStep(c, tables, events, k);
    OnePlaceTellsStep(c, tables[k], events[k], Unlimited(c, tables, events, key, k), ClockAt(events, k), key);
  }

  lemma {:induction false} OnePlaceRun(c: Config, tables: seq<Table>, events: seq<Event>, key: Key, k: nat)
    requires Normalised(c) && c.maxEntries == 1 && c.threshold > 1 && Run(c, tables, events) && Monotone(events)
    requires k <= |events| && forall j :: 0 <= j < |events| ==> Spares(events[j], key)
    ensures OnePlaceTells(c, tables[k], Unlimited(c, tables, events, key, k), ClockAt(events, k), key)
  {
    hide Run, OnePlaceTells, Spares, Normalised, Monotone;
    RunBegins(c, tables, events);
    if k == 0 {
      NothingToTell(c, ClockAt(events, 0), key);
    } else {
      OnePlaceRun(c, tables, events, key, k - 1);
      OnePlaceTellsNext(c, tables, events, key, k - 1);
    }
  }

  lemma NothingToTell(c: Config, clock: int, key: Key)
    ensures OnePlaceTells(c, map[], [], clock, key)
  {
  }

  lemma OnePlaceLetsOneThrough(c: Config, key: Key, tables: seq<Table>, events: seq<Event>, start: int, count: int)
    requires Normalised(c) && c.maxEntries == 1 && c.threshold > 1 && LetsThrough(c, key, tables, events, start, count)
    ensures count <= 1
  {
    OnePlaceRun(c, tables, events, key, |events|);
    var times := Unlimited(c, tables, events, key, |events|);
    var hits := Within(times, start, c.window);
    if hits != {} { NarrowSet(hits, Least(hits), 1); }
  }

  /** One failure is let through wherever the threshold is not one. */
  lemma FirstIsLetThrough(c: Config, key: Key)
    requires Normalised(c) && c.threshold > 1
    ensures LetsThrough(c, key, TightTables(c, key, false, 1), TightEvents(c, key, false, 1), 0, 1)
  {
    QuotientIs(0, c.threshold, 0, 0);
    QuotientIs(1, c.threshold, 0, 1);
    TightLetsThrough(c, key, false, 1, 0);
  }

  lemma BoundReached(c: Config, key: Key)
    requires Normalised(c) && (c.maxEntries > 1 || Bound(c) <= 1)
    ensures exists tables: seq<Table>, events: seq<Event>, start ::
              LetsThrough(c, key, tables, events, start, Bound(c))
  {
    hide LetsThrough, TightTables, TightEvents, TightLength;
    if c.threshold == 1 {
      NothingBeforeFirst(c, key, 0);
      assert LetsThrough(c, key, [map[]], [], 0, Bound(c));
    } else if c.maxEntries == 1 {
      LockoutsFit(c, 0);
      FirstIsLetThrough(c, key);
      assert LetsThrough(c, key, TightTables(c, key, false, 1), TightEvents(c, key, false, 1), 0, Bound(c));
    } else {
      TightReaches(c, key);
    }
  }

  /**
   No smaller bound would do: for every threshold and every lockout some run reaches it, unless the table has a
   single place, where no window holds more than one unlimited failure of a key.
   */
  lemma BoundIsReachedExactly(c: Config, key: Key)
    requires Normalised(c)
    ensures (exists tables: seq<Table>, events: seq<Event>, start ::
               LetsThrough(c, key, tables, events, start, Bound(c)))
            <==> c.maxEntries > 1 || Bound(c) <= 1
  {
    if c.maxEntries > 1 || Bound(c) <= 1 {
      BoundReached(c, key);
    } else {
      forall tables: seq<Table>, events: seq<Event>, start | LetsThrough(c, key, tables, events, start, Bound(c)) ensures false {
        OnePlaceLetsOneThrough(c, key, tables, events, start, Bound(c));
      }
    }
  }

  ghost predicate LimitsSometime(c: Config, key: Key, tables: seq<Table>, events: seq<Event>, k: nat) {
    && Run(c, tables, events) && k < |events|
    && events[k].Failure? && events[k].key == key && Limit(c, tables[k], events[k]).Some?
  }

  lemma OneKeyIsLimited(c: Config, key: Key)
    requires Normalised(c) && (c.maxEntries > 1 || c.threshold == 1)
    ensures LimitsSometime(c, key, TightTables(c, key, false, c.threshold), TightEvents(c, key, false, c.threshold), c.threshold - 1)
  {
    var n := c.threshold;
    TightRun(c, key, false, n);
    TightFollow(c, false, n);
    QuotientIs(n - 1, n, 0, n - 1);
    hide Run, Limit, Counted, FoundAt, Follows, TightTime, TightBucket;
    OneKeyStep(c, key, TightTimes(c, false, n), TightBuckets(c, false, n), n - 1);
    assert IsLimited(c, TightTimes(c, false, n), TightBuckets(c, false, n), n - 1);
  }

  /**
   Whether the limiter can limit at all: it does for every key exactly if its table has more than one place, or a
   single failure is already too many.
   */
  lemma LimitsExactly(c: Config, key: Key)
    requires Normalised(c)
    ensures (exists tables: seq<Table>, events: seq<Event>, k: nat :: LimitsSometime(c, key, tables, events, k))
            <==> c.maxEntries > 1 || c.threshold == 1
  {
    if c.maxEntries > 1 || c.threshold == 1 {
      OneKeyIsLimited(c, key);
    } else {
      forall tables: seq<Table>, events: seq<Event>, k: nat | Run(c, tables, events) && k < |events|
        ensures Limit(c, tables[k], events[k]).None?
      {
        OnePlaceNeverLimits(c, tables, events, k);
      }
    }
  }

  // ----- when one failure is limited -----

  /** The bucket limits the next failure: it is locked, or that failure is the last one allowed for. */
  predicate Ripe(c: Config, b: Bucket) { b.lockedUntil.Some? || b.failures + 1 >= c.threshold }

  lemma LimitedGivenEviction(c: Config, t: Table, key: Key, now: int, evicted: set<Key>)
    requires Normalised(c)
    ensures Limit(c, t, Failure(key, now, evicted)).Some? <==>
              || c.threshold == 1
              || (key in Pruned(c, t, now) && key !in evicted && Ripe(c, t[key]))
  {
    var r := Room(c, t, now, evicted);
    assert key in r <==> key in Pruned(c, t, now) && key !in evicted;
    assert key in r ==> r[key] == t[key] && Alive(c, t[key], now);
  }

  function Older(p: Table, key: Key): set<Key>
    requires key in p
  {
    set k | k in p && p[k].lastSeen < p[key].lastSeen
  }

  function NotNewer(p: Table, key: Key): set<Key>
    requires key in p
  {
    set k | k in p && k != key && p[k].lastSeen <= p[key].lastSeen
  }

  /** How many keys have to go. */
  function Excess(c: Config, p: Table): int { |p| - c.maxEntries + 1 }

  lemma {:induction false} OldestIn(p: Table, s: set<Key>) returns (oldest: Key)
    requires s != {} && s <= p.Keys
    ensures oldest in s && forall k :: k in s ==> p[oldest].lastSeen <= p[k].lastSeen
    decreases |s|
  {
    oldest :| oldest in s;
    if s != {oldest} {
      var rest := OldestIn(p, s - {oldest});
      if p[rest].lastSeen < p[oldest].lastSeen { oldest := rest; }
    }
  }

  /** The n longest unseen of a set of keys. */
  lemma {:induction false} LongestUnseen(p: Table, s: set<Key>, n: nat) returns (r: set<Key>)
    requires s <= p.Keys && n <= |s|
    ensures r <= s && |r| == n && forall k, m :: k in r && m in s - r ==> p[k].lastSeen <= p[m].lastSeen
    decreases n
  {
    r := {};
    if n > 0 {
      var oldest := OldestIn(p, s);
      var rest := LongestUnseen(p, s - {oldest}, n - 1);
      r := rest + {oldest};
      assert s - r == (s - {oldest}) - rest;
    }
  }

  lemma SizeWithout(s: set<Key>, r: set<Key>)
    requires r <= s
    ensures |s - r| == |s| - |r|
  {
    assert s == (s - r) + r;
  }

  /** The key can stay exactly if there is room, or enough others were seen no later than it. */
  lemma CanStayExactly(c: Config, p: Table, key: Key)
    requires key in p && c.maxEntries > 0
    ensures (exists evicted :: MakesRoom(c, p, evicted) && key !in evicted) <==>
              |p| < c.maxEntries || |NotNewer(p, key)| >= Excess(c, p)
  {
    if |p| < c.maxEntries {
      assert MakesRoom(c, p, {}) && key !in {};
    } else if |NotNewer(p, key)| >= Excess(c, p) {
      var evicted := LongestUnseen(p, NotNewer(p, key), Excess(c, p));
      SizeWithout(p.Keys, evicted);
      assert MakesRoom(c, p, evicted) && key !in evicted;
    } else {
      forall evicted | MakesRoom(c, p, evicted) ensures key in evicted {
        SizeWithout(p.Keys, evicted);
        if key !in evicted {
          assert evicted <= NotNewer(p, key);
          SubsetSize(evicted, NotNewer(p, key));
        }
      }
    }
  }

  /** Filling up behind the older ones, the key is evicted. */
  lemma EvictionWith(c: Config, p: Table, key: Key) returns (evicted: set<Key>)
    requires key in p && c.maxEntries > 0 && |p| >= c.maxEntries && |Older(p, key)| < Excess(c, p)
    ensures MakesRoom(c, p, evicted) && key in evicted
  {
    var first := Older(p, key) + {key};
    SizeWithout(p.Keys, first);
    SizeWithout(first, {key});
    var more := LongestUnseen(p, p.Keys - first, Excess(c, p) - |first|);
    evicted := first + more;
    SizeWithout(evicted, first);
    assert evicted - first == more;
    SizeWithout(p.Keys, evicted);
  }

  /** The key can be evicted exactly if there is no room and too few were seen before it. */
  lemma CanGoExactly(c: Config, p: Table, key: Key)
    requires key in p && c.maxEntries > 0
    ensures (exists evicted :: MakesRoom(c, p, evicted) && key in evicted) <==>
              |p| >= c.maxEntries && |Older(p, key)| < Excess(c, p)
  {
    if |p| >= c.maxEntries && |Older(p, key)| < Excess(c, p) {
      var evicted := EvictionWith(c, p, key);
    } else {
      forall evicted | MakesRoom(c, p, evicted) ensures key !in evicted {
        SizeWithout(p.Keys, evicted);
        if key in evicted {
          SizeWithout(evicted, {key});
          SubsetSize(Older(p, key), evicted - {key});
        }
      }
    }
  }

  lemma RoomCanBeMade(c: Config, p: Table)
    requires c.maxEntries > 0
    ensures exists evicted :: MakesRoom(c, p, evicted)
  {
    if |p| < c.maxEntries {
      assert MakesRoom(c, p, {});
    } else {
      var evicted := LongestUnseen(p, p.Keys, Excess(c, p));
      SizeWithout(p.Keys, evicted);
      assert MakesRoom(c, p, evicted);
    }
  }

  /**
   When a failure is limited, in terms of the table alone: its key must have survived pruning with a ripe bucket, and
   then it can be if making room can spare it, and it must be if making room cannot reach it. Only keys seen at the
   very same moment leave the two apart.
   */
  lemma FailureLimitedExactly(c: Config, t: Table, key: Key, now: int)
    requires Normalised(c)
    ensures var p := Pruned(c, t, now);
            (exists evicted :: MakesRoom(c, p, evicted) && Limit(c, t, Failure(key, now, evicted)).Some?) <==>
              || c.threshold == 1
              || (key in p && Ripe(c, p[key]) && (|p| < c.maxEntries || |NotNewer(p, key)| >= Excess(c, p)))
    ensures var p := Pruned(c, t, now);
            (forall evicted :: MakesRoom(c, p, evicted) ==> Limit(c, t, Failure(key, now, evicted)).Some?) <==>
              || c.threshold == 1
              || (key in p && Ripe(c, p[key]) && (|p| < c.maxEntries || |Older(p, key)| >= Excess(c, p)))
  {
    var p := Pruned(c, t, now);
    forall evicted ensures Limit(c, t, Failure(key, now, evicted)).Some? <==>
        c.threshold == 1 || (key in p && key !in evicted && Ripe(c, p[key]))
    {
      LimitedGivenEviction(c, t, key, now, evicted);
    }
    RoomCanBeMade(c, p);
    if key in p {
      CanStayExactly(c, p, key);
      CanGoExactly(c, p, key);
    }
    hide *;
  }

  // ----- the tables as they are updated -----

  /** One of the limiter's two bucket tables with its own threshold. */
  class BucketTable {
    const config: Config
    var buckets: Table

    constructor (config: Config)
      ensures this.config == config && buckets == map[]
    {
      this.config := config;
      buckets := map[];
    }

    method Prune(now: int)
      modifies this
      ensures buckets == Pruned(config, old(buckets), now)
    {
      var rest := buckets.Keys;
      var was := buckets;
      while rest != {}
        invariant rest <= was.Keys && was.Keys - rest <= was.Keys
        invariant buckets == map k | k in was && (k in rest || Alive(config, was[k], now)) :: was[k]
        decreases rest
      {
        var k :| k in rest;
        rest := rest - {k};
        if !Alive(config, buckets[k], now) { buckets := buckets - {k}; }
      }
    }

    /** The key seen longest ago. */
    method Oldest() returns (oldest: Key)
      requires buckets != map[]
      ensures oldest in buckets
      ensures forall k :: k in buckets ==> buckets[oldest].lastSeen <= buckets[k].lastSeen
    {
      var rest := buckets.Keys;
      oldest :| oldest in rest;
      rest := rest - {oldest};
      while rest != {}
        invariant rest <= buckets.Keys && oldest in buckets
        invariant forall k :: k in buckets && k !in rest ==> buckets[oldest].lastSeen <= buckets[k].lastSeen
        decreases rest
      {
        var k :| k in rest;
        rest := rest - {k};
        if buckets[k].lastSeen < buckets[oldest].lastSeen { oldest := k; }
      }
    }

    method MakeRoom(now: int) returns (ghost evicted: set<Key>)
      requires config.maxEntries > 0 && Pruned(config, buckets, now) == buckets
      modifies this
      ensures MakesRoom(config, old(buckets), evicted) && buckets == old(buckets) - evicted
    {
      evicted := {};
      ghost var was := buckets;
      EvictedKeys(was, {});
      if |buckets| < config.maxEntries { return; }
      Prune(now);
      while |buckets| >= config.maxEntries
        invariant LongestUnseenGo(was, evicted) && buckets == was - evicted && |buckets| >= config.maxEntries - 1
        decreases |buckets|
      {
        var oldest := Oldest();
        EvictNext(was, evicted, oldest);
        buckets := buckets - {oldest};
        evicted := evicted + {oldest};
      }
      EvictedKeys(was, evicted);
    }

    method CheckBucket(key: Key, now: int) returns (until: Option<int>)
      modifies this
      ensures buckets == if key in old(buckets) then old(buckets)[key := Checked(old(buckets)[key], now).0] else old(buckets)
      ensures until == if key in old(buckets) then Checked(old(buckets)[key], now).1 else None
    {
      if key !in buckets { return None; }
      var b := buckets[key];
      if b.lockedUntil.Some? {
        if now < b.lockedUntil.value {
          buckets := buckets[key := b.(lastSeen := now)];
          return b.lockedUntil;
        }
        b := b.(lockedUntil := None);
      }
      buckets := buckets[key := b];
      return None;
    }

    /** `recordFailure`, called on a table that was just pruned. */
    method RecordFailure(key: Key, now: int, ghost t: Table) returns (until: Option<int>, ghost e: Event)
      requires Normalised(config) && buckets == Pruned(config, t, now)
      modifies this
      ensures e.Failure? && e.key == key && e.now == now && Enabled(config, t, e)
      ensures buckets == Step(config, t, e) && until == Limit(config, t, e)
    {
      PrunedTwice(config, t, now);
      ghost var evicted := MakeRoom(now);
      e := Failure(key, now, evicted);
      until := Count(key, now);
    }

    method Count(key: Key, now: int) returns (until: Option<int>)
      modifies this
      ensures var (b, limit) := Counted(config, Lookup(old(buckets), key), now);
              buckets == old(buckets)[key := b] && until == limit
    {
      var b := if key in buckets then buckets[key] else NewBucket;
      buckets := buckets[key := b.(lastSeen := now)];
      until := CheckBucket(key, now);
      if until.Some? { return; }
      b := buckets[key];
      if b.firstFailure.None? || now - b.firstFailure.value > config.window {
        b := b.(failures := 0, firstFailure := Some(now));
      }
      b := b.(failures := b.failures + 1);
      if b.failures >= config.threshold {
        b := b.(failures := 0, firstFailure := None, lockedUntil := Some(now + config.lockout));
        until := b.lockedUntil;
      }
      buckets := buckets[key := b];
    }
  }

  lemma PrunedTwice(c: Config, t: Table, now: int)
    ensures Pruned(c, Pruned(c, t, now), now) == Pruned(c, t, now)
  {
  }

  /** A limited attempt says which of the two tables refused it. */
  datatype Decision = Free | ByUser(until: int) | ByAddress(until: int)

  function Decide(user: Option<int>, address: Option<int>): Decision {
    if user.Some? then ByUser(user.value) else if address.Some? then ByAddress(address.value) else Free
  }

  class LoginLimiter {
    const users: BucketTable
    const addresses: BucketTable

    ghost predicate Valid()
      reads this
    {
      Normalised(users.config) && Normalised(addresses.config) && users != addresses
    }

    constructor (forUsers: Config, forAddresses: Config)
      requires Normalised(forUsers) && Normalised(forAddresses)
      ensures Valid() && users.buckets == map[] && addresses.buckets == map[]
      ensures users.config == forUsers && addresses.config == forAddresses
    {
      users := new BucketTable(forUsers);
      addresses := new BucketTable(forAddresses);
    }

    /** Both tables are pruned; the address is only looked at when the user name is not locked out. */
    method Check(user: Key, address: Key, now: int) returns (d: Decision)
      requires Valid()
      modifies users, addresses
      ensures var u := Event.Check(user, now);
              var a := Event.Check(address, now);
              && users.buckets == Step(users.config, old(users.buckets), u)
              && addresses.buckets ==
                   Step(addresses.config, old(addresses.buckets), if d.ByUser? then Tick(now) else a)
              && d == Decide(Limit(users.config, old(users.buckets), u), Limit(addresses.config, old(addresses.buckets), a))
    {
      users.Prune(now);
      addresses.Prune(now);
      var until := users.CheckBucket(user, now);
      if until.Some? { return ByUser(until.value); }
      until := addresses.CheckBucket(address, now);
      if until.Some? { return ByAddress(until.value); }
      return Free;
    }

    /** A failure counts against both keys, but an empty user name has no bucket. */
    method RecordFailure(user: Key, address: Key, now: int) returns (d: Decision, ghost u: Event, ghost a: Event)
      requires Valid()
      modifies users, addresses
      ensures if user == "" then u == Tick(now) else u.Failure? && u.key == user && u.now == now
      ensures a.Failure? && a.key == address && a.now == now
      ensures Enabled(users.config, old(users.buckets), u) && Enabled(addresses.config, old(addresses.buckets), a)
      ensures users.buckets == Step(users.config, old(users.buckets), u)
      ensures addresses.buckets == Step(addresses.config, old(addresses.buckets), a)
      ensures d == Decide(Limit(users.config, old(users.buckets), u), Limit(addresses.config, old(addresses.buckets), a))
    {
      users.Prune(now);
      addresses.Prune(now);
      u := Tick(now);
      var byUser: Option<int> := None;
      if user != "" { byUser, u := users.RecordFailure(user, now, old(users.buckets)); }
      var byAddress: Option<int>;
      byAddress, a := addresses.RecordFailure(address, now, old(addresses.buckets));
      if byUser.Some? { return ByUser(byUser.value), u, a; }
      if byAddress.Some? { return ByAddress(byAddress.value), u, a; }
      return Free, u, a;
    }

    /** Only the user name's bucket is cleared: an address keeps its failures. */
    method RecordSuccess(user: Key, ghost now: int)
      requires Valid()
      modifies users
      ensures users.buckets == Step(users.config, old(users.buckets), Success(user, now))
    {
      users.buckets := users.buckets - {user};
    }
  }
}
