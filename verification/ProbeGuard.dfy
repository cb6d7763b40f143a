/**
 The admission guard for password probes. Table entries are pointers that the finish closures keep, so
 an entry is a reference into `heap` and a closure holds the reference it was born with, its key and the
 once-flag. Times are integer milliseconds; callers read their clock before they queue for the mutex.
 */
module ProbeGuard {
  import opened Common

  const TTL := 600_000
  const RETRY_WAIT := 30_000
  const RISK_WAIT := 300_000
  const MAX_ENTRIES := 1024

  datatype Key = Key(userId: int, channel: string, username: string)

  type Ref = nat
  type ProbeId = nat

  datatype Entry = Entry(active: bool, expires: int, retryAt: int)

  /** One finish closure. */
  datatype Probe = Probe(key: Key, ref: Ref, done: bool)

  datatype Ending = Success | Failure | RiskFailure

  /**
   `waits` remembers for each key the deadline its last failed probe set, until a probe of that key
   succeeds; `clock` is the largest clock reading any `begin` has brought along.
   */
  datatype State = State(entries: map<Key, Ref>, heap: map<Ref, Entry>, probes: map<ProbeId, Probe>,
                         waits: map<Key, int>, clock: int)

  predicate Initial(s: State) { s.entries == map[] && s.heap == map[] && s.probes == map[] && s.waits == map[] }

  datatype Verdict = Admitted | AlreadyActive | StillWaiting | TableFull

  datatype Label =
    | Begin(p: ProbeId, ref: Ref, key: Key, now: int)
    | Finish(p: ProbeId, ending: Ending, completed: int)

  /** `ref` stands for the allocation `begin` makes if it needs one. */
  predicate Enabled(s: State, l: Label) {
    match l
    case Begin(p, ref, _, _) => p !in s.probes && ref !in s.heap
    case Finish(p, _, _) => p in s.probes
  }

  /** The pruning pass at the head of `begin`; every table entry points into the heap. */
  function Prune(entries: map<Key, Ref>, heap: map<Ref, Entry>, now: int): map<Key, Ref> {
    map k | k in entries && !(entries[k] in heap && !heap[entries[k]].active && now >= heap[entries[k]].expires)
      :: entries[k]
  }

  function Judge(entries: map<Key, Ref>, heap: map<Ref, Entry>, key: Key, now: int): Verdict {
    if key in entries then
      if entries[key] !in heap || heap[entries[key]].active then AlreadyActive
      else if now < heap[entries[key]].retryAt then StillWaiting
      else Admitted
    else if |entries| >= MAX_ENTRIES then TableFull
    else Admitted
  }

  function Pruned(s: State, now: int): State {
    s.(entries := Prune(s.entries, s.heap, now), clock := Max(s.clock, now))
  }

  function Admit(s: State, p: ProbeId, newRef: Ref, key: Key): State {
    var ref := if key in s.entries then s.entries[key] else newRef;
    var e := if ref in s.heap then s.heap[ref] else Entry(false, 0, 0);
    s.(entries := s.entries[key := ref], heap := s.heap[ref := e.(active := true)],
       probes := s.probes[p := Probe(key, ref, false)])
  }

  function DoBegin(s: State, p: ProbeId, newRef: Ref, key: Key, now: int): State {
    var c := Pruned(s, now);
    if Judge(c.entries, c.heap, key, now) == Admitted then Admit(c, p, newRef, key) else c
  }

  function Deadline(ending: Ending, completed: int): int {
    completed + if ending.RiskFailure? then RISK_WAIT else RETRY_WAIT
  }

  function DoFinish(s: State, p: ProbeId, ending: Ending, completed: int): State
    requires p in s.probes
  {
    var Probe(key, ref, done) := s.probes[p];
    if done then s
    else
      var over := s.(probes := s.probes[p := Probe(key, ref, true)]);
      if ending.Success? then over.(entries := s.entries - {key}, waits := s.waits - {key})
      else over.(heap := s.heap[ref := Entry(false, completed + TTL, Deadline(ending, completed))],
                 waits := s.waits[key := Deadline(ending, completed)])
  }

  function Step(s: State, l: Label): State
    requires Enabled(s, l)
  {
    match l
    case Begin(p, ref, key, now) => DoBegin(s, p, ref, key, now)
    case Finish(p, ending, completed) => DoFinish(s, p, ending, completed)
  }

  // ----- the inductive invariant -----

  predicate Live(s: State, p: ProbeId, key: Key) { p in s.probes && !s.probes[p].done && s.probes[p].key == key }

  ghost predicate InFlight(s: State, key: Key) { exists p :: Live(s, p, key) }

  /**
   An entry is active exactly while one unfinished closure holds it; an idle entry carries the deadline of
   the last failure, which no later pruning can undercut because it never exceeds the entry's expiry.
   */
  ghost predicate KeyOk(s: State, k: Key) {
    && (forall p, q :: Live(s, p, k) && Live(s, q, k) ==> p == q)
    && (forall p :: Live(s, p, k) ==> k in s.entries && s.entries[k] == s.probes[p].ref)
    && (k in s.entries ==>
          && s.entries[k] in s.heap
          && (s.heap[s.entries[k]].active <==> InFlight(s, k))
          && (!s.heap[s.entries[k]].active ==>
                && s.heap[s.entries[k]].retryAt <= s.heap[s.entries[k]].expires
                && k in s.waits && s.waits[k] == s.heap[s.entries[k]].retryAt))
    && (k in s.waits && (k !in s.entries || s.heap[s.entries[k]].active) ==> s.waits[k] <= s.clock)
  }

  predicate RefsApart(s: State) {
    && (forall k :: k in s.entries ==> s.entries[k] in s.heap)
    && (forall k, m :: k in s.entries && m in s.entries && s.entries[k] == s.entries[m] ==> k == m)
  }

  ghost predicate Inv(s: State) {
    RefsApart(s) && (forall k :: KeyOk(s, k)) && |s.entries| <= MAX_ENTRIES
  }

  lemma PruneKeepsInv(s: State, now: int)
    requires Inv(s)
    ensures Inv(Pruned(s, now))
  {
    var t := Pruned(s, now);
    SubsetSize(t.entries.Keys, s.entries.Keys);
    forall k ensures KeyOk(t, k) {
      assert KeyOk(s, k);
      forall p ensures Live(t, p, k) == Live(s, p, k) {
      }
      assert InFlight(t, k) == InFlight(s, k);
    }
  }

  lemma AdmitKeepsKey(s: State, p: ProbeId, newRef: Ref, key: Key, k: Key)
    requires RefsApart(s) && KeyOk(s, k) && KeyOk(s, key) && p !in s.probes && newRef !in s.heap
    requires key in s.entries ==> !s.heap[s.entries[key]].active && s.heap[s.entries[key]].retryAt <= s.clock
    ensures KeyOk(Admit(s, p, newRef, key), k)
  {
    var t := Admit(s, p, newRef, key);
    forall q ensures Live(t, q, k) == (Live(s, q, k) || (q == p && k == key)) {
    }
    if k == key {
      assert !InFlight(s, k);
      assert Live(t, p, k);
    } else {
      assert InFlight(t, k) == InFlight(s, k);
      assert k in s.entries ==> t.heap[s.entries[k]] == s.heap[s.entries[k]];
    }
  }

  lemma AdmitKeepsInv(s: State, p: ProbeId, newRef: Ref, key: Key)
    requires Inv(s) && p !in s.probes && newRef !in s.heap
    requires key in s.entries ==> !s.heap[s.entries[key]].active && s.heap[s.entries[key]].retryAt <= s.clock
    requires key !in s.entries ==> |s.entries| < MAX_ENTRIES
    ensures Inv(Admit(s, p, newRef, key))
  {
    var t := Admit(s, p, newRef, key);
    forall k ensures KeyOk(t, k) { AdmitKeepsKey(s, p, newRef, key, k); }
    assert t.entries.Keys == s.entries.Keys + {key};
  }

  lemma FinishKeepsKey(s: State, p: ProbeId, ending: Ending, completed: int, k: Key)
    requires p in s.probes && !s.probes[p].done
    requires RefsApart(s) && KeyOk(s, k) && KeyOk(s, s.probes[p].key)
    ensures KeyOk(DoFinish(s, p, ending, completed), k)
  {
    var t := DoFinish(s, p, ending, completed);
    var key := s.probes[p].key;
    assert Live(s, p, key);
    forall q ensures Live(t, q, k) == (Live(s, q, k) && q != p) {
    }
    if k != key {
      assert InFlight(t, k) == InFlight(s, k);
    }
  }

  lemma FinishKeepsInv(s: State, p: ProbeId, ending: Ending, completed: int)
    requires Inv(s) && p in s.probes
    ensures Inv(DoFinish(s, p, ending, completed))
  {
    if !s.probes[p].done {
      var t := DoFinish(s, p, ending, completed);
      SubsetSize(t.entries.Keys, s.entries.Keys);
      forall k ensures KeyOk(t, k) { FinishKeepsKey(s, p, ending, completed, k); }
    }
  }

  lemma StepKeepsInv(s: State, l: Label)
    requires Enabled(s, l) && Inv(s)
    ensures Inv(Step(s, l))
  {
    match l
    case Begin(p, ref, key, now) =>
      PruneKeepsInv(s, now);
      var c := Pruned(s, now);
      assert KeyOk(c, key);
      if Judge(c.entries, c.heap, key, now) == Admitted {
        AdmitKeepsInv(c, p, ref, key);
      }
    case Finish(p, ending, completed) => FinishKeepsInv(s, p, ending, completed);
  }

  // ----- whole runs -----

  ghost predicate Run(states: seq<State>, labels: seq<Label>) {
    && |states| == |labels| + 1
    && Initial(states[0])
    && forall i {:trigger labels[i]} :: 0 <= i < |labels| ==>
         Enabled(states[i], labels[i]) && states[i + 1] == Step(states[i], labels[i])
  }

  lemma {:induction false} RunKeepsInv(states: seq<State>, labels: seq<Label>, k: nat)
    requires Run(states, labels) && k < |states|
    ensures Inv(states[k])
  {
    if k == 0 {
      forall key ensures KeyOk(states[0], key) {
        assert forall p :: !Live(states[0], p, key);
      }
    } else {
      RunKeepsInv(states, labels, k - 1);
      StepKeepsInv(states[k - 1], labels[k - 1]);
    }
  }

  /** `begin` let the probe through. */
  predicate Admits(s: State, l: Label) {
    Enabled(s, l) && l.Begin? && l.p in Step(s, l).probes
  }

  /** In every run at most one probe per key is between its admission and its finish, and the table stays bounded. */
  lemma OneProbePerKey(states: seq<State>, labels: seq<Label>, i: nat, key: Key)
    requires Run(states, labels) && i < |states|
    ensures forall p, q :: Live(states[i], p, key) && Live(states[i], q, key) ==> p == q
    ensures |states[i].entries| <= MAX_ENTRIES
  {
    RunKeepsInv(states, labels, i);
    assert KeyOk(states[i], key);
  }

  /**
   A failed probe's wait is never cut short, pruned entry or not: whoever is admitted, some `begin` up to
   and including this one has read a clock at or past the deadline. With clocks that do not run backwards
   that reading is the caller's own.
   */
  lemma WaitHonoured(states: seq<State>, labels: seq<Label>, i: nat)
    requires Run(states, labels) && i < |labels| && Admits(states[i], labels[i])
    ensures labels[i].key in states[i].waits ==> states[i].waits[labels[i].key] <= Max(states[i].clock, labels[i].now)
    ensures states[i].clock <= labels[i].now && labels[i].key in states[i].waits ==>
              states[i].waits[labels[i].key] <= labels[i].now
  {
    RunKeepsInv(states, labels, i);
    var l := labels[i];
    assert Enabled(states[i], l);
    PruneKeepsInv(states[i], l.now);
    assert KeyOk(Pruned(states[i], l.now), l.key);
  }

  /**
   A finish concerns its own probe only: whatever another unfinished probe holds stays in the table,
   active and unchanged, and a second call of the same finish changes nothing at all.
   */
  lemma FinishIsLocal(states: seq<State>, labels: seq<Label>, i: nat, p: ProbeId, q: ProbeId, k: Key, ending: Ending, at: int)
    requires Run(states, labels) && i < |states| && p in states[i].probes
    requires q != p && Live(states[i], q, k)
    ensures var s := states[i];
            var t := DoFinish(s, p, ending, at);
            && (s.probes[p].done ==> t == s)
            && DoFinish(t, p, ending, at) == t
            && k in s.entries && k in t.entries && t.entries[k] == s.entries[k] == s.probes[q].ref
            && t.entries[k] in s.heap && t.entries[k] in t.heap
            && t.heap[t.entries[k]] == s.heap[t.entries[k]] && t.heap[t.entries[k]].active
  {
    RunKeepsInv(states, labels, i);
    var s := states[i];
    assert KeyOk(s, k) && KeyOk(s, s.probes[p].key);
    if !s.probes[p].done {
      assert Live(s, p, s.probes[p].key);
    }
  }

  /**
   Admission, exactly: no live probe of the key, no deadline of an entry still in the table ahead of this
   clock, and room for a new entry if there is none.
   */
  lemma AdmittedExactly(states: seq<State>, labels: seq<Label>, i: nat)
    requires Run(states, labels) && i < |labels| && labels[i].Begin?
    ensures var s := Pruned(states[i], labels[i].now);
            var k := labels[i].key;
            Admits(states[i], labels[i]) <==>
              && !InFlight(states[i], k)
              && (k in s.entries && k in s.waits ==> s.waits[k] <= labels[i].now)
              && (k !in s.entries ==> |s.entries| < MAX_ENTRIES)
  {
    RunKeepsInv(states, labels, i);
    var l := labels[i];
    assert Enabled(states[i], l);
    PruneKeepsInv(states[i], l.now);
    var s := Pruned(states[i], l.now);
    assert KeyOk(s, l.key) && KeyOk(states[i], l.key);
    forall p ensures Live(s, p, l.key) == Live(states[i], p, l.key) {
    }
    assert InFlight(s, l.key) == InFlight(states[i], l.key);
  }

  /** Only an entry whose probe is unfinished survives pruning as active. */
  lemma ActiveMeansInFlight(s: State, key: Key, now: int)
    requires Inv(s)
    ensures Judge(Pruned(s, now).entries, s.heap, key, now) == AlreadyActive <==> InFlight(s, key)
  {
    assert KeyOk(s, key);
  }

  /** The guard with its table; heap and closures as explained above. */
  class IdentityProbeGuard {
    var entries: map<Key, Ref>
    var heap: map<Ref, Entry>
    var probes: map<ProbeId, Probe>
    ghost var waits: map<Key, int>
    ghost var clock: int

    ghost function View(): State
      reads this
    {
      State(entries, heap, probes, waits, clock)
    }

    constructor ()
      ensures Initial(View())
    {
      entries, heap, probes, waits := map[], map[], map[], map[];
    }

    method PruneEntries(now: int)
      requires forall k :: k in entries ==> entries[k] in heap
      modifies this`entries
      ensures entries == Prune(old(entries), heap, now)
    {
      var rest := entries.Keys;
      while rest != {}
        invariant rest <= entries.Keys <= old(entries).Keys
        invariant entries == map k | k in old(entries)
          && (k in rest || !(old(entries)[k] in heap && !heap[old(entries)[k]].active && now >= heap[old(entries)[k]].expires))
          :: old(entries)[k]
      {
        var k :| k in rest;
        rest := rest - {k};
        var e := heap[entries[k]];
        if !e.active && now >= e.expires {
          entries := entries - {k};
        }
      }
    }

    /** The rest of `begin` once the table is pruned. */
    method Decide(p: ProbeId, newRef: Ref, key: Key, now: int) returns (verdict: Verdict)
      requires (key in entries ==> entries[key] in heap) && newRef !in heap
      modifies this`entries, this`heap, this`probes
      ensures verdict == Judge(old(entries), old(heap), key, now)
      ensures View() == if verdict == Admitted then Admit(old(View()), p, newRef, key) else old(View())
    {
      var ref := newRef;
      if key in entries {
        ref := entries[key];
        if heap[ref].active { return AlreadyActive; }
        if now < heap[ref].retryAt { return StillWaiting; }
      } else {
        if |entries| >= MAX_ENTRIES { return TableFull; }
        heap := heap[ref := Entry(false, 0, 0)];
      }
      entries := entries[key := ref];
      heap := heap[ref := heap[ref].(active := true)];
      probes := probes[p := Probe(key, ref, false)];
      verdict := Admitted;
    }

    method Begin(p: ProbeId, newRef: Ref, key: Key, now: int) returns (verdict: Verdict)
      requires Inv(View()) && p !in probes && newRef !in heap
      modifies this
      ensures Inv(View()) && View() == Step(old(View()), Label.Begin(p, newRef, key, now))
      ensures verdict == Admitted <==> p in probes
      ensures verdict == AlreadyActive <==> InFlight(old(View()), key)
    {
      StepKeepsInv(View(), Label.Begin(p, newRef, key, now));
      PruneKeepsInv(View(), now);
      ActiveMeansInFlight(View(), key, now);
      PruneEntries(now);
      clock := Max(clock, now);
      verdict := Decide(p, newRef, key, now);
    }

    /** The closure `begin` returned. */
    method Finish(p: ProbeId, ending: Ending, completed: int)
      requires Inv(View()) && p in probes
      modifies this
      ensures Inv(View()) && View() == Step(old(View()), Label.Finish(p, ending, completed))
    {
      StepKeepsInv(View(), Label.Finish(p, ending, completed));
      var Probe(key, ref, done) := probes[p];
      if done { return; }
      probes := probes[p := Probe(key, ref, true)];
      if ending.Success? {
        entries := entries - {key};
        waits := waits - {key};
        return;
      }
      var wait := RETRY_WAIT;
      if ending.RiskFailure? { wait := RISK_WAIT; }
      heap := heap[ref := Entry(false, completed + TTL, completed + wait)];
      waits := waits[key := completed + wait];
    }
  }
}
