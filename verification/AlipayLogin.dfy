/**
 The QR login coordinator. `poll` takes the mutex, releases it for the provider and for account
 creation, and takes it again in `finish`; between the two sections any other poll, start or cleanup may
 run. Times are integer milliseconds, and no step assumes that clocks agree or move forward.
 */
module AlipayLogin {
  import opened Common

  const QR_LOGIN_TTL := 120_000
  const FLOW_RETENTION := 600_000

  type LoginId = nat
  type PollId = nat
  type AccountId = int

  datatype Status = WaitingForScan | Processing | Expired | Failed | Complete

  datatype Flow = Flow(owner: int, token: string, expiresAt: int, status: Status, account: Option<AccountId>,
                       updatedAt: int)

  /** What a poll outside the mutex is busy with. */
  datatype Stage = Polling(token: string) | Creating | Finishing(status: Status, account: Option<AccountId>)

  datatype Poller = Poller(id: LoginId, stage: Stage)

  datatype Outcome = QrExpired | PollError | NotAuthorized | Authorized

  /** `issued` remembers the token of every flow ever started, `created` counts account creations per flow. */
  datatype State = State(flows: map<LoginId, Flow>, pollers: map<PollId, Poller>,
                         issued: map<LoginId, string>, created: multiset<LoginId>)

  const Initial := State(map[], map[], map[], multiset{})

  datatype Label =
    | Start(id: LoginId, owner: int, token: string, now: int)
    | Enter(p: PollId, owner: int, id: LoginId, now: int)
    | Answer(p: PollId, outcome: Outcome)
    | CreateDone(p: PollId, account: Option<AccountId>)
    | Finish(p: PollId, now: int)

  /** Login ids are random UUIDs, so a new one was never issued before. */
  predicate Enabled(s: State, l: Label) {
    match l
    case Start(id, _, _, _) => id !in s.issued
    case Enter(p, _, _, _) => p !in s.pollers
    case Answer(p, _) => p in s.pollers && s.pollers[p].stage.Polling?
    case CreateDone(p, _) => p in s.pollers && s.pollers[p].stage.Creating?
    case Finish(p, _) => p in s.pollers && s.pollers[p].stage.Finishing?
  }

  function Cleanup(flows: map<LoginId, Flow>, now: int): map<LoginId, Flow> {
    map id | id in flows && !(now - flows[id].updatedAt > FLOW_RETENTION) :: flows[id]
  }

  function DoStart(s: State, id: LoginId, owner: int, token: string, now: int): State {
    s.(flows := Cleanup(s.flows, now)[id := Flow(owner, token, now + QR_LOGIN_TTL, WaitingForScan, None, now)],
       issued := s.issued[id := token])
  }

  /** The expiry check of the first locked section. */
  function Aged(flow: Flow, now: int): Flow {
    if now > flow.expiresAt && flow.status != Complete then flow.(status := Expired, updatedAt := now) else flow
  }

  function DoEnter(s: State, p: PollId, owner: int, id: LoginId, now: int): State {
    if id !in s.flows || s.flows[id].owner != owner then s
    else
      var flow := Aged(s.flows[id], now);
      if flow.status != WaitingForScan then s.(flows := s.flows[id := flow])
      else s.(flows := s.flows[id := flow.(status := Processing, updatedAt := now)],
              pollers := s.pollers[p := Poller(id, Polling(flow.token))])
  }

  function Verdict(outcome: Outcome): Stage {
    match outcome
    case QrExpired => Finishing(Expired, None)
    case PollError => Finishing(Failed, None)
    case NotAuthorized => Finishing(WaitingForScan, None)
    case Authorized => Creating
  }

  function DoAnswer(s: State, p: PollId, outcome: Outcome): State
    requires p in s.pollers
  {
    var id := s.pollers[p].id;
    s.(pollers := s.pollers[p := Poller(id, Verdict(outcome))],
       created := if outcome.Authorized? then s.created + multiset{id} else s.created)
  }

  function DoCreateDone(s: State, p: PollId, account: Option<AccountId>): State
    requires p in s.pollers
  {
    s.(pollers := s.pollers[p := Poller(s.pollers[p].id, Finishing(if account.Some? then Complete else Failed, account))])
  }

  predicate Terminal(status: Status) { status.Complete? || status.Failed? || status.Expired? }

  function Finished(flow: Flow, status: Status, account: Option<AccountId>, now: int): Flow {
    flow.(status := status, account := account, updatedAt := now,
          token := if Terminal(status) then "" else flow.token)
  }

  function DoFinish(s: State, p: PollId, now: int): State
    requires p in s.pollers && s.pollers[p].stage.Finishing?
  {
    var Poller(id, Finishing(status, account)) := s.pollers[p];
    s.(pollers := s.pollers - {p},
       flows := if id in s.flows then s.flows[id := Finished(s.flows[id], status, account, now)] else s.flows)
  }

  function Step(s: State, l: Label): State
    requires Enabled(s, l)
  {
    match l
    case Start(id, owner, token, now) => DoStart(s, id, owner, token, now)
    case Enter(p, owner, id, now) => DoEnter(s, p, owner, id, now)
    case Answer(p, outcome) => DoAnswer(s, p, outcome)
    case CreateDone(p, account) => DoCreateDone(s, p, account)
    case Finish(p, now) => DoFinish(s, p, now)
  }

  // ----- the inductive invariant -----

  predicate Serves(s: State, p: PollId, id: LoginId) { p in s.pollers && s.pollers[p].id == id }

  ghost predicate InFlight(s: State, id: LoginId) { exists p :: Serves(s, p, id) }

  /** The poll has called the provider successfully: it creates the account or reports on it. */
  predicate PastCreation(stage: Stage) {
    stage.Creating? || (stage.Finishing? && (stage.status.Complete? || stage.status.Failed?))
  }

  ghost predicate FlowOk(s: State, id: LoginId) {
    && (id in s.flows || InFlight(s, id) || id in s.created ==> id in s.issued)
    && (forall p, q :: Serves(s, p, id) && Serves(s, q, id) ==> p == q)
    && (forall p :: Serves(s, p, id) ==>
          && (s.pollers[p].stage.Polling? ==> id !in s.created && s.pollers[p].stage.token == s.issued[id])
          && (s.pollers[p].stage.Creating? ==> id in s.created)
          && (s.pollers[p].stage.Finishing? && s.pollers[p].stage.status == Complete ==>
                id in s.created && s.pollers[p].stage.account.Some?)
          && (s.pollers[p].stage.Finishing? ==> s.pollers[p].stage.status != Processing)
          && (id in s.created ==> PastCreation(s.pollers[p].stage))
          && (id in s.flows ==> s.flows[id].status == Processing || s.flows[id].status == Expired))
    && (id in s.flows && s.flows[id].status == WaitingForScan ==> !InFlight(s, id))
    && (id in s.flows && s.flows[id].status == Processing ==> InFlight(s, id))
    && (id in s.flows && !InFlight(s, id) && id in s.created ==> Terminal(s.flows[id].status))
    && (id in s.flows && s.flows[id].status == Complete ==> s.flows[id].account.Some? && id in s.created)
    && (id in s.flows && !Terminal(s.flows[id].status) ==> s.flows[id].token == s.issued[id])
    && (id in s.flows && InFlight(s, id) ==> s.flows[id].token == s.issued[id])
    && s.created[id] <= 1
  }

  ghost predicate Inv(s: State) { forall id :: FlowOk(s, id) }

  lemma StartKeepsFlow(s: State, newId: LoginId, owner: int, token: string, now: int, id: LoginId)
    requires FlowOk(s, id) && newId !in s.issued
    ensures FlowOk(DoStart(s, newId, owner, token, now), id)
  {
    var t := DoStart(s, newId, owner, token, now);
    assert forall p :: Serves(t, p, id) == Serves(s, p, id);
  }

  lemma EnterKeepsFlow(s: State, p: PollId, owner: int, target: LoginId, now: int, id: LoginId)
    requires FlowOk(s, id) && p !in s.pollers
    ensures FlowOk(DoEnter(s, p, owner, target, now), id)
  {
    var t := DoEnter(s, p, owner, target, now);
    assert forall q :: q != p ==> Serves(t, q, id) == Serves(s, q, id);
    if p in t.pollers && id == target {
      assert Serves(t, p, id) && !InFlight(s, id);
    }
  }

  lemma AnswerKeepsFlow(s: State, p: PollId, outcome: Outcome, id: LoginId)
    requires FlowOk(s, id) && p in s.pollers && s.pollers[p].stage.Polling?
    ensures FlowOk(DoAnswer(s, p, outcome), id)
  {
    var t := DoAnswer(s, p, outcome);
    assert forall q :: Serves(t, q, id) == Serves(s, q, id);
    assert s.pollers[p].id == id ==> Serves(s, p, id);
    assert s.pollers[p].id != id ==> t.created[id] == s.created[id];
  }

  lemma CreateDoneKeepsFlow(s: State, p: PollId, account: Option<AccountId>, id: LoginId)
    requires FlowOk(s, id) && p in s.pollers && s.pollers[p].stage.Creating?
    ensures FlowOk(DoCreateDone(s, p, account), id)
  {
    var t := DoCreateDone(s, p, account);
    assert forall q :: Serves(t, q, id) == Serves(s, q, id);
  }

  lemma FinishKeepsFlow(s: State, p: PollId, now: int, id: LoginId)
    requires FlowOk(s, id) && p in s.pollers && s.pollers[p].stage.Finishing?
    ensures FlowOk(DoFinish(s, p, now), id)
  {
    var t := DoFinish(s, p, now);
    assert forall q :: Serves(t, q, id) == (Serves(s, q, id) && q != p);
    if s.pollers[p].id == id {
      assert Serves(s, p, id) && !InFlight(t, id);
    }
  }

  lemma StepKeepsInv(s: State, l: Label)
    requires Enabled(s, l) && Inv(s)
    ensures Inv(Step(s, l))
  {
    forall id ensures FlowOk(Step(s, l), id) {
      assert FlowOk(s, id);
      match l
      case Start(newId, owner, token, now) => StartKeepsFlow(s, newId, owner, token, now, id);
      case Enter(p, owner, target, now) => EnterKeepsFlow(s, p, owner, target, now, id);
      case Answer(p, outcome) => AnswerKeepsFlow(s, p, outcome, id);
      case CreateDone(p, account) => CreateDoneKeepsFlow(s, p, account, id);
      case Finish(p, now) => FinishKeepsFlow(s, p, now, id);
    }
  }

  // ----- whole runs -----

  ghost predicate Run(states: seq<State>, labels: seq<Label>) {
    && |states| == |labels| + 1
    && states[0] == Initial
    && forall i {:trigger labels[i]} :: 0 <= i < |labels| ==>
         Enabled(states[i], labels[i]) && states[i + 1] == Step(states[i], labels[i])
  }

  lemma {:induction false} RunKeepsInv(states: seq<State>, labels: seq<Label>, k: nat)
    requires Run(states, labels) && k < |states|
    ensures Inv(states[k])
  {
    if k == 0 {
    } else {
      RunKeepsInv(states, labels, k - 1);
      StepKeepsInv(states[k - 1], labels[k - 1]);
    }
  }

  /**
   In every run a flow has at most one provider poll or creation in flight, none while it is waiting for a
   scan, and exactly one while it is shown as processing.
   */
  lemma OnePollInFlight(states: seq<State>, labels: seq<Label>, k: nat, id: LoginId)
    requires Run(states, labels) && k < |states|
    ensures forall p, q :: Serves(states[k], p, id) && Serves(states[k], q, id) ==> p == q
    ensures id in states[k].flows && states[k].flows[id].status == WaitingForScan ==> !InFlight(states[k], id)
    ensures id in states[k].flows && states[k].flows[id].status == Processing ==> InFlight(states[k], id)
  {
    RunKeepsInv(states, labels, k);
    assert FlowOk(states[k], id);
  }

  /** Over a whole run the account callback runs at most once per QR code. */
  lemma AccountCreatedAtMostOnce(states: seq<State>, labels: seq<Label>, k: nat, id: LoginId)
    requires Run(states, labels) && k < |states|
    ensures states[k].created[id] <= 1
  {
    RunKeepsInv(states, labels, k);
    assert FlowOk(states[k], id);
  }

  /** Nothing but its own in-flight poll can move a settled flow; cleanup may only delete it. */
  lemma SettledStep(s: State, l: Label, id: LoginId)
    requires Enabled(s, l) && Inv(s) && id in s.issued && !InFlight(s, id)
    requires id in s.flows ==> s.flows[id].status == Complete || s.flows[id].status == Expired
    ensures !InFlight(Step(s, l), id) && id in Step(s, l).issued
    ensures id in Step(s, l).flows ==>
              && id in s.flows && Step(s, l).flows[id].status == s.flows[id].status
              && (s.flows[id].status == Complete ==> Step(s, l).flows[id] == s.flows[id])
  {
    var t := Step(s, l);
    assert FlowOk(s, id);
    forall p ensures !Serves(t, p, id) {
      assert !Serves(s, p, id);
    }
    if l.Finish? {
      assert Serves(s, l.p, s.pollers[l.p].id);
    }
  }

  lemma {:induction false} SettledRun(states: seq<State>, labels: seq<Label>, i: nat, k: nat, id: LoginId)
    requires Run(states, labels) && i <= k < |states|
    requires id in states[i].flows && !InFlight(states[i], id)
    requires states[i].flows[id].status == Complete || states[i].flows[id].status == Expired
    ensures !InFlight(states[k], id) && id in states[k].issued
    ensures id in states[k].flows ==>
              && states[k].flows[id].status == states[i].flows[id].status
              && (states[i].flows[id].status == Complete ==> states[k].flows[id] == states[i].flows[id])
  {
    if i == k {
      RunKeepsInv(states, labels, k);
      assert FlowOk(states[k], id);
    } else {
      SettledRun(states, labels, i, k - 1, id);
      RunKeepsInv(states, labels, k - 1);
      SettledStep(states[k - 1], labels[k - 1], id);
    }
  }

  /** COMPLETE is final: as long as the flow exists, its record never changes again. */
  lemma CompleteIsFinal(states: seq<State>, labels: seq<Label>, i: nat, k: nat, id: LoginId)
    requires Run(states, labels) && i <= k < |states|
    requires id in states[i].flows && states[i].flows[id].status == Complete && id in states[k].flows
    ensures states[k].flows[id] == states[i].flows[id] && states[k].flows[id].account.Some?
  {
    RunKeepsInv(states, labels, i);
    assert FlowOk(states[i], id);
    SettledRun(states, labels, i, k, id);
  }

  /** The in-flight poll, if there is one, will report something other than EXPIRED when it is let run. */
  ghost predicate CanStillOverwrite(s: State, id: LoginId) {
    exists p :: Serves(s, p, id) && !(s.pollers[p].stage.Finishing? && s.pollers[p].stage.status == Expired)
  }

  /** A run from `s` after which the flow still exists and no longer reads EXPIRED. */
  ghost predicate Revives(s: State, labels: seq<Label>, id: LoginId)
    decreases |labels|
  {
    if labels == [] then id in s.flows && s.flows[id].status != Expired
    else Enabled(s, labels[0]) && Revives(Step(s, labels[0]), labels[1..], id)
  }

  /** Once no poll can overwrite it, EXPIRED stays. */
  lemma {:induction false} ExpiredStays(s: State, labels: seq<Label>, id: LoginId)
    requires Inv(s) && id in s.issued && !CanStillOverwrite(s, id)
    requires id in s.flows ==> s.flows[id].status == Expired
    ensures !Revives(s, labels, id)
    decreases |labels|
  {
    if labels != [] && Enabled(s, labels[0]) {
      var l := labels[0];
      var t := Step(s, l);
      StepKeepsInv(s, l);
      assert FlowOk(s, id);
      if l.Finish? {
        assert Serves(s, l.p, s.pollers[l.p].id);
      }
      ExpiredStays(t, labels[1..], id);
    }
  }

  /** Let the in-flight poll answer and finish. */
  lemma RevivingRun(s: State, id: LoginId) returns (labels: seq<Label>)
    requires Inv(s) && id in s.flows && CanStillOverwrite(s, id)
    ensures Revives(s, labels, id)
  {
    var p :| Serves(s, p, id) && !(s.pollers[p].stage.Finishing? && s.pollers[p].stage.status == Expired);
    assert FlowOk(s, id);
    labels := [Finish(p, 0)];
    assert labels[1..] == [];
    if s.pollers[p].stage.Finishing? {
      assert Revives(Step(s, labels[0]), labels[1..], id);
    } else {
      var l := if s.pollers[p].stage.Polling? then Answer(p, NotAuthorized) else CreateDone(p, None);
      var t := Step(s, l);
      assert Revives(Step(t, labels[0]), labels[1..], id);
      assert Revives(t, labels, id);
      assert ([l] + labels)[1..] == labels;
      labels := [l] + labels;
    }
  }

  /**
   EXPIRED can be overwritten exactly when a poll is in flight that has not itself been told the code
   expired: the slow answer then wins over the expiry shown meanwhile.
   */
  lemma ExpiredOverwrittenExactly(s: State, id: LoginId)
    requires Inv(s) && id in s.flows && s.flows[id].status == Expired
    ensures (exists labels: seq<Label> :: Revives(s, labels, id)) <==> CanStillOverwrite(s, id)
  {
    if CanStillOverwrite(s, id) {
      var labels := RevivingRun(s, id);
      assert exists run: seq<Label> :: Revives(s, run, id) by { assert Revives(s, labels, id); }
    } else {
      assert FlowOk(s, id);
      forall labels: seq<Label> ensures !Revives(s, labels, id) {
        ExpiredStays(s, labels, id);
      }
    }
  }

  ghost predicate Reachable(s: State) {
    exists states: seq<State>, labels: seq<Label> :: Run(states, labels) && states[|labels|] == s
  }

  lemma ReachStep(s: State, l: Label)
    requires Reachable(s) && Enabled(s, l)
    ensures Reachable(Step(s, l))
  {
    var states: seq<State>, labels: seq<Label> :| Run(states, labels) && states[|labels|] == s;
    var longer, more := states + [Step(s, l)], labels + [l];
    assert Run(longer, more);
    assert longer[|more|] == Step(s, l);
  }

  /** The start is reachable, and every reachable state has the invariant. */
  lemma ReachableStates(s: State)
    ensures Reachable(Initial)
    ensures Reachable(s) ==> Inv(s)
  {
    var labels: seq<Label> := [];
    assert Run([Initial], labels) && [Initial][|labels|] == Initial;
    if Reachable(s) {
      var states: seq<State>, run: seq<Label> :| Run(states, run) && states[|run|] == s;
      RunKeepsInv(states, run, |run|);
    }
  }

  // ----- what cleanup does to a login that is still being worked on -----

  predicate Enables(s: State, labels: seq<Label>)
    decreases |labels|
  {
    labels == [] || (Enabled(s, labels[0]) && Enables(Step(s, labels[0]), labels[1..]))
  }

  function After(s: State, labels: seq<Label>): State
    requires Enables(s, labels)
    decreases |labels|
  {
    if labels == [] then s else After(Step(s, labels[0]), labels[1..])
  }

  lemma {:induction false} ReachAfter(s: State, labels: seq<Label>)
    requires Reachable(s) && Enables(s, labels)
    ensures Reachable(After(s, labels))
    decreases |labels|
  {
    if labels != [] {
      ReachStep(s, labels[0]);
      ReachAfter(Step(s, labels[0]), labels[1..]);
    }
  }

  lemma {:induction false} AfterKeepsInv(s: State, labels: seq<Label>)
    requires Inv(s) && Enables(s, labels)
    ensures Inv(After(s, labels))
    decreases |labels|
  {
    if labels != [] {
      StepKeepsInv(s, labels[0]);
      AfterKeepsInv(Step(s, labels[0]), labels[1..]);
    }
  }

  /** The poll of `id` that is out meets this label: only a late look at an expired code touches the record. */
  function Touched(flow: Flow, l: Label, id: LoginId): Flow {
    if l.Enter? && l.id == id && l.owner == flow.owner then Aged(flow, l.now) else flow
  }

  /** The guard of the cleanup, over a run: no start comes more than the retention after the last touch. */
  predicate Kept(flow: Flow, labels: seq<Label>, id: LoginId)
    decreases |labels|
  {
    labels == [] ||
    (&& !(labels[0].Start? && labels[0].now - flow.updatedAt > FLOW_RETENTION)
     && Kept(Touched(flow, labels[0], id), labels[1..], id))
  }

  /** The run does not reach the second locked section of poll `p`. */
  predicate Unfinished(labels: seq<Label>, p: PollId) {
    forall i :: 0 <= i < |labels| ==> !(labels[i].Finish? && labels[i].p == p)
  }

  lemma InFlightStep(s: State, l: Label, p: PollId, id: LoginId)
    requires Enabled(s, l) && FlowOk(s, id) && Serves(s, p, id) && !(l.Finish? && l.p == p)
    ensures Serves(Step(s, l), p, id)
    ensures id in s.flows ==>
              if l.Start? && l.now - s.flows[id].updatedAt > FLOW_RETENTION then id !in Step(s, l).flows
              else id in Step(s, l).flows && Step(s, l).flows[id] == Touched(s.flows[id], l, id)
    ensures id !in s.flows ==> id !in Step(s, l).flows
  {
    assert l.Finish? ==> !Serves(s, l.p, id);
  }

  /** A flow that was deleted under its poll does not come back. */
  lemma {:induction false} GoneStaysGone(s: State, labels: seq<Label>, id: LoginId)
    requires Enables(s, labels) && id in s.issued && id !in s.flows
    ensures id !in After(s, labels).flows
    decreases |labels|
  {
    if labels != [] { GoneStaysGone(Step(s, labels[0]), labels[1..], id); }
  }

  /** While a poll of the login is out, its flow is there exactly if no cleanup in between found it too old. */
  lemma {:induction false} KeptExactly(s: State, labels: seq<Label>, p: PollId, id: LoginId)
    requires Inv(s) && Serves(s, p, id) && id in s.flows && Enables(s, labels) && Unfinished(labels, p)
    ensures Serves(After(s, labels), p, id)
    ensures id in After(s, labels).flows <==> Kept(s.flows[id], labels, id)
    decreases |labels|
  {
    assert FlowOk(s, id);
    if labels != [] {
      var l, t := labels[0], Step(s, labels[0]);
      assert Unfinished(labels[1..], p);
      InFlightStep(s, l, p, id);
      StepKeepsInv(s, l);
      if id in t.flows {
        KeptExactly(t, labels[1..], p, id);
      } else {
        StillServes(t, labels[1..], p, id);
        GoneStaysGone(t, labels[1..], id);
      }
    }
  }

  lemma {:induction false} StillServes(s: State, labels: seq<Label>, p: PollId, id: LoginId)
    requires Inv(s) && Serves(s, p, id) && Enables(s, labels) && Unfinished(labels, p)
    ensures Serves(After(s, labels), p, id)
    decreases |labels|
  {
    if labels != [] {
      assert FlowOk(s, id) && Unfinished(labels[1..], p);
      InFlightStep(s, labels[0], p, id);
      StepKeepsInv(s, labels[0]);
      StillServes(Step(s, labels[0]), labels[1..], p, id);
    }
  }

  /** The first locked section of a poll let it go ahead. */
  predicate GoesAhead(s: State, p: PollId, owner: int, id: LoginId, at: int) {
    p !in s.pollers && p in DoEnter(s, p, owner, id, at).pollers
  }

  predicate Shows(s: State, id: LoginId, account: AccountId) {
    id in s.flows && s.flows[id].status == Complete && s.flows[id].account == Some(account)
  }

  /**
   From the first locked section of a poll to its second, whatever runs in between: the account that was created
   is shown by the flow exactly if no start in between came more than the retention after the flow was last
   touched, by this first section or by a later look at the expired code. Otherwise no later state shows it.
   */
  lemma AccountShownExactly(s: State, p: PollId, owner: int, id: LoginId, at: int, between: seq<Label>,
                            account: AccountId, now: int, later: seq<Label>)
    requires Inv(s) && GoesAhead(s, p, owner, id, at)
    requires var t := Step(s, Enter(p, owner, id, at));
             && Enables(t, between) && Unfinished(between, p)
             && var u := After(t, between);
                p in u.pollers && u.pollers[p].stage == Finishing(Complete, Some(account))
                && Enables(Step(u, Finish(p, now)), later)
    ensures var t := Step(s, Enter(p, owner, id, at));
            var v := Step(After(t, between), Finish(p, now));
            && t.flows[id].updatedAt == at
            && (Shows(v, id, account) <==> Kept(t.flows[id], between, id))
            && (!Kept(t.flows[id], between, id) ==> id !in v.flows && id !in After(v, later).flows)
  {
    var l := Enter(p, owner, id, at);
    var t := Step(s, l);
    StepKeepsInv(s, l);
    assert FlowOk(t, id) && Serves(t, p, id);
    KeptExactly(t, between, p, id);
    AfterKeepsInv(t, between);
    var u := After(t, between);
    assert FlowOk(u, id) && Serves(u, p, id);
    var v := Step(u, Finish(p, now));
    if !Kept(t.flows[id], between, id) { GoneStaysGone(v, later, id); }
  }

  /** Nothing is lost while the clock of every start stays within the retention of the first section. */
  lemma {:induction false} QuickLoginIsKept(flow: Flow, labels: seq<Label>, id: LoginId, at: int)
    requires flow.updatedAt >= at && flow.expiresAt >= at
    requires forall i :: 0 <= i < |labels| && labels[i].Start? ==> labels[i].now - at <= FLOW_RETENTION
    ensures Kept(flow, labels, id)
    decreases |labels|
  {
    if labels != [] { QuickLoginIsKept(Touched(flow, labels[0], id), labels[1..], id, at); }
  }

  lemma NothingToRun(s: State)
    ensures Enables(s, []) && After(s, []) == s
  {
  }

  lemma AfterThree(s: State, k: Label, l: Label, m: Label)
    requires Enabled(s, k) && Enabled(Step(s, k), l) && Enabled(Step(Step(s, k), l), m)
    ensures Enables(s, [k, l, m]) && After(s, [k, l, m]) == Step(Step(Step(s, k), l), m)
  {
    hide Step, Enabled;
    var t := Step(s, k);
    assert [k, l, m][1..] == [l, m] && [l, m][1..] == [m] && [m][1..] == [];
    assert After(Step(t, l), [m]) == Step(Step(t, l), m);
    assert Enables(t, [l, m]) && After(t, [l, m]) == After(Step(t, l), [m]);
  }

  /** The labels of a slow login: authorised, overtaken by another start, and then the account exists. */
  function SlowLogin(p: PollId, other: LoginId, owner: int, start: int, account: AccountId): seq<Label> {
    [Answer(p, Authorized), Start(other, owner, "", start), CreateDone(p, Some(account))]
  }

  lemma SlowLoginRuns(t: State, p: PollId, id: LoginId, other: LoginId, owner: int, start: int, account: AccountId)
    requires Serves(t, p, id) && t.pollers[p].stage.Polling? && other !in t.issued
    ensures var labels := SlowLogin(p, other, owner, start, account);
            && Enables(t, labels) && Unfinished(labels, p)
            && After(t, labels).pollers == t.pollers[p := Poller(id, Finishing(Complete, Some(account)))]
            && After(t, labels).created == t.created + multiset{id}
  {
    AfterThree(t, Answer(p, Authorized), Start(other, owner, "", start), CreateDone(p, Some(account)));
  }

  lemma SlowLoginIsTooOld(flow: Flow, p: PollId, other: LoginId, owner: int, start: int, account: AccountId, id: LoginId)
    requires start - flow.updatedAt > FLOW_RETENTION
    ensures !Kept(flow, SlowLogin(p, other, owner, start, account), id)
  {
    var labels := SlowLogin(p, other, owner, start, account);
    assert labels[1..][0] == labels[1] && Touched(flow, labels[0], id) == flow;
    assert !Kept(flow, labels[1..], id);
  }

  /**
   So an account can be orphaned from any reachable state with a waiting flow: another start later than the
   retention is all it takes, and then the account exists and no flow shows it.
   */
  lemma CreatedAccountCanBeOrphaned(s: State, p: PollId, owner: int, id: LoginId, at: int, other: LoginId,
                                    start: int, account: AccountId, now: int)
    requires Reachable(s) && GoesAhead(s, p, owner, id, at)
    requires other !in s.issued && start - at > FLOW_RETENTION
    ensures var t := Step(s, Enter(p, owner, id, at));
            && Enables(t, SlowLogin(p, other, owner, start, account))
            && var u := After(t, SlowLogin(p, other, owner, start, account));
               && p in u.pollers && u.pollers[p].stage.Finishing?
               && var v := Step(u, Finish(p, now));
                  Reachable(v) && v.created[id] == 1 && id !in v.flows && !InFlight(v, id)
  {
    var labels := SlowLogin(p, other, owner, start, account);
    var t := Step(s, Enter(p, owner, id, at));
    ReachStep(s, Enter(p, owner, id, at));
    ReachableStates(s);
    ReachableStates(t);
    assert FlowOk(s, id) && FlowOk(t, id) && Serves(t, p, id) && t.flows[id].updatedAt == at;
    SlowLoginRuns(t, p, id, other, owner, start, account);
    SlowLoginIsTooOld(t.flows[id], p, other, owner, start, account, id);
    hide Kept, Enables, After, SlowLogin, DoEnter;
    var u := After(t, labels);
    assert Enabled(u, Finish(p, now));
    ReachAfter(t, labels);
    ReachStep(u, Finish(p, now));
    var v := Step(u, Finish(p, now));
    ReachableStates(u);
    ReachableStates(v);
    NothingToRun(v);
    AccountShownExactly(s, p, owner, id, at, labels, account, now, []);
    assert FlowOk(u, id) && FlowOk(v, id) && Serves(u, p, id);
    forall q ensures !Serves(v, q, id) { assert Serves(v, q, id) ==> Serves(u, q, id); }
  }

  /**
   The failing input of EXPIRED, from every reachable state: a code is scanned late, a second look after its end
   shows it expired while the first poll is still out, and that poll can then overwrite it.
   */
  lemma ExpiryDuringPoll(s: State, id: LoginId, owner: int, token: string, now: int, p: PollId, q: PollId, late: int)
    requires Reachable(s) && id !in s.issued && p !in s.pollers && q !in s.pollers && p != q
    requires late > now + QR_LOGIN_TTL
    ensures var labels := [Start(id, owner, token, now), Enter(p, owner, id, now), Enter(q, owner, id, late)];
            && Enables(s, labels)
            && var t := After(s, labels);
               && Reachable(t) && id in t.flows && t.flows[id].status == Expired
               && CanStillOverwrite(t, id) && exists run: seq<Label> :: Revives(t, run, id)
  {
    var k, l, m := Start(id, owner, token, now), Enter(p, owner, id, now), Enter(q, owner, id, late);
    var b := Step(Step(s, k), l);
    assert b.pollers == s.pollers[p := Poller(id, Polling(token))];
    assert b.flows[id] == Flow(owner, token, now + QR_LOGIN_TTL, Processing, None, now);
    var t := Step(b, m);
    assert t.pollers == b.pollers && t.flows[id] == b.flows[id].(status := Expired, updatedAt := late);
    AfterThree(s, k, l, m);
    ReachAfter(s, [k, l, m]);
    ReachableStates(t);
    assert CanStillOverwrite(t, id) by { assert Serves(t, p, id) && t.pollers[p].stage == Polling(token); }
    hide *;
    ExpiredOverwrittenExactly(t, id);
  }

  datatype Snapshot = NoSession | Shown(status: Status, account: Option<AccountId>)

  /** The coordinator with its flow table; the goroutines between the locked sections are `pollers`. */
  class AlipayLoginCoordinator {
    var flows: map<LoginId, Flow>
    var pollers: map<PollId, Poller>
    var issued: map<LoginId, string>
    var created: multiset<LoginId>

    function View(): State
      reads this
    {
      State(flows, pollers, issued, created)
    }

    constructor ()
      ensures View() == Initial
    {
      flows, pollers, issued, created := map[], map[], map[], multiset{};
    }

    method CleanupLocked(now: int)
      modifies this`flows
      ensures flows == Cleanup(old(flows), now)
    {
      var rest := flows.Keys;
      while rest != {}
        invariant rest <= old(flows).Keys
        invariant flows == map id | id in old(flows) && (id in rest || !(now - old(flows)[id].updatedAt > FLOW_RETENTION))
                                  :: old(flows)[id]
      {
        var id :| id in rest;
        rest := rest - {id};
        if now - flows[id].updatedAt > FLOW_RETENTION {
          flows := flows - {id};
        }
      }
    }

    method Start(id: LoginId, owner: int, token: string, now: int)
      requires id !in issued
      modifies this
      ensures View() == Step(old(View()), Label.Start(id, owner, token, now))
    {
      CleanupLocked(now);
      flows := flows[id := Flow(owner, token, now + QR_LOGIN_TTL, WaitingForScan, None, now)];
      issued := issued[id := token];
    }

    /** The first locked section of `poll`: a snapshot, or the go-ahead for one provider call. */
    method Enter(p: PollId, owner: int, id: LoginId, now: int) returns (shown: Option<Snapshot>)
      requires p !in pollers
      modifies this
      ensures View() == Step(old(View()), Label.Enter(p, owner, id, now))
      ensures shown.None? <==> p in pollers
      ensures shown == Some(NoSession) <==> id !in old(flows) || old(flows)[id].owner != owner
      ensures shown.Some? && shown.value.Shown? ==>
                shown.value == Shown(flows[id].status, flows[id].account) && shown.value.status != WaitingForScan
    {
      if id !in flows || flows[id].owner != owner { return Some(NoSession); }
      var flow := flows[id];
      if now > flow.expiresAt && flow.status != Complete {
        flow := flow.(status := Expired, updatedAt := now);
        flows := flows[id := flow];
      }
      if flow.status != WaitingForScan {
        assert old(flows)[id := flow] == flows;
        return Some(Shown(flow.status, flow.account));
      }
      flows := flows[id := flow.(status := Processing, updatedAt := now)];
      pollers := pollers[p := Poller(id, Polling(flow.token))];
      shown := None;
    }

    /** The provider answered: settle, or go on to create the account. */
    method Answer(p: PollId, outcome: Outcome)
      requires p in pollers && pollers[p].stage.Polling?
      modifies this
      ensures View() == Step(old(View()), Label.Answer(p, outcome))
    {
      var id := pollers[p].id;
      match outcome
      case QrExpired => pollers := pollers[p := Poller(id, Finishing(Expired, None))];
      case PollError => pollers := pollers[p := Poller(id, Finishing(Failed, None))];
      case NotAuthorized => pollers := pollers[p := Poller(id, Finishing(WaitingForScan, None))];
      case Authorized =>
        pollers := pollers[p := Poller(id, Creating)];
        created := created + multiset{id};
    }

    method CreateDone(p: PollId, account: Option<AccountId>)
      requires p in pollers && pollers[p].stage.Creating?
      modifies this
      ensures View() == Step(old(View()), Label.CreateDone(p, account))
    {
      var id := pollers[p].id;
      if account.None? {
        pollers := pollers[p := Poller(id, Finishing(Failed, None))];
      } else {
        pollers := pollers[p := Poller(id, Finishing(Complete, account))];
      }
    }

    /** The second locked section: the caller is told what was recorded, or that the flow is gone. */
    method Finish(p: PollId, now: int) returns (shown: Snapshot)
      requires p in pollers && pollers[p].stage.Finishing?
      modifies this
      ensures View() == Step(old(View()), Label.Finish(p, now))
      ensures shown == if old(pollers)[p].id in flows
                       then Shown(old(pollers)[p].stage.status, old(pollers)[p].stage.account)
                       else NoSession
    {
      var Poller(id, Finishing(status, account)) := pollers[p];
      pollers := pollers - {p};
      if id !in flows { return NoSession; }
      var flow := flows[id].(status := status, account := account, updatedAt := now);
      if status.Complete? || status.Failed? || status.Expired? {
        flow := flow.(token := "");
      }
      flows := flows[id := flow];
      shown := Shown(status, account);
    }
  }
}
