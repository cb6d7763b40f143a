/**
 The WebSocket RPC client: one mutex-guarded `pending` map shared by callers, frame dispatchers and
 `Close`. Every section the source runs under the mutex, every channel operation and every atomic flag
 is one step, so a run is an arbitrary interleaving of any number of callers, dispatchers and one closer.
 */
module RpcClient {
  import opened Common

  /** A call is named by the sequence number that makes its request key unique. */
  type CallId = nat
  type FrameId = nat

  /** What a call was made with: an apply hook on its facade, and the per-request override. */
  datatype Call = Call(hook: bool, applyOption: Option<bool>)

  predicate ShouldApply(c: Call) { c.applyOption.None? || c.applyOption.value }

  predicate ShouldDispatchNamespaces(c: Call) { !c.hook && ShouldApply(c) }

  datatype Fault = NoFault | ServerError | SessionExpired

  /** A decoded server response; `key` is whatever the server echoed, matching a call or not. */
  datatype Frame = Frame(id: FrameId, key: int, fault: Fault, hasPayload: bool, hasNamespaces: bool)

  datatype Result = Response(frame: Frame) | SocketClosed

  /** Where a caller's goroutine stands between taking its sequence number and returning. */
  datatype Phase = Opened | Registered | Waiting | Leaving | Holding(frame: Frame) | Returned

  datatype Caller = Caller(call: Call, phase: Phase)

  /** A dispatcher between its locked lookup and its last statement. */
  datatype Hand = Hand(frame: Frame, target: Option<CallId>, dispatch: bool, delivered: bool)

  datatype State = State(
    connected: bool, closed: bool, signalled: bool, swapped: bool, lastSeq: nat,
    pending: map<CallId, bool>,
    drain: map<CallId, bool>,
    callers: map<CallId, Caller>,
    slot: map<CallId, Result>,
    sent: set<CallId>,
    hands: map<FrameId, Hand>,
    read: set<FrameId>,
    deliveredTo: map<FrameId, CallId>,
    byHook: multiset<FrameId>,
    bySubscribers: multiset<FrameId>)

  const Initial := State(false, false, false, false, 0, map[], map[], map[], map[], {}, map[], {}, map[],
                         multiset{}, multiset{})

  datatype Label =
    | Connect
    | Open(call: Call)
    | Register(id: CallId)
    | WriteDone(id: CallId, ok: bool)
    | GiveUp(id: CallId)
    | Forget(id: CallId)
    | Receive(id: CallId)
    | Complete(id: CallId)
    | SeeClosed(id: CallId)
    | Lookup(frame: Frame)
    | Deliver(fid: FrameId)
    | Publish(fid: FrameId)
    | BeginClose
    | Signal
    | Swap
    | DrainOne(id: CallId)

  predicate InPhase(s: State, id: CallId, p: Phase) { id in s.callers && s.callers[id].phase == p }

  predicate AwaitsDelivery(h: Hand) { h.target.Some? && !h.delivered }

  /** A goroutine can take the step. A send on a channel is enabled even when the channel is full. */
  predicate Enabled(s: State, l: Label) {
    match l
    case Connect => !s.closed
    case Open(_) => !s.closed
    case Register(id) => InPhase(s, id, Opened)
    case WriteDone(id, _) => InPhase(s, id, Registered)
    case GiveUp(id) => InPhase(s, id, Waiting)
    case Forget(id) => InPhase(s, id, Leaving)
    case Receive(id) => InPhase(s, id, Waiting) && id in s.slot
    case Complete(id) => id in s.callers && s.callers[id].phase.Holding?
    case SeeClosed(id) => InPhase(s, id, Waiting) && s.signalled
    case Lookup(frame) => s.connected && frame.id !in s.read
    case Deliver(f) => f in s.hands && AwaitsDelivery(s.hands[f])
    case Publish(f) => f in s.hands && !AwaitsDelivery(s.hands[f])
    case BeginClose => !s.closed
    case Signal => s.closed && !s.signalled
    case Swap => s.signalled && !s.swapped
    case DrainOne(id) => id in s.drain
  }

  function Move(s: State, id: CallId, p: Phase): State
    requires id in s.callers
  {
    s.(callers := s.callers[id := s.callers[id].(phase := p)])
  }

  /** `call` runs the hook: only for a clean response with a payload that it may apply. */
  predicate HookApplies(c: Call, f: Frame) {
    f.fault.NoFault? && c.hook && ShouldApply(c) && f.hasPayload
  }

  /** `dispatchText` reaches its handler loop with at least one namespace to hand out. */
  predicate SubscribersApply(h: Hand) {
    h.frame.fault.NoFault? && (h.target.Some? ==> h.dispatch) && h.frame.hasNamespaces
  }

  function DoRegister(s: State, id: CallId): State
    requires InPhase(s, id, Opened)
  {
    if s.connected then
      Move(s, id, Registered).(pending := s.pending[id := ShouldDispatchNamespaces(s.callers[id].call)])
    else Move(s, id, Returned)
  }

  function DoReceive(s: State, id: CallId): State
    requires id in s.callers && id in s.slot
  {
    var to := match s.slot[id] case Response(f) => Holding(f) case SocketClosed => Returned;
    Move(s, id, to).(slot := s.slot - {id})
  }

  function DoComplete(s: State, id: CallId): State
    requires id in s.callers && s.callers[id].phase.Holding?
  {
    var f := s.callers[id].phase.frame;
    Move(s, id, Returned).(byHook := if HookApplies(s.callers[id].call, f) then s.byHook + multiset{f.id} else s.byHook)
  }

  function DoLookup(s: State, frame: Frame): State {
    var target := if frame.key >= 0 && frame.key in s.pending then Some(frame.key as CallId) else None;
    s.(read := s.read + {frame.id},
       hands := s.hands[frame.id := Hand(frame, target, target.Some? && s.pending[target.value], false)],
       pending := if target.Some? then s.pending - {target.value} else s.pending)
  }

  function DoDeliver(s: State, f: FrameId): State
    requires f in s.hands && AwaitsDelivery(s.hands[f])
  {
    var id := s.hands[f].target.value;
    s.(slot := s.slot[id := Response(s.hands[f].frame)],
       sent := s.sent + {id},
       hands := s.hands[f := s.hands[f].(delivered := true)],
       deliveredTo := s.deliveredTo[f := id])
  }

  function DoPublish(s: State, f: FrameId): State
    requires f in s.hands
  {
    s.(hands := s.hands - {f},
       bySubscribers := if SubscribersApply(s.hands[f]) then s.bySubscribers + multiset{f} else s.bySubscribers)
  }

  function DoDrainOne(s: State, id: CallId): State {
    s.(slot := s.slot[id := SocketClosed], sent := s.sent + {id}, drain := s.drain - {id})
  }

  function DoSwap(s: State): State { s.(swapped := true, drain := s.pending, pending := map[]) }

  function Step(s: State, l: Label): State
    requires Enabled(s, l)
  {
    match l
    case Connect => s.(connected := true)
    case Open(call) => s.(lastSeq := s.lastSeq + 1, callers := s.callers[s.lastSeq + 1 := Caller(call, Opened)])
    case Register(id) => DoRegister(s, id)
    case WriteDone(id, ok) => Move(s, id, if ok then Waiting else Leaving)
    case GiveUp(id) => Move(s, id, Leaving)
    case Forget(id) => Move(s, id, Returned).(pending := s.pending - {id})
    case Receive(id) => DoReceive(s, id)
    case Complete(id) => DoComplete(s, id)
    case SeeClosed(id) => Move(s, id, Returned)
    case Lookup(frame) => DoLookup(s, frame)
    case Deliver(f) => DoDeliver(s, f)
    case Publish(f) => DoPublish(s, f)
    case BeginClose => s.(closed := true)
    case Signal => s.(signalled := true)
    case Swap => DoSwap(s)
    case DrainOne(id) => DoDrainOne(s, id)
  }

  // ----- the inductive invariant -----

  /** Dispatcher `f` has taken the request out of `pending` and not yet answered it. */
  predicate Owes(hands: map<FrameId, Hand>, f: FrameId, id: CallId) {
    f in hands && hands[f].target == Some(id) && !hands[f].delivered
  }

  ghost predicate HandOwes(hands: map<FrameId, Hand>, id: CallId) { exists f :: Owes(hands, f, id) }

  /** Response `frame` was handed to caller `id` and to nobody else. */
  predicate HeldBy(s: State, frame: Frame, id: CallId) {
    frame.id in s.deliveredTo && s.deliveredTo[frame.id] == id
  }

  /**
   A registered request is owed an answer by at most one party (`pending`, the closer's copy or one
   dispatcher), and by none once an answer was sent. A caller still in its select is never forgotten.
   */
  ghost predicate CallerOk(s: State, id: CallId) {
    && (id in s.callers ==> id <= s.lastSeq)
    && (id in s.pending || id in s.drain || HandOwes(s.hands, id) || id in s.sent ==>
          id in s.callers && s.callers[id].phase != Opened)
    && (id in s.pending ==> id !in s.drain && !HandOwes(s.hands, id) && id !in s.sent
                            && s.pending[id] == ShouldDispatchNamespaces(s.callers[id].call))
    && (id in s.drain ==> !HandOwes(s.hands, id) && id !in s.sent)
    && (HandOwes(s.hands, id) ==> id !in s.sent)
    && (forall f, g :: Owes(s.hands, f, id) && Owes(s.hands, g, id) ==> f == g)
    && (id in s.slot ==> id in s.sent && (s.slot[id].Response? ==> HeldBy(s, s.slot[id].frame, id)))
    && (InPhase(s, id, Registered) || InPhase(s, id, Waiting) ==>
          id in s.pending || id in s.drain || HandOwes(s.hands, id) || id in s.slot)
    && (id in s.callers && s.callers[id].phase.Holding? ==>
          id !in s.slot && id in s.sent && HeldBy(s, s.callers[id].phase.frame, id))
  }

  /** A frame is read once, handed to at most one caller, and merged by at most one owner. */
  ghost predicate FrameOk(s: State, f: FrameId) {
    && (f in s.hands ==>
          && f in s.read && s.hands[f].frame.id == f
          && (f in s.deliveredTo <==> s.hands[f].delivered)
          && (s.hands[f].delivered ==> s.hands[f].target == Some(s.deliveredTo[f]))
          && (s.hands[f].target.Some? ==>
                s.hands[f].target.value in s.callers
                && s.hands[f].dispatch == ShouldDispatchNamespaces(s.callers[s.hands[f].target.value].call)))
    && (f in s.deliveredTo ==> f in s.read && s.deliveredTo[f] in s.callers)
    && (f in s.byHook ==>
          && f in s.deliveredTo && s.byHook[f] == 1
          && InPhase(s, s.deliveredTo[f], Returned) && s.callers[s.deliveredTo[f]].call.hook)
    && (f in s.bySubscribers ==>
          && f in s.read && f !in s.hands && s.bySubscribers[f] == 1
          && (f in s.deliveredTo ==> ShouldDispatchNamespaces(s.callers[s.deliveredTo[f]].call)))
  }

  ghost predicate Inv(s: State) {
    && (forall id :: CallerOk(s, id))
    && (forall f :: FrameOk(s, f))
    && (!s.swapped ==> s.drain == map[])
  }

  /** A step that leaves the dispatchers alone. */
  predicate Quiet(l: Label) { !l.Lookup? && !l.Deliver? && !l.Publish? }

  /** The caller a step acts on; an opening call takes the next sequence number. */
  function Subject(s: State, l: Label): CallId
    requires Enabled(s, l)
  {
    match l
    case Open(_) => s.lastSeq + 1
    case Register(id) => id
    case WriteDone(id, _) => id
    case GiveUp(id) => id
    case Forget(id) => id
    case Receive(id) => id
    case Complete(id) => id
    case SeeClosed(id) => id
    case Deliver(f) => s.hands[f].target.value
    case Lookup(frame) => if frame.key >= 0 then frame.key else 0
    case DrainOne(id) => id
    case _ => 0
  }

  /** A quiet step that moves an answer: into a slot, or out of it, or the whole table to the closer. */
  predicate MovesAnswer(l: Label) { l.Receive? || l.Complete? || l.Swap? || l.DrainOne? }

  lemma QuietKeepsCaller(s: State, l: Label, id: CallId)
    requires Enabled(s, l) && CallerOk(s, id) && Quiet(l) && !MovesAnswer(l) && !l.Register?
    ensures CallerOk(Step(s, l), id)
  {
    assert Step(s, l).hands == s.hands;
  }

  lemma RegisterKeepsCaller(s: State, c: CallId, id: CallId)
    requires CallerOk(s, id) && InPhase(s, c, Opened)
    ensures CallerOk(DoRegister(s, c), id)
  {
    assert DoRegister(s, c).hands == s.hands;
  }

  lemma AnswerKeepsCaller(s: State, l: Label, id: CallId)
    requires Enabled(s, l) && MovesAnswer(l) && CallerOk(s, id) && CallerOk(s, Subject(s, l))
    requires !s.swapped ==> s.drain == map[]
    ensures CallerOk(Step(s, l), id)
  {
    assert Step(s, l).hands == s.hands;
  }

  lemma LookupKeepsCaller(s: State, frame: Frame, id: CallId)
    requires CallerOk(s, id) && FrameOk(s, frame.id) && frame.id !in s.read
    ensures CallerOk(DoLookup(s, frame), id)
  {
    var t := DoLookup(s, frame);
    forall f ensures Owes(t.hands, f, id) <==>
        Owes(s.hands, f, id) || (f == frame.id && frame.key == id && id in s.pending) {
    }
    if frame.key == id && id in s.pending {
      assert Owes(t.hands, frame.id, id);
    }
  }

  lemma DeliverKeepsCaller(s: State, fid: FrameId, id: CallId)
    requires fid in s.hands && AwaitsDelivery(s.hands[fid])
    requires CallerOk(s, id) && CallerOk(s, s.hands[fid].target.value) && FrameOk(s, fid)
    ensures CallerOk(DoDeliver(s, fid), id)
  {
    var t := DoDeliver(s, fid);
    var c := s.hands[fid].target.value;
    assert Owes(s.hands, fid, c);
    forall f ensures Owes(t.hands, f, id) <==> Owes(s.hands, f, id) && f != fid {
    }
  }

  lemma PublishKeepsCaller(s: State, fid: FrameId, id: CallId)
    requires CallerOk(s, id) && fid in s.hands && !AwaitsDelivery(s.hands[fid])
    ensures CallerOk(DoPublish(s, fid), id)
  {
    var t := DoPublish(s, fid);
    forall f ensures Owes(t.hands, f, id) <==> Owes(s.hands, f, id) {
    }
    assert HandOwes(t.hands, id) == HandOwes(s.hands, id);
  }

  lemma QuietKeepsFrame(s: State, l: Label, f: FrameId)
    requires Enabled(s, l) && Quiet(l) && !l.Complete? && FrameOk(s, f) && s.lastSeq + 1 !in s.callers
    ensures FrameOk(Step(s, l), f)
  {
    hide CallerOk, DoLookup, DoDeliver, DoPublish, DoComplete;
  }

  lemma CompleteKeepsFrame(s: State, id: CallId, f: FrameId)
    requires id in s.callers && s.callers[id].phase.Holding?
    requires FrameOk(s, f) && CallerOk(s, id) && FrameOk(s, s.callers[id].phase.frame.id)
    ensures FrameOk(DoComplete(s, id), f)
  {
  }

  lemma LookupKeepsFrame(s: State, frame: Frame, f: FrameId)
    requires frame.id !in s.read && FrameOk(s, f) && (frame.key >= 0 ==> CallerOk(s, frame.key))
    ensures FrameOk(DoLookup(s, frame), f)
  {
    var t := DoLookup(s, frame);
    assert t.callers == s.callers && t.deliveredTo == s.deliveredTo;
    if f != frame.id {
      assert f in t.hands ==> t.hands[f] == s.hands[f];
    }
  }

  lemma DeliverKeepsFrame(s: State, fid: FrameId, f: FrameId)
    requires fid in s.hands && AwaitsDelivery(s.hands[fid]) && FrameOk(s, f) && FrameOk(s, fid)
    ensures FrameOk(DoDeliver(s, fid), f)
  {
  }

  lemma PublishKeepsFrame(s: State, fid: FrameId, f: FrameId)
    requires fid in s.hands && !AwaitsDelivery(s.hands[fid]) && FrameOk(s, f) && FrameOk(s, fid)
    ensures FrameOk(DoPublish(s, fid), f)
  {
  }

  lemma StepKeepsCaller(s: State, l: Label, id: CallId)
    requires Enabled(s, l) && Inv(s)
    ensures CallerOk(Step(s, l), id)
  {
    if l.Lookup? { LookupKeepsCaller(s, l.frame, id); }
    else if l.Deliver? { DeliverKeepsCaller(s, l.fid, id); }
    else if l.Publish? { PublishKeepsCaller(s, l.fid, id); }
    else if l.Register? { RegisterKeepsCaller(s, l.id, id); }
    else if MovesAnswer(l) { AnswerKeepsCaller(s, l, id); }
    else { QuietKeepsCaller(s, l, id); }
  }

  lemma StepKeepsFrame(s: State, l: Label, f: FrameId)
    requires Enabled(s, l) && Inv(s)
    ensures FrameOk(Step(s, l), f)
  {
    if l.Lookup? { LookupKeepsFrame(s, l.frame, f); }
    else if l.Deliver? { DeliverKeepsFrame(s, l.fid, f); }
    else if l.Publish? { PublishKeepsFrame(s, l.fid, f); }
    else if l.Complete? { CompleteKeepsFrame(s, l.id, f); }
    else {
      assert CallerOk(s, s.lastSeq + 1);
      QuietKeepsFrame(s, l, f);
    }
  }

  lemma StepKeepsInv(s: State, l: Label)
    requires Enabled(s, l) && Inv(s)
    ensures Inv(Step(s, l))
  {
    forall id ensures CallerOk(Step(s, l), id) { StepKeepsCaller(s, l, id); }
    forall f ensures FrameOk(Step(s, l), f) { StepKeepsFrame(s, l, f); }
  }

  // ----- whole runs -----

  /** `states` is a run of the client from its construction, `labels[i]` leading from state i to i+1. */
  ghost predicate Run(states: seq<State>, labels: seq<Label>) {
    && |states| == |labels| + 1
    && states[0] == Initial
    && forall i {:trigger labels[i]} :: 0 <= i < |labels| ==>
         Enabled(states[i], labels[i]) && states[i + 1] == Step(states[i], labels[i])
  }

  ghost predicate Reachable(s: State) {
    exists states: seq<State>, labels: seq<Label> :: Run(states, labels) && states[|labels|] == s
  }

  lemma InitialReachable()
    ensures Reachable(Initial)
  {
    var labels: seq<Label> := [];
    assert Run([Initial], labels);
    assert [Initial][|labels|] == Initial;
  }

  lemma ReachStep(s: State, l: Label)
    requires Reachable(s) && Enabled(s, l)
    ensures Reachable(Step(s, l))
  {
    var states: seq<State>, labels: seq<Label> :| Run(states, labels) && states[|labels|] == s;
    var longer := states + [Step(s, l)];
    var more := labels + [l];
    assert Run(longer, more);
    assert longer[|more|] == Step(s, l);
  }

  lemma {:induction false} RunKeepsInv(states: seq<State>, labels: seq<Label>, k: nat)
    requires Run(states, labels) && k < |states|
    ensures Inv(states[k])
  {
    if k > 0 {
      RunKeepsInv(states, labels, k - 1);
      StepKeepsInv(states[k - 1], labels[k - 1]);
    }
  }

  /** The step puts a result on the one-slot channel of call `id`. */
  predicate SendsTo(s: State, l: Label, id: CallId) {
    (l.DrainOne? && l.id == id) || (l.Deliver? && l.fid in s.hands && s.hands[l.fid].target == Some(id))
  }

  lemma {:induction false} SentStays(states: seq<State>, labels: seq<Label>, j: nat, k: nat, id: CallId)
    requires Run(states, labels) && j < k < |states| && SendsTo(states[j], labels[j], id)
    ensures id in states[k].sent
  {
    assert Enabled(states[k - 1], labels[k - 1]);
    if j + 1 < k {
      SentStays(states, labels, j, k - 1, id);
    }
  }

  /**
   In every interleaving a send finds the one-slot channel empty, and no earlier step sent to that call:
   at most one result per call, and no dispatcher and no closer ever blocks on a caller that has left.
   */
  lemma NoSenderBlocks(states: seq<State>, labels: seq<Label>, k: nat, id: CallId)
    requires Run(states, labels) && k < |labels| && SendsTo(states[k], labels[k], id)
    ensures id !in states[k].slot
    ensures forall j :: 0 <= j < k ==> !SendsTo(states[j], labels[j], id)
  {
    RunKeepsInv(states, labels, k);
    assert CallerOk(states[k], id);
    assert Enabled(states[k], labels[k]);
    if labels[k].Deliver? {
      assert Owes(states[k].hands, labels[k].fid, id);
    }
    forall j | 0 <= j < k ensures !SendsTo(states[j], labels[j], id) {
      if SendsTo(states[j], labels[j], id) {
        SentStays(states, labels, j, k, id);
      }
    }
  }

  /** In every run each frame is merged at most once, counting the apply hook and the subscribers together. */
  lemma MergedAtMostOnce(states: seq<State>, labels: seq<Label>, k: nat, f: FrameId)
    requires Run(states, labels) && k < |states|
    ensures states[k].byHook[f] + states[k].bySubscribers[f] <= 1
  {
    RunKeepsInv(states, labels, k);
    assert FrameOk(states[k], f);
  }

  /** Close closes the channel before it takes the pending table over. */
  lemma {:induction false} SwappedIsSignalled(states: seq<State>, labels: seq<Label>, k: nat)
    requires Run(states, labels) && k < |states|
    ensures states[k].swapped ==> states[k].signalled
  {
    if k > 0 {
      SwappedIsSignalled(states, labels, k - 1);
      assert Enabled(states[k - 1], labels[k - 1]);
    }
  }

  /** What is pending and was not before has registered in between. */
  lemma {:induction false} PendingHasRegistered(states: seq<State>, labels: seq<Label>, j: nat, k: nat, id: CallId)
    requires Run(states, labels) && j <= k < |states| && id !in states[j].pending && id in states[k].pending
    ensures exists m :: j <= m < k && labels[m] == Register(id)
  {
    assert Enabled(states[k - 1], labels[k - 1]);
    if id in states[k - 1].pending { PendingHasRegistered(states, labels, j, k - 1, id); }
  }

  /**
   A caller inside its select is always owed an answer by exactly one party, or already has it in its slot. Once
   `Close` has taken the table over every such caller can leave by the closed channel, and those still pending
   have registered since.
   */
  lemma WaitingIsOwed(states: seq<State>, labels: seq<Label>, k: nat, id: CallId)
    requires Run(states, labels) && k < |states| && InPhase(states[k], id, Waiting)
    ensures var s := states[k];
            var owed := [id in s.pending, id in s.drain, HandOwes(s.hands, id), id in s.slot];
            (exists i :: 0 <= i < 4 && owed[i]) && (forall i, j :: 0 <= i < j < 4 ==> !(owed[i] && owed[j]))
    ensures states[k].swapped ==> Enabled(states[k], SeeClosed(id))
    ensures forall j :: 0 <= j < k && labels[j].Swap? && id in states[k].pending ==>
              exists m :: j < m < k && labels[m] == Register(id)
  {
    RunKeepsInv(states, labels, k);
    assert CallerOk(states[k], id);
    var s := states[k];
    var owed := [id in s.pending, id in s.drain, HandOwes(s.hands, id), id in s.slot];
    assert owed[0] || owed[1] || owed[2] || owed[3];
    SwappedIsSignalled(states, labels, k);
    forall j | 0 <= j < k && labels[j].Swap? && id in states[k].pending
      ensures exists m :: j < m < k && labels[m] == Register(id)
    {
      PendingHasRegistered(states, labels, j + 1, k, id);
    }
  }

  /** What the locked lookup decides about a frame. */
  function HandAt(s: State, frame: Frame): Hand {
    DoLookup(s, frame).hands[frame.id]
  }

  lemma StepKeepsHand(s: State, l: Label, f: FrameId)
    requires Enabled(s, l) && Inv(s) && f in s.hands && l != Publish(f)
    ensures f in Step(s, l).hands
    ensures Step(s, l).hands[f].(delivered := false) == s.hands[f].(delivered := false)
  {
    assert FrameOk(s, f);
  }

  lemma {:induction false} HandPersists(states: seq<State>, labels: seq<Label>, i: nat, k: nat, frame: Frame)
    requires Run(states, labels) && i < k < |states| && labels[i] == Lookup(frame)
    requires forall m :: i < m < k ==> labels[m] != Publish(frame.id)
    ensures frame.id in states[k].hands
    ensures states[k].hands[frame.id].(delivered := false) == HandAt(states[i], frame)
  {
    assert Enabled(states[k - 1], labels[k - 1]);
    if i + 1 < k {
      HandPersists(states, labels, i, k - 1, frame);
      RunKeepsInv(states, labels, k - 1);
      StepKeepsHand(states[k - 1], labels[k - 1], frame.id);
    }
  }

  /**
   Whether subscribers merge a frame is settled at its lookup: exactly when it is a clean namespace
   payload whose call is no longer pending or was made with no hook and without manual apply.
   */
  lemma SubscribersMergeExactly(states: seq<State>, labels: seq<Label>, i: nat, j: nat, frame: Frame)
    requires Run(states, labels) && i < j < |labels|
    requires labels[i] == Lookup(frame) && labels[j] == Publish(frame.id)
    requires forall m :: i < m < j ==> labels[m] != Publish(frame.id)
    ensures frame.id in states[j + 1].bySubscribers <==>
            && frame.fault.NoFault? && frame.hasNamespaces
            && (frame.key >= 0 && frame.key in states[i].pending ==>
                  frame.key in states[i].callers && ShouldDispatchNamespaces(states[i].callers[frame.key].call))
  {
    HandPersists(states, labels, i, j, frame);
    RunKeepsInv(states, labels, i);
    RunKeepsInv(states, labels, j);
    assert FrameOk(states[j], frame.id);
    assert Enabled(states[j], labels[j]);
    if frame.key >= 0 {
      assert CallerOk(states[i], frame.key);
    }
  }

  /** A client on which one manual-apply call was made, waited and timed out. */
  function TimedOut(phase: Phase, pending: map<CallId, bool>): State {
    Initial.(connected := true, lastSeq := 1,
             callers := map[1 := Caller(Call(false, Some(false)), phase)], pending := pending)
  }

  lemma TimedOutReachable()
    ensures Reachable(TimedOut(Returned, map[]))
  {
    InitialReachable();
    ReachStep(Initial, Connect);
    var call := Call(false, Some(false));
    var linked := Step(Initial, Connect);
    assert Step(linked, Open(call)) == TimedOut(Opened, map[]);
    ReachStep(linked, Open(call));
    assert Step(TimedOut(Opened, map[]), Register(1)) == TimedOut(Registered, map[1 := false]);
    ReachStep(TimedOut(Opened, map[]), Register(1));
    assert Step(TimedOut(Registered, map[1 := false]), WriteDone(1, true)) == TimedOut(Waiting, map[1 := false]);
    ReachStep(TimedOut(Registered, map[1 := false]), WriteDone(1, true));
    assert Step(TimedOut(Waiting, map[1 := false]), GiveUp(1)) == TimedOut(Leaving, map[1 := false]);
    ReachStep(TimedOut(Waiting, map[1 := false]), GiveUp(1));
    assert Step(TimedOut(Leaving, map[1 := false]), Forget(1)) == TimedOut(Returned, map[]);
    ReachStep(TimedOut(Leaving, map[1 := false]), Forget(1));
  }

  /**
   `WithPayloadApply(false)` suppresses subscribers only while the call is pending: here the response
   arrives after the caller timed out, and the subscribers merge it although the call asked to apply
   the payload itself.
   */
  lemma LateFrameReachesSubscribers()
    ensures exists s :: Reachable(s) && s.callers == map[1 := Caller(Call(false, Some(false)), Returned)]
                        && s.bySubscribers == multiset{7}
  {
    var late := Frame(7, 1, NoFault, true, true);
    var s6 := TimedOut(Returned, map[]);
    TimedOutReachable();
    ReachStep(s6, Lookup(late));
    var s7 := Step(s6, Lookup(late));
    ReachStep(s7, Publish(7));
  }

  // ----- the client object -----

  lemma StepIs(s: State, l: Label, t: State)
    requires Enabled(s, l) && (l.Swap? || l.DrainOne?) && t == if l.Swap? then DoSwap(s) else DoDrainOne(s, l.id)
    ensures Step(s, l) == t
  {
    hide DoSwap, DoDrainOne;
  }

  /**
   The client with its fields and, beside them, the goroutine-local values its steps hand around. Each
   method is one section the source runs without yielding, and does to the fields what `Step` says.
   */
  class Client {
    var connected: bool
    var closed: bool
    var signalled: bool
    var swapped: bool
    var lastSeq: nat
    var pending: map<CallId, bool>
    var drain: map<CallId, bool>
    var callers: map<CallId, Caller>
    var slot: map<CallId, Result>
    var sent: set<CallId>
    var hands: map<FrameId, Hand>
    var read: set<FrameId>
    var deliveredTo: map<FrameId, CallId>
    var byHook: multiset<FrameId>
    var bySubscribers: multiset<FrameId>

    function Snapshot(): State
      reads this
    {
      State(connected, closed, signalled, swapped, lastSeq, pending, drain, callers, slot, sent, hands, read,
            deliveredTo, byHook, bySubscribers)
    }

    constructor ()
      ensures Snapshot() == Initial
    {
      connected, closed, signalled, swapped, lastSeq := false, false, false, false, 0;
      pending, drain, callers, slot, sent := map[], map[], map[], map[], {};
      hands, read, deliveredTo, byHook, bySubscribers := map[], {}, map[], multiset{}, multiset{};
    }

    /** `Connect` after the dial: a client closed meanwhile keeps no connection. */
    method Connect() returns (ok: bool)
      modifies this
      ensures ok == !old(closed)
      ensures Snapshot() == if ok then Step(old(Snapshot()), Label.Connect) else old(Snapshot())
    {
      ok := !closed;
      if ok { connected := true; }
    }

    /** The head of `rpc`: the closed check and the sequence number that makes the key. */
    method Open(call: Call) returns (id: Option<CallId>)
      modifies this
      ensures id == if old(closed) then None else Some(old(lastSeq) + 1)
      ensures Snapshot() == if id.Some? then Step(old(Snapshot()), Label.Open(call)) else old(Snapshot())
    {
      if closed { return None; }
      lastSeq := lastSeq + 1;
      callers := callers[lastSeq := Caller(call, Opened)];
      id := Some(lastSeq);
    }

    method Goto(id: CallId, phase: Phase)
      requires id in callers
      modifies this`callers
      ensures callers == old(callers)[id := old(callers)[id].(phase := phase)]
    {
      callers := callers[id := callers[id].(phase := phase)];
    }

    method Register(id: CallId) returns (ok: bool)
      requires InPhase(Snapshot(), id, Opened)
      modifies this
      ensures ok == old(connected)
      ensures Snapshot() == Step(old(Snapshot()), Label.Register(id))
    {
      ok := connected;
      if connected {
        pending := pending[id := ShouldDispatchNamespaces(callers[id].call)];
      }
      Goto(id, if connected then Registered else Returned);
    }

    /** A failed write, a timer, a cancelled context: leave the select, then delete under the lock. */
    method Forget(id: CallId)
      requires InPhase(Snapshot(), id, Leaving)
      modifies this
      ensures Snapshot() == Step(old(Snapshot()), Label.Forget(id))
    {
      pending := pending - {id};
      Goto(id, Returned);
    }

    /** The receive arm of the select. */
    method Receive(id: CallId) returns (res: Result)
      requires InPhase(Snapshot(), id, Waiting) && id in slot
      modifies this
      ensures res == old(slot)[id] && Snapshot() == Step(old(Snapshot()), Label.Receive(id))
    {
      res := slot[id];
      slot := slot - {id};
      Goto(id, if res.Response? then Holding(res.frame) else Returned);
    }

    /** `RPCClient.call` after `rawCall` returned a response. */
    method Complete(id: CallId)
      requires id in callers && callers[id].phase.Holding?
      modifies this
      ensures Snapshot() == Step(old(Snapshot()), Label.Complete(id))
    {
      var frame, call := callers[id].phase.frame, callers[id].call;
      if frame.fault.NoFault? {
        if call.hook && ShouldApply(call) && frame.hasPayload {
          byHook := byHook + multiset{frame.id};
        }
      }
      Goto(id, Returned);
    }

    /** The locked lookup of `dispatchText`. */
    method Lookup(frame: Frame) returns (ok: bool)
      requires connected && frame.id !in read
      modifies this
      ensures ok == (frame.key >= 0 && frame.key in old(pending))
      ensures Snapshot() == Step(old(Snapshot()), Label.Lookup(frame))
    {
      read := read + {frame.id};
      ok := frame.key >= 0 && frame.key in pending;
      if ok {
        hands := hands[frame.id := Hand(frame, Some(frame.key), pending[frame.key], false)];
        pending := pending - {frame.key};
      } else {
        hands := hands[frame.id := Hand(frame, None, false, false)];
      }
      hide DoReceive, DoComplete, DoDeliver, DoPublish, DoRegister, DoSwap, DoDrainOne, Move;
    }

    method Deliver(f: FrameId)
      requires f in hands && AwaitsDelivery(hands[f])
      modifies this
      ensures Snapshot() == Step(old(Snapshot()), Label.Deliver(f))
    {
      var id := hands[f].target.value;
      slot := slot[id := Response(hands[f].frame)];
      sent := sent + {id};
      deliveredTo := deliveredTo[f := id];
      hands := hands[f := hands[f].(delivered := true)];
    }

    /** The tail of `dispatchText`: faults, owned responses and empty payloads stop before the handlers. */
    method Publish(f: FrameId)
      requires f in hands && !AwaitsDelivery(hands[f])
      modifies this
      ensures Snapshot() == Step(old(Snapshot()), Label.Publish(f))
    {
      var h := hands[f];
      hands := hands - {f};
      if h.frame.fault.SessionExpired? { return; }
      if h.frame.fault.ServerError? { return; }
      if h.target.Some? && !h.dispatch { return; }
      if !h.frame.hasNamespaces { return; }
      bySubscribers := bySubscribers + multiset{f};
    }

    /** The compare-and-swap that lets only the first `Close` through. */
    method BeginClose() returns (first: bool)
      modifies this
      ensures first == !old(closed)
      ensures Snapshot() == if first then Step(old(Snapshot()), Label.BeginClose) else old(Snapshot())
    {
      first := !closed;
      closed := true;
    }

    method Swap()
      requires signalled && !swapped
      modifies this
      ensures Snapshot() == Step(old(Snapshot()), Label.Swap)
    {
      hide Step;
      ghost var s := Snapshot();
      swapped := true;
      drain, pending := pending, map[];
      StepIs(s, Label.Swap, DoSwap(s));
    }

    /** One iteration of the loop in which `Close` fails every call it took over. */
    method DrainOne(id: CallId)
      requires id in drain
      modifies this
      ensures Snapshot() == Step(old(Snapshot()), Label.DrainOne(id))
    {
      hide Step;
      ghost var s := Snapshot();
      slot := slot[id := SocketClosed];
      sent := sent + {id};
      drain := drain - {id};
      StepIs(s, Label.DrainOne(id), DoDrainOne(s, id));
    }
  }
}
