/** Runs that reach what the engine is exposed to besides a stack overflow: a walk over a cleared
    table, and a barrier that a subscription has left. */
module EngineWitnesses {
  import opened Types
  import opened Stream
  import opened Engine
  import opened EngineInvariant
  import opened EngineKernel
  import opened EngineSubscriptions
  import opened EngineSteps
  import opened EngineBarrier
  import opened EngineProgress
  import opened EngineFaults
  import opened EngineRecovery
  import opened EngineMemory
  import Delivery

  const TOPIC: string := "tasks.events"

  /** One subscription and nothing else. */
  predicate OneTopic(s: State) {
    s.fault == NoFault && s.subs.active.Keys == {TOPIC}
  }

  lemma OneTopicOrder(s: State)
    requires OneTopic(s)
    ensures Lists([TOPIC], s.subs.active)
  {
  }

  function On(e: Event, accepts: nat -> bool): Input {
    Input(e, 0, accepts, true, [TOPIC])
  }

  function SubscribeFirst(): Input {
    Input(Subscribe(TOPIC, Event, false), 0, (n: nat) => true, true, [])
  }

  lemma Extended(o: Options, ins: seq<Input>, i: Input)
    ensures Run(o, ins + [i]) == Step(o, Run(o, ins), i)
  {
    assert (ins + [i])[..|ins + [i]| - 1] == ins;
  }

  /** A run that subscribes before it connects. */
  lemma Subscribed(o: Options) returns (s: State)
    ensures s == Run(o, [SubscribeFirst()]) && OneTopic(s) && s.link.st == Idle && s.link.attempt == 0 && Inv(o, s)
  {
    RunKeeps(o, [SubscribeFirst()]);
    Extended(o, [], SubscribeFirst());
    assert [] + [SubscribeFirst()] == [SubscribeFirst()];
    assert Lists([], Initial().subs.active);
    s := Step(o, Initial(), SubscribeFirst());
  }

  // ------------------------------------------------------------------------------------------
  // Connections that are refused.

  /** A retry is pending after m refused ones. */
  ghost predicate RetryDue(o: Options, s: State, m: nat) {
    Inv(o, s) && OneTopic(s) && s.link.st == TransientFailure && s.link.attempt == m
  }

  lemma RefusedDial(o: Options, s: State, reconnect: bool, accepts: nat -> bool)
    requires s.fault == NoFault && s.table.rpcs == map[] && WithinLimit(o, s.link.attempt + 1)
    requires !reconnect ==> s.link.st == Idle
    ensures var r := EstablishConnection(o, s, reconnect, Refused(TransportFailure), accepts);
      r.fault == NoFault && r.link.st == TransientFailure && r.link.attempt == s.link.attempt && r.subs == s.subs
  {
    assert EstablishConnection(o, s, reconnect, Refused(TransportFailure), accepts)
        == GiveUpConnection(o, if reconnect then s else s.(link := Enter(s.link, Connecting)));
  }

  lemma FirstRefused(o: Options, s: State)
    requires OneTopic(s) && s.link.st == Idle && s.link.attempt == 0 && Inv(o, s) && WithinLimit(o, 1)
    ensures RetryDue(o, Step(o, s, On(Connect(Refused(TransportFailure)), (n: nat) => true)), 0)
  {
    var i := On(Connect(Refused(TransportFailure)), (n: nat) => true);
    OneTopicOrder(s);
    StepKeeps(o, s, i);
    RefusedDial(o, Tick(s, 0), false, i.accepts);
    assert Step(o, s, i) == EstablishConnection(o, Tick(s, 0), false, Refused(TransportFailure), i.accepts);
  }

  lemma NextRefused(o: Options, s: State, m: nat)
    requires RetryDue(o, s, m) && WithinLimit(o, m + 2)
    ensures RetryDue(o, Step(o, s, On(RetryTimer(Refused(TransportFailure)), (n: nat) => true)), m + 1)
  {
    var i := On(RetryTimer(Refused(TransportFailure)), (n: nat) => true);
    var s1 := Tick(s, 0).(link := Enter(s.link.(attempt := s.link.retry.value, retry := None), Reconnecting));
    OneTopicOrder(s);
    StepKeeps(o, s, i);
    RefusedDial(o, s1, true, i.accepts);
    assert Step(o, s, i) == EstablishConnection(o, s1, true, Refused(TransportFailure), i.accepts);
  }

  lemma {:induction false} RefusedRun(o: Options, m: nat) returns (ins: seq<Input>)
    requires WithinLimit(o, m + 1)
    ensures RetryDue(o, Run(o, ins), m)
  {
    if m == 0 {
      var s := Subscribed(o);
      FirstRefused(o, s);
      ins := [SubscribeFirst(), On(Connect(Refused(TransportFailure)), (n: nat) => true)];
      assert ins == [SubscribeFirst()] + [ins[1]];
      Extended(o, [SubscribeFirst()], ins[1]);
    } else {
      var rest := RefusedRun(o, m - 1);
      NextRefused(o, Run(o, rest), m - 1);
      ins := rest + [On(RetryTimer(Refused(TransportFailure)), (n: nat) => true)];
      Extended(o, rest, ins[|rest|]);
    }
  }

  // ------------------------------------------------------------------------------------------
  // A walk over a cleared table.

  /** A handshake is in flight and no attempt is left. */
  ghost predicate LastChance(o: Options, s: State, rid: nat) {
    && Inv(o, s) && OneTopic(s) && !WithinLimit(o, s.link.attempt + 1)
    && rid in s.table.rpcs && s.table.rpcs[rid].Handshake?
  }

  lemma FirstDial(o: Options, s: State)
    requires OneTopic(s) && s.link.st == Idle && s.link.attempt == 0 && Inv(o, s) && !WithinLimit(o, 1)
    ensures LastChance(o, Step(o, s, On(Connect(Up), (n: nat) => true)), s.wire.nextId)
  {
    var i := On(Connect(Up), (n: nat) => true);
    OneTopicOrder(s);
    StepKeeps(o, s, i);
  }

  lemma LastDial(o: Options, s: State, m: nat)
    requires RetryDue(o, s, m) && !WithinLimit(o, m + 2)
    ensures LastChance(o, Step(o, s, Retrying([TOPIC])), s.wire.nextId)
  {
    OneTopicOrder(s);
    RetryStep(o, s, [TOPIC]);
  }

  lemma LastDialRun(o: Options) returns (ins: seq<Input>, rid: nat)
    requires o.maxAttempts >= 0
    ensures LastChance(o, Run(o, ins), rid)
  {
    if o.maxAttempts == 0 {
      var s := Subscribed(o);
      FirstDial(o, s);
      var i := On(Connect(Up), (n: nat) => true);
      ins, rid := [SubscribeFirst()] + [i], s.wire.nextId;
      Extended(o, [SubscribeFirst()], i);
    } else {
      var rest := RefusedRun(o, o.maxAttempts - 1);
      LastDial(o, Run(o, rest), o.maxAttempts - 1);
      ins, rid := rest + [Retrying([TOPIC])], Run(o, rest).wire.nextId;
      Extended(o, rest, Retrying([TOPIC]));
    }
  }

  /** The socket takes nothing after the handshake. */
  lemma RefusedWalk(o: Options, s: State, rid: nat)
    requires LastChance(o, s, rid)
    ensures Step(o, s, On(Inbound(Greeting(rid)), (n: nat) => false)).fault == DanglingIterator
  {
    var i := On(Inbound(Greeting(rid)), (n: nat) => false);
    OneTopicOrder(s);
    HandshakeFaultsIff(o, s, i);
    assert !i.accepts(s.wire.nextId);
  }

  lemma DanglingRun(o: Options) returns (ins: seq<Input>)
    requires o.maxAttempts >= 0
    ensures Run(o, ins).fault == DanglingIterator
  {
    var rest, rid := LastDialRun(o);
    var i := On(Inbound(Greeting(rid)), (n: nat) => false);
    RefusedWalk(o, Run(o, rest), rid);
    ins := rest + [i];
    Extended(o, rest, i);
  }

  lemma {:induction false} NoDanglingWithoutLimit(o: Options, ins: seq<Input>)
    requires o.maxAttempts < 0
    ensures Run(o, ins).fault != DanglingIterator
  {
    if ins != [] {
      var k := |ins| - 1;
      var s := Run(o, ins[..k]);
      NoDanglingWithoutLimit(o, ins[..k]);
      RunKeeps(o, ins[..k]);
      if s.fault == NoFault && Step(o, s, ins[k]).fault != NoFault {
        OnlyTheseFault(o, s, ins[k]);
      }
    }
  }

  ghost predicate CanDangle(o: Options) {
    exists ins :: Run(o, ins).fault == DanglingIterator
  }

  /** Some run walks over a cleared table exactly when the options limit the reconnect attempts. */
  lemma DanglingReachableIff(o: Options)
    ensures CanDangle(o) <==> o.maxAttempts >= 0
  {
    if o.maxAttempts >= 0 {
      var ins := DanglingRun(o);
    } else {
      forall ins ensures Run(o, ins).fault != DanglingIterator {
        NoDanglingWithoutLimit(o, ins);
      }
    }
  }

  // ------------------------------------------------------------------------------------------
  // A subscription that leaves the barrier.

  /** After a reconnect on a socket that takes everything, the one subscription is outstanding. */
  lemma GreetedWaits(o: Options, s: State, resp: Response)
    requires Answered(o, s) && s.link.st == Reconnecting && OneTopic(s) && resp.success && resp.hasHandshake
    ensures var r := CompleteHandshake(o, s, true, resp, (n: nat) => true, [TOPIC]);
      r.fault == NoFault && AtBarrier(r) && r.barrier.abandoned == 0 && TOPIC in Outstanding(r.subs.active)
      && r.subs.active.Keys == {TOPIC}
  {
    var s2, all := BarrierOpened(o, s), (n: nat) => true;
    OneTopicOrder(s);
    assert |s.subs.active| == |s.subs.active.Keys| == 1;
    BarrierOpens(o, s, [TOPIC]);
    WalkTaken(o, s2, [TOPIC], all);
    WalkAsksAll(o, s2, [TOPIC], TOPIC, all);
    WalkKeys(o, s2, [TOPIC], all);
    AllOutstanding(o, Resubscribe(o, s2, [TOPIC], all));
  }

  lemma {:induction false} WalkKeys(o: Options, s: State, ts: seq<string>, accepts: nat -> bool)
    ensures var r := Resubscribe(o, s, ts, accepts);
      r.fault == NoFault && r.link.st != Fatal && s.link.st != Fatal ==> r.subs.active.Keys == s.subs.active.Keys
    decreases |ts|
  {
    if ts != [] && s.fault == NoFault && ts[0] in s.subs.active {
      SendKeys(o, Readied(s, ts[0]), ts[0], ResumeFrom(o, s.subs.active[ts[0]].slot), accepts);
      WalkKeys(o, Trampled(ResubscribeOne(o, s, ts[0], accepts)), ts[1..], accepts);
    }
  }

  lemma CloseKeys(o: Options, s: State, reason: ErrorCode)
    ensures var r := OnTransportClose(o, s, reason); r.link.st != Fatal ==> r.subs.active.Keys == s.subs.active.Keys
  {
    assert PauseAll(s.subs, reason).active.Keys == s.subs.active.Keys;
  }

  lemma SendKeys(o: Options, s: State, t: string, since: nat, accepts: nat -> bool)
    requires t in s.subs.active
    ensures var r := SendSubscribe(o, s, t, since, accepts); r.link.st != Fatal ==> r.subs.active.Keys == s.subs.active.Keys
  {
    CloseKeys(o, Unsendable(s, t, since), TransportFailure);
    assert !Takes(s.wire, accepts) ==>
      SendSubscribe(o, s, t, since, accepts) == OnTransportClose(o, Unsendable(s, t, since), TransportFailure);
  }

  lemma GreetedOne(o: Options, s: State, rid: nat) returns (r: State)
    requires Inv(o, s) && OneTopic(s) && s.link.st == Reconnecting
    requires rid in s.table.rpcs && s.table.rpcs[rid] == Handshake(true)
    ensures r == Step(o, s, Answer(Greeting(rid), [TOPIC]))
    ensures Inv(o, r) && OneTopic(r) && AtBarrier(r) && r.barrier.abandoned == 0 && TOPIC in Outstanding(r.subs.active)
  {
    var i := Answer(Greeting(rid), [TOPIC]);
    var s1 := Noted(Tick(s, 0));
    OneTopicOrder(s);
    StepKeeps(o, s, i);
    ClockKeeps(o, s, 0);
    NotedKeeps(o, Tick(s, 0));
    HandshakeAnswered(o, s1, rid, s1.wire.okd + {rid});
    GreetedWaits(o, Taken(s1, i.event.resp), i.event.resp);
    InboundStep(o, s, i);
    r := Step(o, s, i);
  }

  lemma Leaving(o: Options, s: State)
    requires Inv(o, s) && OneTopic(s) && AtBarrier(s) && s.barrier.abandoned == 0 && TOPIC in Outstanding(s.subs.active)
    ensures var r := Step(o, s, On(UnsubscribeAsync(TOPIC), (n: nat) => true));
      r.fault == NoFault && AtBarrier(r) && r.barrier.abandoned == 1
  {
    OneTopicOrder(s);
  }

  /** Reconnect, and unsubscribe while the resubscribe is unanswered. */
  lemma AbandoningRun(o: Options) returns (ins: seq<Input>)
    requires WithinLimit(o, 1)
    ensures Run(o, ins).fault == NoFault && AtBarrier(Run(o, ins)) && Run(o, ins).barrier.abandoned == 1
  {
    var lost := RefusedRun(o, 0);
    var s := Run(o, lost);
    OneTopicOrder(s);
    RetryStep(o, s, [TOPIC]);
    var s1 := Step(o, s, Retrying([TOPIC]));
    var s2 := GreetedOne(o, s1, s.wire.nextId);
    Leaving(o, s2);
    var greeted := lost + [Retrying([TOPIC])] + [Answer(Greeting(s.wire.nextId), [TOPIC])];
    ins := greeted + [On(UnsubscribeAsync(TOPIC), (n: nat) => true)];
    Extended(o, lost, Retrying([TOPIC]));
    Extended(o, lost + [Retrying([TOPIC])], Answer(Greeting(s.wire.nextId), [TOPIC]));
    Extended(o, greeted, On(UnsubscribeAsync(TOPIC), (n: nat) => true));
  }

  /** The run has left its connection in a barrier that can never complete. */
  ghost predicate GetsStuck(o: Options, ins: seq<Input>) {
    var s := Run(o, ins);
    s.fault == NoFault && AtBarrier(s) && !CanBecomeReady(o, s)
  }

  /** Some run leaves a barrier that can never complete exactly when the options allow a reconnect. */
  lemma StuckReachableIff(o: Options)
    ensures (exists ins :: GetsStuck(o, ins)) <==> WithinLimit(o, 1)
  {
    if WithinLimit(o, 1) {
      var ins := AbandoningRun(o);
      CompletesIffNothingAbandoned(o, ins);
      assert GetsStuck(o, ins);
    } else {
      forall ins ensures !GetsStuck(o, ins) {
        RunKeeps(o, ins);
        if Run(o, ins).fault == NoFault { NoBarrierWithoutRetries(o, Run(o, ins)); }
      }
    }
  }

  // ------------------------------------------------------------------------------------------
  // A user in Inline mode.

  function Acked(rid: nat): Response {
    Response(rid, true, Ok, false, false, Ok, true, true, NoReason, 1)
  }

  /** The subscription of TOPIC, with request number 2 outstanding. */
  function Requested(o: Options): Slot {
    BeginSubscribe(NewSlot(Event, o.policy, o.queueSize), 0, 2, false)
  }

  lemma SubscribedReady(o: Options, s: State) returns (r: State)
    requires At(s, Ready, 1, 2, map[], false) && s.wire.up
    ensures r == Step(o, s, SubscribeFirst())
    ensures OneTopic(r) && r.link.st == Ready && r.wire.conn == 1 && r.subs.active[TOPIC].slot == Requested(o)
    ensures 2 in r.subs.req && r.subs.req[2] == TOPIC
  {
    var i := SubscribeFirst();
    assert Lists(i.order, s.subs.active);
    r := Step(o, s, i);
    assert r == OnSubscribe(o, Tick(s, 0), TOPIC, Event, false, i.accepts);
  }

  lemma AckedSlot(s: Slot)
    requires s.semantics == Event && s.state == Pending && s.expected == 0 && s.buffer == [] && s.log == [] && !s.resuming
    ensures var r := Accept(s, 1); r.log == [Opened(false, None, 1)] && r.state == Active && r.lastSeq == 0 && r.semantics == Event
  {
    assert [] + [Opened(false, None, 1)] == [Opened(false, None, 1)];
  }

  lemma AckedReady(o: Options, s: State) returns (r: State)
    requires OneTopic(s) && s.link.st == Ready && s.wire.conn == 1 && s.subs.active[TOPIC].slot == Requested(o)
    requires 2 in s.subs.req && s.subs.req[2] == TOPIC
    ensures r == Step(o, s, On(Inbound(Acked(2)), (n: nat) => true))
    ensures OneTopic(r) && r.link.st == Ready && r.wire.conn == 1
    ensures var slot := r.subs.active[TOPIC].slot;
      slot.log == [Opened(false, None, 1)] && slot.state == Active && slot.lastSeq == 0 && slot.semantics == Event
  {
    var i := On(Inbound(Acked(2)), (n: nat) => true);
    OneTopicOrder(s);
    InboundStep(o, s, i);
    AckedSlot(Requested(o).(inflight := 0));
    r := Step(o, s, i);
    assert r == AckAccepted(Matched(Noted(Tick(s, 0)), 2), TOPIC, 1);
  }

  lemma PushedReady(o: Options, s: State)
    requires OneTopic(s) && s.wire.conn == 1
    requires var slot := s.subs.active[TOPIC].slot;
      slot.log == [Opened(false, None, 1)] && slot.state == Active && slot.lastSeq == 0 && slot.semantics == Event
    ensures var r := Step(o, s, On(Pushed(TOPIC, Delivery.FirstFrame()), (n: nat) => true));
      r.fault == NoFault && TOPIC in r.subs.active
      && r.subs.active[TOPIC].slot.log == [Opened(false, None, 1), Frame(Delivery.FirstFrame())]
  {
    var i := On(Pushed(TOPIC, Delivery.FirstFrame()), (n: nat) => true);
    OneTopicOrder(s);
    assert Step(o, s, i) == HandlePush(Noted(Tick(s, 0)), TOPIC, Delivery.FirstFrame());
    assert [Opened(false, None, 1)] + [Frame(Delivery.FirstFrame())] == [Opened(false, None, 1), Frame(Delivery.FirstFrame())];
  }

  /** Some run raises notes that a user in Inline mode can be told in an order that is no
      well-formed story: the first frame before the start. */
  lemma InlineUserIsMisled(o: Options) returns (ins: seq<Input>)
    ensures var s := Run(o, ins);
      && s.fault == NoFault && TOPIC in s.subs.active
      && s.subs.active[TOPIC].slot.log == Delivery.Raised(Delivery.FrameFirst())
    ensures PhaseOf(Delivery.Seen(Delivery.Inline, Delivery.FrameFirst())) == Broken
  {
    var before := LosingTwice()[..2];
    var ack, push := On(Inbound(Acked(2)), (n: nat) => true), On(Pushed(TOPIC, Delivery.FirstFrame()), (n: nat) => true);
    var s := GreetRun(o);
    var s1 := SubscribedReady(o, s);
    var s2 := AckedReady(o, s1);
    PushedReady(o, s2);
    Delivery.InlineCanBreak();
    Extended(o, before, SubscribeFirst());
    TwoMore(o, before + [SubscribeFirst()], ack, push);
    ins := before + [SubscribeFirst()] + [ack, push];
  }
}
