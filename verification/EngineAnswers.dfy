/** A call reports success only if the robot said so: every other way to settle a promise settles
    it with a failure. */
module EngineAnswers {
  import opened Types
  import opened Stream
  import opened Engine
  import opened EngineMemory
  import opened EngineHistory
  import opened EngineTheorems
  import opened EngineInvariant
  import opened EngineSteps
  import opened EngineFaults
  import Heartbeat

  predicate AllFail(outs: seq<Outcome>) {
    forall i :: 0 <= i < |outs| ==> !outs[i].ok
  }

  /** Promises only gain values, and none but that of call but gains a success; but == -1 stands
      for no exception. */
  predicate Honest(a: seq<seq<Outcome>>, b: seq<seq<Outcome>>, but: int) {
    && |a| <= |b|
    && (forall c :: 0 <= c < |a| && c != but ==> a[c] <= b[c] && AllFail(b[c][|a[c]|..]))
    && (forall c :: |a| <= c < |b| && c != but ==> AllFail(b[c]))
  }

  lemma HonestChain(a: seq<seq<Outcome>>, b: seq<seq<Outcome>>, c: seq<seq<Outcome>>, but: int)
    requires Honest(a, b, -1) && Honest(b, c, but)
    ensures Honest(a, c, but)
  {
    forall i | 0 <= i < |a| && i != but ensures a[i] <= c[i] && AllFail(c[i][|a[i]|..]) {
      assert c[i] == b[i] + c[i][|b[i]|..] && b[i] == a[i] + b[i][|a[i]|..];
      assert c[i][|a[i]|..] == b[i][|a[i]|..] + c[i][|b[i]|..];
    }
    forall i | |a| <= i < |c| && i != but ensures AllFail(c[i]) {
      if i < |b| { assert c[i] == b[i] + c[i][|b[i]|..]; }
    }
  }

  lemma SettleAllHonest(t: Table, out: Outcome)
    requires !out.ok
    ensures Honest(t.calls, SettleAll(t, out).calls, -1)
  {
  }

  lemma SettleHonest(calls: seq<seq<Outcome>>, c: nat, out: Outcome)
    ensures Honest(calls, Settle(calls, c, out), if out.ok then c else -1)
    ensures Honest(calls, Settle(calls + [[]], c, out), if out.ok then c else -1)
  {
  }

  /** The promises as a handler leaves them. */
  predicate Fair(s: State, s': State) {
    Honest(s.table.calls, s'.table.calls, -1)
  }

  lemma FairChain(s: State, s1: State, s2: State)
    requires Fair(s, s1) && Fair(s1, s2)
    ensures Fair(s, s2)
  {
    HonestChain(s.table.calls, s1.table.calls, s2.table.calls, -1);
  }

  lemma SameCallsFair(s: State, s': State)
    requires s'.table.calls == s.table.calls
    ensures Fair(s, s')
  {
  }

  // ------------------------------------------------------------------------------------------
  // Handlers that answer nobody.

  lemma AbortFair(s: State, code: ErrorCode)
    ensures Fair(s, AbortToFatal(s, code))
  {
    SettleAllHonest(s.table, Outcome(false, code));
  }

  lemma ReconnectFair(o: Options, s: State, attempt: nat)
    requires attempt >= 1
    ensures Fair(s, DoReconnect(o, s, attempt))
  {
    AbortFair(s, TransportFailure);
  }

  lemma CloseFair(o: Options, s: State, reason: ErrorCode)
    ensures Fair(s, OnTransportClose(o, s, reason))
  {
    if !Terminal(s.link.st) && !HasReplay(s.table.rpcs) {
      var d := TearDown(s, reason);
      SettleAllHonest(s.table, Outcome(false, reason));
      assert Fair(s, d);
      ReconnectFair(o, d, s.link.attempt + 1);
      FairChain(s, d, DoReconnect(o, d, s.link.attempt + 1));
    }
  }

  lemma FailFair(o: Options, s: State, code: ErrorCode)
    ensures Fair(s, FailConnection(o, s, code)) && Fair(s, GiveUpConnection(o, s))
  {
    var d := s.(wire := s.wire.(up := false), link := Enter(s.link, TransientFailure));
    AbortFair(s, code);
    ReconnectFair(o, d, s.link.attempt + 1);
    SameCallsFair(s, d);
    FairChain(s, d, GiveUpConnection(o, s));
  }

  lemma HandshakeSentFair(o: Options, s: State, reconnect: bool, accepts: nat -> bool)
    ensures Fair(s, SendHandshake(o, s, reconnect, accepts))
  {
    if !Takes(s.wire, accepts) {
      var s1 := s.(wire := Take(s.wire, false, HandshakeReq));
      SameCallsFair(s, s1);
      FailFair(o, s1, Ok);
      FairChain(s, s1, GiveUpConnection(o, s1));
    }
  }

  lemma EstablishFair(o: Options, s: State, reconnect: bool, dial: Dial, accepts: nat -> bool)
    ensures Fair(s, EstablishConnection(o, s, reconnect, dial, accepts))
  {
    var s0 := if reconnect then s else s.(link := Enter(s.link, Connecting));
    var r := EstablishConnection(o, s, reconnect, dial, accepts);
    match dial
    case Refused(code) =>
      FailFair(o, s0, code);
      FairChain(s, s0, r);
    case EncodeThrows(code) =>
      var s1 := s0.(wire := Take(NewSocket(s0.wire), false, HandshakeReq));
      SameCallsFair(s, s1);
      AbortFair(s1, code);
      FairChain(s, s1, r);
    case Up =>
      var s1 := s0.(wire := NewSocket(s0.wire));
      SameCallsFair(s, s1);
      HandshakeSentFair(o, s1, reconnect, accepts);
      FairChain(s, s1, r);
  }

  lemma SendFair(o: Options, s: State, t: string, since: nat, accepts: nat -> bool)
    requires t in s.subs.active
    ensures Fair(s, SendSubscribe(o, s, t, since, accepts))
  {
    if !Takes(s.wire, accepts) {
      var slot := BeginSubscribe(s.subs.active[t].slot, since, s.wire.nextId, s.link.st == Reconnecting);
      var mid := s.(wire := Take(s.wire, false, SubscribeReq(t, slot.expected)),
                    subs := WithSlot(s.subs, t, slot.(inflight := 0)));
      SameCallsFair(s, mid);
      CloseFair(o, mid, TransportFailure);
      FairChain(s, mid, SendSubscribe(o, s, t, since, accepts));
    }
  }

  lemma {:induction false} WalkFair(o: Options, s: State, ts: seq<string>, accepts: nat -> bool)
    ensures Fair(s, Resubscribe(o, s, ts, accepts))
    decreases |ts|
  {
    if ts != [] && s.fault == NoFault && ts[0] in s.subs.active {
      var s0, s1 := Readied(s, ts[0]), Trampled(ResubscribeOne(o, s, ts[0], accepts));
      SendFair(o, s0, ts[0], ResumeFrom(o, s.subs.active[ts[0]].slot), accepts);
      assert Fair(s, s1);
      WalkFair(o, s1, ts[1..], accepts);
      FairChain(s, s1, Resubscribe(o, s, ts, accepts));
    }
  }

  lemma {:induction false} WaitingFair(o: Options, s: State, ts: seq<string>, accepts: nat -> bool)
    ensures Fair(s, SubscribeWaiting(o, s, ts, accepts))
    decreases |ts|
  {
    if ts != [] && s.fault == NoFault && ts[0] in s.subs.active {
      var s1 := Trampled(SubscribeOne(o, s, ts[0], accepts));
      SendFair(o, s, ts[0], 0, accepts);
      assert Fair(s, s1);
      WaitingFair(o, s1, ts[1..], accepts);
      FairChain(s, s1, SubscribeWaiting(o, s, ts, accepts));
    }
  }

  lemma AckFailedFair(o: Options, s: State, t: string, code: ErrorCode)
    requires t in s.subs.active
    ensures Fair(s, AckFailed(o, s, t, code))
  {
    if Classify(code) == FatalCategory {
      AbortFair(s, code);
    } else if Classify(code) == Transient && s.link.st == Reconnecting {
      CloseFair(o, s, code);
    } else {
      SameCallsFair(s, AckFailed(o, s, t, code));
    }
  }

  lemma AckRejectedFair(o: Options, s: State, t: string, reject: RejectReason, accepts: nat -> bool)
    requires t in s.subs.active
    ensures Fair(s, AckRejected(o, s, t, reject, accepts))
  {
    SendFair(o, s.(subs := WithSlot(s.subs, t, Fallback(s.subs.active[t].slot))), t, 0, accepts);
  }

  lemma AckFair(o: Options, s: State, resp: Response, accepts: nat -> bool)
    ensures Fair(s, HandleSubscribeAck(o, s, resp, accepts))
  {
    if resp.requestId in s.subs.req && s.subs.req[resp.requestId] in s.subs.active {
      var s1, t := Matched(s, resp.requestId), s.subs.req[resp.requestId];
      if !resp.success {
        AckFailedFair(o, s1, t, resp.code);
      } else if !resp.accepted {
        AckRejectedFair(o, s1, t, resp.reject, accepts);
      }
    }
  }

  lemma ReplayFair(o: Options, s: State, accepts: nat -> bool)
    ensures Fair(s, DoEStopReplay(o, s, accepts))
  {
    CloseFair(o, s.(wire := Take(s.wire, false, EStopReq(true)), barrier := s.barrier.(estop := false)), TransportFailure);
  }

  lemma RestoreFair(o: Options, s: State, accepts: nat -> bool, order: seq<string>)
    ensures Fair(s, Restore(o, s, accepts, order))
  {
    var s1 := s.(barrier := Barrier(|s.subs.active|, s.engaged, 0));
    var s2 := Resubscribe(o, s1, order, accepts);
    WalkFair(o, s1, order, accepts);
    ReplayFair(o, s2, accepts);
    assert Fair(s, s2);
    FairChain(s, s2, DoEStopReplay(o, s2, accepts));
  }

  lemma HandshakeFair(o: Options, s: State, reconnect: bool, resp: Response, accepts: nat -> bool, order: seq<string>)
    ensures Fair(s, CompleteHandshake(o, s, reconnect, resp, accepts, order))
  {
    if !resp.success || !resp.hasHandshake {
      FailFair(o, s, if resp.success then InternalError else resp.code);
    } else {
      var s1 := s.(hb := Heartbeat.Start(o.heartbeat, s.hb, s.clock), wire := s.wire.(greeted := true));
      WaitingFair(o, s1.(link := Enter(s.link, Ready)), order, accepts);
      RestoreFair(o, s1, accepts, order);
    }
  }

  lemma RpcTimeoutFair(o: Options, s: State, rid: nat)
    ensures Fair(s, OnRpcTimeout(o, s, rid))
  {
    if rid in s.table.rpcs {
      CloseFair(o, s.(table := s.table.(rpcs := s.table.rpcs - {rid}), barrier := s.barrier.(estop := false)), Timeout);
      if CallOf(s.table.rpcs[rid]).Some? {
        SettleHonest(s.table.calls, CallOf(s.table.rpcs[rid]).value, Outcome(false, Timeout));
      }
    }
  }

  lemma SendHeartbeatFair(o: Options, s: State, accepts: nat -> bool)
    ensures Fair(s, SendHeartbeat(o, s, accepts))
  {
    CloseFair(o, s.(table := s.table.(rpcs := s.table.rpcs[s.wire.nextId := HeartbeatPing]),
                    wire := Take(s.wire, Takes(s.wire, accepts), PingReq)), TransportFailure);
  }

  lemma DeadlineFair(o: Options, s: State, open: bool, accepts: nat -> bool)
    ensures Fair(s, OnPingDeadline(o, s, open, accepts))
  {
    var s1 := s.(hb := Heartbeat.OnDeadline(o.heartbeat, s.hb, s.clock, s.wire.up && open).0);
    SendHeartbeatFair(o, s1, accepts);
    CloseFair(o, s1, TransportFailure);
  }

  lemma RetryFair(o: Options, s: State, dial: Dial, accepts: nat -> bool)
    ensures Fair(s, OnRetryTimer(o, s, dial, accepts))
  {
    if s.link.retry.Some? {
      EstablishFair(o, s.(link := Enter(s.link.(attempt := s.link.retry.value, retry := None), Reconnecting)), true, dial, accepts);
    }
  }

  lemma TimerFair(o: Options, s: State, i: Input)
    ensures Fair(s, HandleTimer(o, s, i))
  {
    match i.event
    case RpcTimeout(rid) => RpcTimeoutFair(o, s, rid);
    case AckTimeout(_, _) => CloseFair(o, s, Timeout);
    case RetryTimer(dial) => RetryFair(o, s, dial, i.accepts);
    case IdleTimer =>
      SendHeartbeatFair(o, s.(hb := Heartbeat.OnIdle(o.heartbeat, s.hb, s.clock, s.wire.up && i.open).0), i.accepts);
    case PingDeadline => DeadlineFair(o, s, i.open, i.accepts);
    case _ =>
  }

  // ------------------------------------------------------------------------------------------
  // Handlers that answer a call.

  /** The response reports success; a task call or an unsubscribe also takes a failure with code Ok
      for one. */
  predicate Approves(op: Op, resp: Response) {
    if op == Invoke then (Succeeds(resp) && resp.hasRpc) || (!resp.success && resp.code == Ok) else Succeeds(resp)
  }

  /** What may make call c a success: a response that reports it, any answer to a ping, or an
      unsubscribe of a topic nobody is subscribed to. */
  predicate Earns(s: State, i: Input, c: nat) {
    match i.event
    case Inbound(resp) =>
      && Hears(s, i) && !resp.hasSubscribe && resp.requestId in s.table.rpcs
      && (match s.table.rpcs[resp.requestId]
          case User(d, op) => d == c && (op == Ping || Approves(op, resp))
          case Unsub(d, _) => d == c && (resp.success || resp.code == Ok)
          case _ => false)
    case UnsubscribeSync(t) =>
      s.fault == NoFault && Lists(i.order, s.subs.active) && c == |s.table.calls| && t !in s.subs.active
    case _ => false
  }

  lemma CallFair(s: State, op: Op, accepts: nat -> bool)
    ensures Fair(s, OnCall(s, op, accepts))
  {
    SettleHonest(s.table.calls, |s.table.calls|, Outcome(false, Disconnected));
    SettleHonest(s.table.calls, |s.table.calls|, Outcome(false, TransportFailure));
  }

  lemma UnsubscribeFair(s: State, t: string, open: bool, accepts: nat -> bool)
    ensures t in s.subs.active ==> Fair(s, OnUnsubscribeSync(s, t, open, accepts))
    ensures Honest(s.table.calls, OnUnsubscribeSync(s, t, open, accepts).table.calls, |s.table.calls|)
  {
    SettleHonest(s.table.calls, |s.table.calls|, Outcome(true, Ok));
    SettleHonest(s.table.calls, |s.table.calls|, Outcome(false, Disconnected));
    SettleHonest(s.table.calls, |s.table.calls|, Outcome(false, TransportFailure));
  }

  /** A success gained by call c was earned by the input. */
  predicate Gains(a: seq<seq<Outcome>>, b: seq<seq<Outcome>>, c: nat) {
    c < |b| && exists k :: (if c < |a| then |a[c]| else 0) <= k < |b[c]| && b[c][k].ok
  }

  lemma FairGainsNothing(a: seq<seq<Outcome>>, b: seq<seq<Outcome>>, but: int, c: nat)
    requires Honest(a, b, but) && c != but
    ensures !Gains(a, b, c)
  {
    if c < |a| {
      forall k | |a[c]| <= k < |b[c]| ensures !b[c][k].ok {
        assert b[c][|a[c]|..][k - |a[c]|] == b[c][k];
      }
    }
  }

  lemma UserGains(o: Options, s: State, i: Input, c: nat)
    requires s.fault == NoFault && Lists(i.order, s.subs.active)
    requires Gains(s.table.calls, HandleUser(o, s, i).table.calls, c)
    ensures Earns(s, i, c)
  {
    var r := HandleUser(o, s, i);
    match i.event
    case UnsubscribeSync(t) =>
      UnsubscribeFair(s, t, i.open, i.accepts);
      if t in s.subs.active || c != |s.table.calls| {
        FairGainsNothing(s.table.calls, r.table.calls, if t in s.subs.active then -1 else |s.table.calls|, c);
      }
    case _ =>
      UserFair(o, s, i);
      FairGainsNothing(s.table.calls, r.table.calls, -1, c);
  }

  lemma UserFair(o: Options, s: State, i: Input)
    requires !i.event.UnsubscribeSync?
    ensures Fair(s, HandleUser(o, s, i))
  {
    match i.event
    case Connect(dial) => EstablishFair(o, s, false, dial, i.accepts);
    case Close => SettleAllHonest(s.table, Outcome(false, Cancelled));
    case Subscribe(t, semantics, _) =>
      SendFair(o, s.(subs := s.subs.(active := s.subs.active[t := Entry(NewSlot(semantics, o.policy, o.queueSize), false, 0, 0)])),
               t, 0, i.accepts);
    case Call(op) => CallFair(s, op, i.accepts);
    case _ =>
  }

  lemma CompletionGains(s: State, resp: Response, c: nat)
    requires !resp.hasSubscribe && resp.requestId in s.table.rpcs
    requires var j := s.table.rpcs[resp.requestId];
      || (j.User? && Gains(s.table.calls, CompleteCall(Taken(s, resp), j.call, j.op, resp).table.calls, c)
          && !(j.call == c && (j.op == Ping || Approves(j.op, resp))))
      || (j.Unsub? && Gains(s.table.calls, CompleteUnsubscribe(Taken(s, resp), j.call, j.topic, resp).table.calls, c)
          && !(j.call == c && (resp.success || resp.code == Ok)))
    ensures false
  {
    var j, code := s.table.rpcs[resp.requestId], if resp.success then Ok else resp.code;
    var out := if j.User? then ReplyTo(j.op, resp) else Outcome(code == Ok, code);
    SettleHonest(s.table.calls, j.call, out);
    FairGainsNothing(s.table.calls, Settle(s.table.calls, j.call, out), if out.ok then j.call else -1, c);
  }

  lemma ResponseGains(o: Options, s: State, i: Input, c: nat)
    requires Hears(s, i) && i.event.Inbound?
    requires Gains(s.table.calls, HandleResponse(o, Noted(s), i.event.resp, i.accepts, i.order).table.calls, c)
    ensures Earns(s, i, c)
  {
    var resp, s1 := i.event.resp, Noted(s);
    var r := HandleResponse(o, s1, resp, i.accepts, i.order);
    if resp.hasSubscribe {
      AckFair(o, s1, resp, i.accepts);
      FairGainsNothing(s.table.calls, r.table.calls, -1, c);
    } else if resp.requestId in s.table.rpcs {
      var s2, j := Taken(s1, resp), s.table.rpcs[resp.requestId];
      if CallOf(j) == None {
        if j.Handshake? { HandshakeFair(o, s2, j.reconnect, resp, i.accepts, i.order); }
        CloseFair(o, s2.(barrier := s2.barrier.(estop := false)), if resp.success then resp.rpcCode else resp.code);
        assert Fair(s, r);
        FairGainsNothing(s.table.calls, r.table.calls, -1, c);
      } else if !Earns(s, i, c) {
        CompletionGains(s1, resp, c);
      }
    }
  }

  /** One step: a call gains a success only if the input earns it. */
  lemma StepGains(o: Options, s: State, i: Input, c: nat)
    requires Gains(s.table.calls, Step(o, s, i).table.calls, c)
    ensures Earns(s, i, c)
  {
    if s.fault == NoFault && Lists(i.order, s.subs.active) {
      var s1, r := Tick(s, i.elapsed), Step(o, s, i);
      if FromUser(i.event) {
        UserGains(o, s1, i, c);
      } else if i.event.Inbound? && s.wire.conn > 0 {
        ResponseGains(o, s1, i, c);
      } else {
        if FromSocket(i.event) {
          CloseFair(o, s1, Cancelled);
          CloseFair(o, s1, TransportFailure);
        } else {
          TimerFair(o, s1, i);
        }
        FairGainsNothing(s.table.calls, r.table.calls, -1, c);
      }
    }
  }

  lemma FirstValue(calls: seq<seq<Outcome>>, c: nat, out: Outcome)
    requires c < |calls| && calls[c] == []
    ensures Settle(calls, c, out) == calls[c := [out]]
  {
    assert calls[c] + [out] == [out];
  }

  lemma UserEarns(o: Options, s: State, i: Input, c: nat)
    requires Earns(s, i, c) && i.event.UnsubscribeSync?
    ensures HandleUser(o, s, i).table.calls == s.table.calls + [[Outcome(true, Ok)]]
  {
    FirstValue(s.table.calls + [[]], c, Outcome(true, Ok));
    assert (s.table.calls + [[]])[c := [Outcome(true, Ok)]] == s.table.calls + [[Outcome(true, Ok)]];
  }

  /** The call whose promise an answered entry holds is still waiting. */
  lemma HeldIsOpen(o: Options, s: State, rid: nat)
    requires Inv(o, s) && rid in s.table.rpcs && CallOf(s.table.rpcs[rid]).Some?
    ensures var c := CallOf(s.table.rpcs[rid]).value; c < |s.table.calls| && s.table.calls[c] == []
  {
    assert CallOf(s.table.rpcs[rid]).value in OpenCalls(s.table.rpcs);
  }

  lemma ResponseEarns(o: Options, s: State, i: Input, c: nat)
    requires Inv(o, s) && Earns(s, i, c) && i.event.Inbound?
    ensures c < |s.table.calls| && s.table.calls[c] == []
    ensures HandleResponse(o, Noted(s), i.event.resp, i.accepts, i.order).table.calls == s.table.calls[c := [Outcome(true, Ok)]]
  {
    var rid := i.event.resp.requestId;
    HeldIsOpen(o, s, rid);
    FirstValue(s.table.calls, c, Outcome(true, Ok));
  }

  /** An input that earns it makes the call a success, with this one value. */
  lemma StepEarns(o: Options, s: State, i: Input, c: nat)
    requires Inv(o, s) && Earns(s, i, c)
    ensures var r := Step(o, s, i).table.calls; c < |r| && r[c] == [Outcome(true, Ok)]
    ensures c < |s.table.calls| ==> s.table.calls[c] == []
  {
    var s1 := Tick(s, i.elapsed);
    ClockKeeps(o, s, i.elapsed);
    if i.event.Inbound? {
      ResponseEarns(o, s1, i, c);
      InboundStep(o, s, i);
    } else {
      UserEarns(o, s1, i, c);
    }
  }

  /** One step: a call gains a success if and only if the input earns it. */
  lemma GainsIffEarned(o: Options, s: State, i: Input, c: nat)
    requires Inv(o, s)
    ensures Gains(s.table.calls, Step(o, s, i).table.calls, c) <==> Earns(s, i, c)
  {
    if Earns(s, i, c) {
      StepEarns(o, s, i, c);
      assert Step(o, s, i).table.calls[c][0].ok;
    } else if Gains(s.table.calls, Step(o, s, i).table.calls, c) {
      StepGains(o, s, i, c);
    }
  }

  /** A response that reports failure, with the code Ok, to a task call or an unsubscribe is handed
      to the caller as a success. */
  lemma FailureIsReportedAsSuccess(o: Options, s: State, i: Input, c: nat)
    requires Inv(o, s) && Hears(s, i) && i.event.Inbound? && !i.event.resp.hasSubscribe
    requires !i.event.resp.success && i.event.resp.code == Ok && i.event.resp.requestId in s.table.rpcs
    requires var j := s.table.rpcs[i.event.resp.requestId]; j == User(c, Invoke) || (j.Unsub? && j.call == c)
    ensures c < |s.table.calls| && s.table.calls[c] == []
    ensures Step(o, s, i).table.calls == s.table.calls[c := [Outcome(true, Ok)]]
  {
    ClockKeeps(o, s, i.elapsed);
    ResponseEarns(o, Tick(s, i.elapsed), i, c);
    InboundStep(o, s, i);
  }

  function Failing(rid: nat): Response {
    Response(rid, false, Ok, false, false, Ok, false, false, NoReason, 0)
  }

  /** A run in which that happens: connect, make a task call, and have it answered so. */
  function FailedTask(): seq<Input> {
    LosingTwice()[..2] + [Plain(Call(Invoke)), Plain(Inbound(Failing(2)))]
  }

  lemma TaskCalled(o: Options, s: State) returns (r: State)
    requires At(s, Ready, 1, 2, map[], false) && s.wire.up && s.table.calls == []
    ensures r == Step(o, s, Plain(Call(Invoke)))
    ensures At(r, Ready, 1, 3, map[2 := User(0, Invoke)], false) && r.table.calls == [[]]
  {
    var i := Plain(Call(Invoke));
    assert Lists(i.order, s.subs.active);
    r := Step(o, s, i);
    assert r == OnCall(Tick(s, 0), Invoke, i.accepts);
  }

  lemma FailedTaskSucceeds(o: Options)
    ensures Run(o, FailedTask()).fault == NoFault && Run(o, FailedTask()).table.calls == [[Outcome(true, Ok)]]
  {
    var s := GreetRun(o);
    var s1 := TaskCalled(o, s);
    RunKeeps(o, LosingTwice()[..2]);
    StepKeeps(o, s, Plain(Call(Invoke)));
    TaskAnswered(o, s1);
    TwoMore(o, LosingTwice()[..2], Plain(Call(Invoke)), Plain(Inbound(Failing(2))));
  }

  lemma TaskAnswered(o: Options, s: State)
    requires Inv(o, s) && At(s, Ready, 1, 3, map[2 := User(0, Invoke)], false) && s.table.calls == [[]]
    ensures var r := Step(o, s, Plain(Inbound(Failing(2)))); r.fault == NoFault && r.table.calls == [[Outcome(true, Ok)]]
  {
    var i := Plain(Inbound(Failing(2)));
    assert Lists(i.order, s.subs.active);
    FailureIsReportedAsSuccess(o, s, i, 0);
    InboundStep(o, s, i);
  }

  /** Over a run: whoever is told that a call succeeded, some input of the run earned it. */
  lemma {:induction false} SuccessIsEarned(o: Options, ins: seq<Input>, c: nat, n: nat) returns (k: nat)
    requires c < |Run(o, ins).table.calls| && n < |Run(o, ins).table.calls[c]| && Run(o, ins).table.calls[c][n].ok
    ensures k < |ins| && Earns(Run(o, ins[..k]), ins[k], c)
  {
    var m := |ins| - 1;
    var before := Run(o, ins[..m]);
    if c < |before.table.calls| && n < |before.table.calls[c]| && before.table.calls[c][n].ok {
      k := SuccessIsEarned(o, ins[..m], c, n);
      assert ins[..m][..k] == ins[..k];
    } else {
      RunLogged(o, ins[..m]);
      StepOnward(o, before, ins[m]);
      assert Gains(before.table.calls, Run(o, ins).table.calls, c);
      StepGains(o, before, ins[m], c);
      k := m;
    }
  }
}
