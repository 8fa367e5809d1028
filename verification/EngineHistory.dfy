/** No step rewrites history: the trace, the promises, the request log and the notes of every
    subscription only grow. */
module EngineHistory {
  import opened Types
  import opened Stream
  import opened Engine
  import opened EngineInvariant
  import Heartbeat

  predicate CallsGrow(a: seq<seq<Outcome>>, b: seq<seq<Outcome>>) {
    |a| <= |b| && forall c :: 0 <= c < |a| ==> a[c] <= b[c]
  }

  predicate WireGrows(w: Wire, w': Wire) {
    && Below(w'.sent, w'.nextId) && w.nextId <= w'.nextId && w.conn <= w'.conn && w.okd <= w'.okd
    && forall rid :: rid in w.sent ==> rid in w'.sent && w'.sent[rid] == w.sent[rid]
  }

  /** Subscription t of a is still there, or has left the table closed, its notes extended. */
  ghost predicate GoesOn(slot: Slot, t: string, b: Subs) {
    || (t in b.active && slot.log <= b.active[t].slot.log)
    || (exists r :: r in b.retired && r.state == Closed && slot.log < r.log)
  }

  ghost predicate SubsGrow(a: Subs, b: Subs) {
    && a.retired <= b.retired
    && forall t :: t in a.active ==> GoesOn(a.active[t].slot, t, b)
  }

  ghost predicate Onward(s: State, s': State) {
    && s.link.trace <= s'.link.trace
    && CallsGrow(s.table.calls, s'.table.calls)
    && WireGrows(s.wire, s'.wire)
    && SubsGrow(s.subs, s'.subs)
  }

  predicate Logged(s: State) {
    0 < s.wire.nextId && Below(s.wire.sent, s.wire.nextId)
  }

  lemma SubsGrowChain(a: Subs, b: Subs, c: Subs)
    requires SubsGrow(a, b) && SubsGrow(b, c)
    ensures SubsGrow(a, c)
  {
    forall t | t in a.active ensures GoesOn(a.active[t].slot, t, c) {
      if t in b.active && a.active[t].slot.log <= b.active[t].slot.log {
        assert GoesOn(b.active[t].slot, t, c);
        if !(t in c.active && b.active[t].slot.log <= c.active[t].slot.log) {
          var r :| r in c.retired && r.state == Closed && b.active[t].slot.log < r.log;
          assert a.active[t].slot.log < r.log;
        }
      } else {
        var r :| r in b.retired && r.state == Closed && a.active[t].slot.log < r.log;
        assert r in c.retired;
      }
    }
  }

  lemma Chain(s: State, s1: State, s2: State)
    requires Onward(s, s1) && Onward(s1, s2)
    ensures Onward(s, s2)
  {
    SubsGrowChain(s.subs, s1.subs, s2.subs);
    forall c | 0 <= c < |s.table.calls| ensures s.table.calls[c] <= s2.table.calls[c] {
      assert s1.table.calls[c] <= s2.table.calls[c];
    }
  }

  // ------------------------------------------------------------------------------------------
  // The pieces.

  lemma RetireGrows(m: Subs, t: string, error: ErrorCode, reason: ErrorCode)
    requires t in m.active
    ensures SubsGrow(m, Retire(m, t, error, reason))
  {
    var r := Shut(m.active[t].slot, error, reason);
    assert r in Retire(m, t, error, reason).retired;
  }

  lemma SlotGrows(m: Subs, t: string, slot: Slot)
    requires t in m.active && m.active[t].slot.log <= slot.log
    ensures SubsGrow(m, WithSlot(m, t, slot))
  {
  }

  lemma PauseAllGrows(m: Subs, reason: ErrorCode)
    ensures SubsGrow(m, PauseAll(m, reason))
  {
  }

  lemma ShutAllGrows(m: Subs, code: ErrorCode)
    ensures SubsGrow(m, ShutAll(m, code))
  {
    forall t | t in m.active ensures GoesOn(m.active[t].slot, t, ShutAll(m, code)) {
      assert Shut(m.active[t].slot, code, code) in ShutAll(m, code).retired;
    }
  }

  lemma {:induction false} DrainExtends(s: Slot, next: nat)
    ensures s.log <= Drain(s, next).log
    decreases |s.buffer|
  {
    if s.buffer != [] {
      var p, s1 := s.buffer[0], s.(buffer := s.buffer[1..]);
      DrainExtends(if Stale(s.semantics, p, next) then s1.(drops := s.drops + 1) else Deliver(s1, p), next);
    }
  }

  lemma AbortOnward(s: State, code: ErrorCode)
    requires Logged(s)
    ensures Onward(s, AbortToFatal(s, code))
  {
    ShutAllGrows(s.subs, code);
  }

  lemma ReconnectOnward(o: Options, s: State, attempt: nat)
    requires Logged(s) && attempt >= 1
    ensures Onward(s, DoReconnect(o, s, attempt))
  {
    AbortOnward(s, TransportFailure);
  }

  lemma CloseOnward(o: Options, s: State, reason: ErrorCode)
    requires Logged(s)
    ensures Onward(s, OnTransportClose(o, s, reason))
  {
    if !Terminal(s.link.st) && !HasReplay(s.table.rpcs) {
      var d := TearDown(s, reason);
      PauseAllGrows(s.subs, reason);
      assert Onward(s, d);
      ReconnectOnward(o, d, s.link.attempt + 1);
      Chain(s, d, DoReconnect(o, d, s.link.attempt + 1));
    }
  }

  lemma FailConnectionOnward(o: Options, s: State, code: ErrorCode)
    requires Logged(s)
    ensures Onward(s, FailConnection(o, s, code)) && Onward(s, GiveUpConnection(o, s))
  {
    AbortOnward(s, code);
    var d := s.(wire := s.wire.(up := false), link := Enter(s.link, TransientFailure));
    assert Onward(s, d);
    ReconnectOnward(o, d, s.link.attempt + 1);
    Chain(s, d, GiveUpConnection(o, s));
  }

  lemma SendHandshakeOnward(o: Options, s: State, reconnect: bool, accepts: nat -> bool)
    requires Logged(s)
    ensures Onward(s, SendHandshake(o, s, reconnect, accepts))
  {
    if !Takes(s.wire, accepts) {
      var s1 := s.(wire := Take(s.wire, false, HandshakeReq));
      assert Onward(s, s1);
      FailConnectionOnward(o, s1, Ok);
      Chain(s, s1, GiveUpConnection(o, s1));
    }
  }

  lemma EstablishOnward(o: Options, s: State, reconnect: bool, dial: Dial, accepts: nat -> bool)
    requires Logged(s)
    ensures Onward(s, EstablishConnection(o, s, reconnect, dial, accepts))
  {
    var s0 := if reconnect then s else s.(link := Enter(s.link, Connecting));
    var r := EstablishConnection(o, s, reconnect, dial, accepts);
    match dial
    case Refused(code) =>
      FailConnectionOnward(o, s0, code);
      Chain(s, s0, r);
    case EncodeThrows(code) =>
      var s1 := s0.(wire := Take(NewSocket(s0.wire), false, HandshakeReq));
      assert Onward(s, s1);
      AbortOnward(s1, code);
      Chain(s, s1, r);
    case Up =>
      var s1 := s0.(wire := NewSocket(s0.wire));
      assert Onward(s, s1);
      SendHandshakeOnward(o, s1, reconnect, accepts);
      Chain(s, s1, r);
  }

  lemma SendOnward(o: Options, s: State, t: string, since: nat, accepts: nat -> bool)
    requires Logged(s) && t in s.subs.active
    ensures Onward(s, SendSubscribe(o, s, t, since, accepts))
  {
    if !Takes(s.wire, accepts) {
      var slot := BeginSubscribe(s.subs.active[t].slot, since, s.wire.nextId, s.link.st == Reconnecting);
      var mid := s.(wire := Take(s.wire, false, SubscribeReq(t, slot.expected)),
                    subs := WithSlot(s.subs, t, slot.(inflight := 0)));
      SlotGrows(s.subs, t, slot.(inflight := 0));
      assert Onward(s, mid);
      CloseOnward(o, mid, TransportFailure);
      Chain(s, mid, SendSubscribe(o, s, t, since, accepts));
    }
  }

  lemma {:induction false} WalkOnward(o: Options, s: State, ts: seq<string>, accepts: nat -> bool)
    requires Logged(s)
    ensures Onward(s, Resubscribe(o, s, ts, accepts))
    decreases |ts|
  {
    if ts != [] && s.fault == NoFault && ts[0] in s.subs.active {
      var s0, s1 := Readied(s, ts[0]), ResubscribeOne(o, s, ts[0], accepts);
      assert Onward(s, s0);
      SendOnward(o, s0, ts[0], ResumeFrom(o, s.subs.active[ts[0]].slot), accepts);
      Chain(s, s0, s1);
      assert Onward(s, Trampled(s1));
      WalkOnward(o, Trampled(s1), ts[1..], accepts);
      Chain(s, Trampled(s1), Resubscribe(o, s, ts, accepts));
    }
  }

  lemma {:induction false} WaitingOnward(o: Options, s: State, ts: seq<string>, accepts: nat -> bool)
    requires Logged(s)
    ensures Onward(s, SubscribeWaiting(o, s, ts, accepts))
    decreases |ts|
  {
    if ts != [] && s.fault == NoFault && ts[0] in s.subs.active {
      var slot := s.subs.active[ts[0]].slot;
      var s1 := if slot.state == Pending && slot.inflight == 0 then SendSubscribe(o, s, ts[0], 0, accepts) else s;
      SendOnward(o, s, ts[0], 0, accepts);
      assert Onward(s, Trampled(s1));
      WaitingOnward(o, Trampled(s1), ts[1..], accepts);
      Chain(s, Trampled(s1), SubscribeWaiting(o, s, ts, accepts));
    }
  }

  // ------------------------------------------------------------------------------------------
  // The handlers.

  /** Only subscriptions and the barrier change, the former onward. */
  lemma SubsOnward(s: State, m: Subs)
    requires Logged(s) && SubsGrow(s.subs, m)
    ensures Onward(s, FinishOne(s.(subs := m))) && Onward(s, s.(subs := m))
  {
  }

  lemma AckFailedOnward(o: Options, s: State, t: string, code: ErrorCode)
    requires Logged(s) && t in s.subs.active
    ensures Onward(s, AckFailed(o, s, t, code))
  {
    match Classify(code)
    case FatalCategory => AbortOnward(s, code);
    case Transient =>
      if s.link.st == Reconnecting {
        CloseOnward(o, s, code);
      } else {
        RetireGrows(s.subs, t, code, code);
        SubsOnward(s, Retire(s.subs, t, code, code));
      }
    case _ =>
      RetireGrows(s.subs, t, code, code);
      SubsOnward(s, Retire(s.subs, t, code, code));
  }

  lemma AckAcceptedOnward(s: State, t: string, next: nat)
    requires Logged(s) && t in s.subs.active
    ensures Onward(s, AckAccepted(s, t, next))
  {
    var slot := s.subs.active[t].slot;
    DrainExtends(Open(slot, next), if slot.semantics == Telemetry then 0 else next);
    SlotGrows(s.subs, t, Accept(slot, next));
    SubsOnward(s, WithSlot(s.subs, t, Accept(slot, next)));
  }

  lemma AckRejectedOnward(o: Options, s: State, t: string, reject: RejectReason, accepts: nat -> bool)
    requires Logged(s) && t in s.subs.active
    ensures Onward(s, AckRejected(o, s, t, reject, accepts))
  {
    var slot := s.subs.active[t].slot;
    var replay := slot.semantics == Event && (reject == HistoryTooOld || reject == ReplayNotSupported);
    if replay && !slot.retried {
      var s1 := s.(subs := WithSlot(s.subs, t, Fallback(slot)));
      SlotGrows(s.subs, t, Fallback(slot));
      SubsOnward(s, s1.subs);
      SendOnward(o, s1, t, 0, accepts);
      Chain(s, s1, SendSubscribe(o, s1, t, 0, accepts));
    } else {
      var err := if replay then InternalError else RejectToError(reject);
      RetireGrows(s.subs, t, err, err);
      SubsOnward(s, Retire(s.subs, t, err, err));
    }
  }

  lemma MatchedOnward(s: State, rid: nat)
    requires Logged(s) && rid in s.subs.req && s.subs.req[rid] in s.subs.active
    ensures Onward(s, Matched(s, rid)) && Logged(Matched(s, rid))
  {
  }

  lemma AckOnward(o: Options, s: State, resp: Response, accepts: nat -> bool)
    requires Logged(s)
    ensures Onward(s, HandleSubscribeAck(o, s, resp, accepts))
  {
    var rid := resp.requestId;
    if rid in s.subs.req && s.subs.req[rid] in s.subs.active && s.subs.active[s.subs.req[rid]].slot.inflight == rid {
      var s1, t := Matched(s, rid), s.subs.req[rid];
      MatchedOnward(s, rid);
      if !resp.success {
        AckFailedOnward(o, s1, t, resp.code);
      } else if resp.accepted {
        AckAcceptedOnward(s1, t, resp.nextSeq);
      } else {
        AckRejectedOnward(o, s1, t, resp.reject, accepts);
      }
      Chain(s, s1, HandleSubscribeAck(o, s, resp, accepts));
    }
  }

  lemma HandshakeOnward(o: Options, s: State, reconnect: bool, resp: Response, accepts: nat -> bool, order: seq<string>)
    requires Logged(s)
    ensures Onward(s, CompleteHandshake(o, s, reconnect, resp, accepts, order))
  {
    var r := CompleteHandshake(o, s, reconnect, resp, accepts, order);
    if !resp.success || !resp.hasHandshake {
      FailConnectionOnward(o, s, if resp.success then InternalError else resp.code);
    } else {
      var s1 := s.(hb := Heartbeat.Start(o.heartbeat, s.hb, s.clock), wire := s.wire.(greeted := true));
      if !reconnect {
        var s2 := s1.(link := Enter(s.link, Ready));
        assert Onward(s, s2);
        WaitingOnward(o, s2, order, accepts);
        Chain(s, s2, r);
      } else if |s.subs.active| > 0 || s.engaged {
        var s2 := s1.(barrier := Barrier(|s.subs.active|, s.engaged, 0));
        var s3 := Resubscribe(o, s2, order, accepts);
        assert Onward(s, s2);
        WalkOnward(o, s2, order, accepts);
        Chain(s, s2, s3);
        if s3.fault == NoFault && s3.barrier.estop {
          ReplayOnward(o, s3, accepts);
          Chain(s, s3, r);
        }
      }
    }
  }

  lemma ReplayOnward(o: Options, s: State, accepts: nat -> bool)
    requires Logged(s)
    ensures Onward(s, DoEStopReplay(o, s, accepts))
  {
    if !Takes(s.wire, accepts) {
      var s1 := s.(wire := Take(s.wire, false, EStopReq(true)), barrier := s.barrier.(estop := false));
      assert Onward(s, s1);
      CloseOnward(o, s1, TransportFailure);
      Chain(s, s1, DoEStopReplay(o, s, accepts));
    }
  }

  lemma ResponseOnward(o: Options, s: State, resp: Response, accepts: nat -> bool, order: seq<string>)
    requires Logged(s)
    ensures Onward(s, HandleResponse(o, s, resp, accepts, order))
  {
    if resp.hasSubscribe {
      AckOnward(o, s, resp, accepts);
    } else if resp.requestId in s.table.rpcs {
      var rid, r := resp.requestId, HandleResponse(o, s, resp, accepts, order);
      var s1 := s.(table := s.table.(rpcs := s.table.rpcs - {rid}),
                   wire := if Succeeds(resp) then s.wire.(okd := s.wire.okd + {rid}) else s.wire);
      assert Onward(s, s1);
      match s.table.rpcs[rid] {
        case Handshake(reconnect) => HandshakeOnward(o, s1, reconnect, resp, accepts, order);
        case Replay =>
          CloseOnward(o, s1.(barrier := s.barrier.(estop := false)), if resp.success then resp.rpcCode else resp.code);
        case User(_, _) =>
        case Unsub(c, t) => CompleteUnsubscribeOnward(s1, c, t, resp);
        case HeartbeatPing =>
      }
      Chain(s, s1, r);
    }
  }

  lemma CompleteUnsubscribeOnward(s: State, c: nat, t: string, resp: Response)
    requires Logged(s)
    ensures Onward(s, CompleteUnsubscribe(s, c, t, resp))
  {
    if t in s.subs.active {
      var code := if resp.success then Ok else resp.code;
      RetireGrows(s.subs, t, code, code);
    }
  }

  lemma SendHeartbeatOnward(o: Options, s: State, accepts: nat -> bool)
    requires Logged(s)
    ensures Onward(s, SendHeartbeat(o, s, accepts))
  {
    var s1 := s.(table := s.table.(rpcs := s.table.rpcs[s.wire.nextId := HeartbeatPing]),
                 wire := Take(s.wire, Takes(s.wire, accepts), PingReq));
    assert Onward(s, s1);
    CloseOnward(o, s1, TransportFailure);
    Chain(s, s1, OnTransportClose(o, s1, TransportFailure));
  }

  lemma SubscribeOnward(o: Options, s: State, t: string, semantics: Semantics, userClosed: bool, accepts: nat -> bool)
    requires Logged(s)
    ensures Onward(s, OnSubscribe(o, s, t, semantics, userClosed, accepts))
  {
    if t !in s.subs.active {
      var s1 := s.(subs := s.subs.(active := s.subs.active[t := Entry(NewSlot(semantics, o.policy, o.queueSize), false, 0, 0)]));
      SubsOnward(s, s1.subs);
      SendOnward(o, s1, t, 0, accepts);
      Chain(s, s1, SendSubscribe(o, s1, t, 0, accepts));
    }
  }

  lemma UnsubscribeAsyncOnward(s: State, t: string, open: bool, accepts: nat -> bool)
    requires Logged(s)
    ensures Onward(s, OnUnsubscribeAsync(s, t, open, accepts))
  {
    if t in s.subs.active { RetireGrows(s.subs, t, s.subs.active[t].slot.error, Ok); }
  }

  lemma UnsubscribeSyncOnward(s: State, t: string, open: bool, accepts: nat -> bool)
    requires Logged(s)
    ensures Onward(s, OnUnsubscribeSync(s, t, open, accepts))
  {
    if t in s.subs.active { RetireGrows(s.subs, t, Disconnected, Disconnected); }
  }

  lemma UserOnward(o: Options, s: State, i: Input)
    requires Logged(s)
    ensures Onward(s, HandleUser(o, s, i))
  {
    match i.event
    case Connect(dial) => EstablishOnward(o, s, false, dial, i.accepts);
    case Close => ShutAllGrows(s.subs, Cancelled);
    case Subscribe(t, semantics, userClosed) => SubscribeOnward(o, s, t, semantics, userClosed, i.accepts);
    case UnsubscribeAsync(t) => UnsubscribeAsyncOnward(s, t, i.open, i.accepts);
    case UnsubscribeSync(t) => UnsubscribeSyncOnward(s, t, i.open, i.accepts);
    case _ =>
  }

  lemma RpcTimeoutOnward(o: Options, s: State, rid: nat)
    requires Logged(s)
    ensures Onward(s, OnRpcTimeout(o, s, rid))
  {
    if rid in s.table.rpcs && s.table.rpcs[rid] == Replay {
      var s1 := s.(table := s.table.(rpcs := s.table.rpcs - {rid}), barrier := s.barrier.(estop := false));
      assert Onward(s, s1);
      CloseOnward(o, s1, Timeout);
      Chain(s, s1, OnTransportClose(o, s1, Timeout));
    }
  }

  lemma RetryOnward(o: Options, s: State, dial: Dial, accepts: nat -> bool)
    requires Logged(s)
    ensures Onward(s, OnRetryTimer(o, s, dial, accepts))
  {
    if s.link.retry.Some? {
      var s1 := s.(link := Enter(s.link.(attempt := s.link.retry.value, retry := None), Reconnecting));
      assert Onward(s, s1);
      EstablishOnward(o, s1, true, dial, accepts);
      Chain(s, s1, EstablishConnection(o, s1, true, dial, accepts));
    }
  }

  lemma IdleOnward(o: Options, s: State, open: bool, accepts: nat -> bool)
    requires Logged(s)
    ensures Onward(s, OnIdleTimer(o, s, open, accepts))
  {
    SendHeartbeatOnward(o, s.(hb := Heartbeat.OnIdle(o.heartbeat, s.hb, s.clock, s.wire.up && open).0), accepts);
  }

  lemma DeadlineOnward(o: Options, s: State, open: bool, accepts: nat -> bool)
    requires Logged(s)
    ensures Onward(s, OnPingDeadline(o, s, open, accepts))
  {
    var s1 := s.(hb := Heartbeat.OnDeadline(o.heartbeat, s.hb, s.clock, s.wire.up && open).0);
    SendHeartbeatOnward(o, s1, accepts);
    CloseOnward(o, s1, TransportFailure);
  }

  lemma TimerOnward(o: Options, s: State, i: Input)
    requires Logged(s)
    ensures Onward(s, HandleTimer(o, s, i))
  {
    match i.event
    case RpcTimeout(rid) => RpcTimeoutOnward(o, s, rid);
    case AckTimeout(_, _) => CloseOnward(o, s, Timeout);
    case RetryTimer(dial) => RetryOnward(o, s, dial, i.accepts);
    case IdleTimer => IdleOnward(o, s, i.open, i.accepts);
    case PingDeadline => DeadlineOnward(o, s, i.open, i.accepts);
    case _ =>
  }

  lemma PushOnward(s: State, t: string, p: Push)
    requires Logged(s)
    ensures Onward(s, HandlePush(s, t, p))
  {
    if t in s.subs.active {
      SlotGrows(s.subs, t, OnPush(s.subs.active[t].slot, p));
      SubsOnward(s, WithSlot(s.subs, t, OnPush(s.subs.active[t].slot, p)));
    }
  }

  lemma SocketOnward(o: Options, s: State, i: Input)
    requires Logged(s)
    ensures Onward(s, HandleSocket(o, s, i))
  {
    match i.event
    case Inbound(resp) => ResponseOnward(o, Noted(s), resp, i.accepts, i.order);
    case Pushed(t, p) => PushOnward(Noted(s), t, p);
    case TransportClosed(clean) => CloseOnward(o, s, if clean then Cancelled else TransportFailure);
    case _ =>
  }

  /** One step only adds to the history. */
  lemma StepOnward(o: Options, s: State, i: Input)
    requires Logged(s)
    ensures Onward(s, Step(o, s, i))
  {
    if s.fault == NoFault && Lists(i.order, s.subs.active) {
      var s1 := Tick(s, i.elapsed);
      if FromUser(i.event) {
        UserOnward(o, s1, i);
      } else if FromSocket(i.event) {
        SocketOnward(o, s1, i);
      } else {
        TimerOnward(o, s1, i);
      }
    }
  }
}
