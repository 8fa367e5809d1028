/** What the control thread remembers across connections: the acknowledged stop, the requests
    answered with success, and the time of the last inbound message; and what alone changes it. */
module EngineMemory {
  import opened Types
  import opened Stream
  import opened Engine
  import Heartbeat

  /** The input is an inbound message that a step acts on. */
  predicate Hears(s: State, i: Input) {
    && s.fault == NoFault && s.wire.conn > 0 && Lists(i.order, s.subs.active)
    && (i.event.Inbound? || i.event.Pushed?)
  }

  /** The input answers request rid of the table with success. */
  predicate Confirms(s: State, i: Input, rid: nat) {
    && Hears(s, i) && i.event.Inbound? && !i.event.resp.hasSubscribe && Succeeds(i.event.resp)
    && i.event.resp.requestId == rid && rid in s.table.rpcs
  }

  /** The input acknowledges a user's emergency_stop(engage). */
  predicate AcksStop(s: State, i: Input, engage: bool) {
    i.event.Inbound? && Confirms(s, i, i.event.resp.requestId)
    && var j := s.table.rpcs[i.event.resp.requestId]; j.User? && j.op == EStop(engage)
  }

  /** What every handler leaves alone unless it handles a response. */
  predicate Remembers(s: State, s': State) {
    s'.engaged == s.engaged && s'.wire.okd == s.wire.okd && s'.hb.lastInbound == s.hb.lastInbound
  }

  lemma CloseRemembers(o: Options, s: State, reason: ErrorCode)
    ensures Remembers(s, OnTransportClose(o, s, reason)) && Remembers(s, AbortToFatal(s, reason))
  {
  }

  lemma EstablishRemembers(o: Options, s: State, reconnect: bool, dial: Dial, accepts: nat -> bool)
    ensures Remembers(s, EstablishConnection(o, s, reconnect, dial, accepts))
  {
  }

  lemma SendRemembers(o: Options, s: State, t: string, since: nat, accepts: nat -> bool)
    requires t in s.subs.active
    ensures Remembers(s, SendSubscribe(o, s, t, since, accepts))
  {
  }

  lemma {:induction false} WalkRemembers(o: Options, s: State, ts: seq<string>, accepts: nat -> bool)
    ensures Remembers(s, Resubscribe(o, s, ts, accepts))
    decreases |ts|
  {
    if ts != [] && s.fault == NoFault && ts[0] in s.subs.active {
      var s1 := ResubscribeOne(o, s, ts[0], accepts);
      SendRemembers(o, Readied(s, ts[0]), ts[0], ResumeFrom(o, s.subs.active[ts[0]].slot), accepts);
      assert Remembers(s, Trampled(s1));
      WalkRemembers(o, Trampled(s1), ts[1..], accepts);
    }
  }

  lemma {:induction false} WaitingRemembers(o: Options, s: State, ts: seq<string>, accepts: nat -> bool)
    ensures Remembers(s, SubscribeWaiting(o, s, ts, accepts))
    decreases |ts|
  {
    if ts != [] && s.fault == NoFault && ts[0] in s.subs.active {
      var slot := s.subs.active[ts[0]].slot;
      var s1 := if slot.state == Pending && slot.inflight == 0 then SendSubscribe(o, s, ts[0], 0, accepts) else s;
      SendRemembers(o, s, ts[0], 0, accepts);
      assert Remembers(s, Trampled(s1));
      WaitingRemembers(o, Trampled(s1), ts[1..], accepts);
    }
  }

  lemma AckFailedRemembers(o: Options, s: State, t: string, code: ErrorCode)
    requires t in s.subs.active
    ensures Remembers(s, AckFailed(o, s, t, code))
  {
    CloseRemembers(o, s, code);
  }

  lemma AckRejectedRemembers(o: Options, s: State, t: string, reject: RejectReason, accepts: nat -> bool)
    requires t in s.subs.active
    ensures Remembers(s, AckRejected(o, s, t, reject, accepts))
  {
    SendRemembers(o, s.(subs := WithSlot(s.subs, t, Fallback(s.subs.active[t].slot))), t, 0, accepts);
  }

  lemma AckRemembers(o: Options, s: State, resp: Response, accepts: nat -> bool)
    ensures Remembers(s, HandleSubscribeAck(o, s, resp, accepts))
  {
    if resp.requestId in s.subs.req && s.subs.req[resp.requestId] in s.subs.active {
      var s1, t := Matched(s, resp.requestId), s.subs.req[resp.requestId];
      if !resp.success {
        AckFailedRemembers(o, s1, t, resp.code);
      } else if !resp.accepted {
        AckRejectedRemembers(o, s1, t, resp.reject, accepts);
      }
    }
  }

  lemma UserRemembers(o: Options, s: State, i: Input)
    ensures Remembers(s, HandleUser(o, s, i))
  {
    match i.event
    case Connect(dial) => EstablishRemembers(o, s, false, dial, i.accepts);
    case Subscribe(t, semantics, _) =>
      var s1 := s.(subs := s.subs.(active := s.subs.active[t := Entry(NewSlot(semantics, o.policy, o.queueSize), false, 0, 0)]));
      SendRemembers(o, s1, t, 0, i.accepts);
    case _ =>
  }

  lemma SendHeartbeatRemembers(o: Options, s: State, accepts: nat -> bool)
    ensures Remembers(s, SendHeartbeat(o, s, accepts))
  {
  }

  lemma HeartbeatRemembers(o: Options, s: State, open: bool, accepts: nat -> bool)
    ensures Remembers(s, OnIdleTimer(o, s, open, accepts)) && Remembers(s, OnPingDeadline(o, s, open, accepts))
  {
    SendHeartbeatRemembers(o, s.(hb := Heartbeat.OnIdle(o.heartbeat, s.hb, s.clock, s.wire.up && open).0), accepts);
    var s1 := s.(hb := Heartbeat.OnDeadline(o.heartbeat, s.hb, s.clock, s.wire.up && open).0);
    SendHeartbeatRemembers(o, s1, accepts);
    CloseRemembers(o, s1, TransportFailure);
  }

  lemma RpcTimeoutRemembers(o: Options, s: State, rid: nat)
    ensures Remembers(s, OnRpcTimeout(o, s, rid))
  {
    CloseRemembers(o, s.(table := s.table.(rpcs := s.table.rpcs - {rid}), barrier := s.barrier.(estop := false)), Timeout);
  }

  lemma RetryRemembers(o: Options, s: State, dial: Dial, accepts: nat -> bool)
    ensures Remembers(s, OnRetryTimer(o, s, dial, accepts))
  {
    if s.link.retry.Some? {
      var s1 := s.(link := Enter(s.link.(attempt := s.link.retry.value, retry := None), Reconnecting));
      EstablishRemembers(o, s1, true, dial, accepts);
    }
  }

  lemma TimerRemembers(o: Options, s: State, i: Input)
    ensures Remembers(s, HandleTimer(o, s, i))
  {
    match i.event
    case RpcTimeout(rid) => RpcTimeoutRemembers(o, s, rid);
    case AckTimeout(_, _) => CloseRemembers(o, s, Timeout);
    case RetryTimer(dial) => RetryRemembers(o, s, dial, i.accepts);
    case IdleTimer => HeartbeatRemembers(o, s, i.open, i.accepts);
    case PingDeadline => HeartbeatRemembers(o, s, i.open, i.accepts);
    case _ =>
  }

  lemma HandshakeRemembers(o: Options, s: State, reconnect: bool, resp: Response, accepts: nat -> bool, order: seq<string>)
    requires s.hb.lastInbound == s.clock
    ensures Remembers(s, CompleteHandshake(o, s, reconnect, resp, accepts, order))
  {
    if resp.success && resp.hasHandshake {
      var s1 := s.(hb := Heartbeat.Start(o.heartbeat, s.hb, s.clock), wire := s.wire.(greeted := true));
      if !reconnect {
        WaitingRemembers(o, s1.(link := Enter(s.link, Ready)), order, accepts);
      } else {
        var s2 := s1.(barrier := Barrier(|s.subs.active|, s.engaged, 0));
        WalkRemembers(o, s2, order, accepts);
        ReplayRemembers(o, Resubscribe(o, s2, order, accepts), accepts);
      }
    }
  }

  lemma ReplayRemembers(o: Options, s: State, accepts: nat -> bool)
    ensures Remembers(s, DoEStopReplay(o, s, accepts))
  {
  }

  /** The state in which a response of the table is acted on. */
  function Taken(s: State, resp: Response): State {
    s.(table := s.table.(rpcs := s.table.rpcs - {resp.requestId}),
       wire := if Succeeds(resp) then s.wire.(okd := s.wire.okd + {resp.requestId}) else s.wire)
  }

  /** Only a user's stop moves the acknowledged stop. */
  lemma ResponseRemembers(o: Options, s: State, resp: Response, accepts: nat -> bool, order: seq<string>)
    requires s.hb.lastInbound == s.clock && !resp.hasSubscribe && resp.requestId in s.table.rpcs
    ensures var j, s' := s.table.rpcs[resp.requestId], HandleResponse(o, s, resp, accepts, order);
      if j.User? && j.op.EStop? && Succeeds(resp)
      then Remembers(Taken(s, resp).(engaged := j.op.engage), s') else Remembers(Taken(s, resp), s')
  {
    var s1 := Taken(s, resp);
    match s.table.rpcs[resp.requestId]
    case Handshake(reconnect) => HandshakeRemembers(o, s1, reconnect, resp, accepts, order);
    case Replay =>
      CloseRemembers(o, s1.(barrier := s.barrier.(estop := false)), if resp.success then resp.rpcCode else resp.code);
    case _ =>
  }

  lemma SocketRemembers(o: Options, s: State, i: Input)
    requires s.fault == NoFault && Lists(i.order, s.subs.active) && FromSocket(i.event)
    ensures Recalls(s, i, HandleSocket(o, s, i)) && (Hears(s, i) ==> HandleSocket(o, s, i).hb.lastInbound == s.clock)
  {
    if i.event.TransportClosed? {
      CloseRemembers(o, s, if i.event.clean then Cancelled else TransportFailure);
    } else if i.event.Inbound? && s.wire.conn > 0 {
      var s1 := Noted(s);
      if i.event.resp.hasSubscribe {
        AckRemembers(o, s1, i.event.resp, i.accepts);
      } else if i.event.resp.requestId in s.table.rpcs {
        ResponseRemembers(o, s1, i.event.resp, i.accepts, i.order);
      }
    }
  }

  /** The memory after an input. */
  predicate Recalls(s: State, i: Input, s': State) {
    && s'.engaged == (if AcksStop(s, i, true) then true else if AcksStop(s, i, false) then false else s.engaged)
    && s'.wire.okd == s.wire.okd + (if i.event.Inbound? && Confirms(s, i, i.event.resp.requestId) then {i.event.resp.requestId} else {})
    && (!Hears(s, i) ==> s'.hb.lastInbound == s.hb.lastInbound)
  }

  /** One step: the stop moves exactly with an acknowledged request for it, a request counts as
      confirmed exactly when it is answered with success, and the last sign of life is the clock
      reading of the last inbound message. */
  lemma StepRemembers(o: Options, s: State, i: Input)
    ensures var s' := Step(o, s, i);
      Recalls(s, i, s') && (Hears(s, i) ==> s'.hb.lastInbound == s.clock + i.elapsed)
  {
    if s.fault == NoFault && Lists(i.order, s.subs.active) {
      var s1 := Tick(s, i.elapsed);
      if FromUser(i.event) {
        UserRemembers(o, s1, i);
      } else if FromSocket(i.event) {
        SocketRemembers(o, s1, i);
      } else {
        TimerRemembers(o, s1, i);
      }
    }
  }

  // ------------------------------------------------------------------------------------------
  // Over a run.

  /** What the last acknowledged stop request of a run asked for. */
  ghost function LastIntent(o: Options, ins: seq<Input>): bool {
    if ins == [] then false
    else
      var k := |ins| - 1;
      if AcksStop(Run(o, ins[..k]), ins[k], true) then true
      else if AcksStop(Run(o, ins[..k]), ins[k], false) then false
      else LastIntent(o, ins[..k])
  }

  /** The clock reading at the last inbound message of a run. */
  function LastHeard(o: Options, ins: seq<Input>): int {
    if ins == [] then 0
    else
      var k := |ins| - 1;
      if Hears(Run(o, ins[..k]), ins[k]) then Run(o, ins[..k]).clock + ins[k].elapsed else LastHeard(o, ins[..k])
  }

  lemma {:induction false} RunRemembers(o: Options, ins: seq<Input>)
    ensures Run(o, ins).engaged == LastIntent(o, ins)
    ensures Run(o, ins).hb.lastInbound == LastHeard(o, ins)
  {
    if ins != [] {
      var k := |ins| - 1;
      RunRemembers(o, ins[..k]);
      StepRemembers(o, Run(o, ins[..k]), ins[k]);
    }
  }
}
