/** Subscriptions made after a reconnect handshake and before Ready are never sent. */
module EngineNewcomers {
  import opened Types
  import opened Stream
  import opened Engine
  import opened EngineInvariant
  import opened EngineKernel
  import opened EngineSubscriptions
  import opened EngineSteps
  import opened EngineBarrier
  import opened EngineMemory
  import Heartbeat

  /** No fault, and the connection of s is still in use. */
  predicate Reaches(s: State, s': State) {
    s'.fault == NoFault && s'.wire.conn == s.wire.conn && (s'.link.st == Ready || s'.link.st == Reconnecting)
  }

  /** On the connection of s, subscription t has still not been requested. */
  ghost predicate StillUnsent(s: State, s': State, t: string) {
    Reaches(s, s') && t in s'.subs.active ==> Fresh(s'.subs.active[t])
  }

  lemma LostUnsent(o: Options, s: State, r: State, t: string, reason: ErrorCode)
    requires Core(o, r) && Alive(r)
    ensures StillUnsent(s, OnTransportClose(o, r, reason), t)
  {
    CloseMoves(o, r, reason);
  }

  /** Sending another subscription leaves t as it is. */
  lemma OtherSendUnsent(o: Options, s: State, u: string, t: string, accepts: nat -> bool)
    requires Between(o, s, u) && Sendable(s.wire, s.subs.active[u], 0)
    requires u != t && (t in s.subs.active ==> Fresh(s.subs.active[t]))
    ensures StillUnsent(s, SendSubscribe(o, s, u, 0, accepts), t)
  {
    if Takes(s.wire, accepts) {
      TakenSend(o, s, u, 0, accepts);
    } else {
      RefusedAdvances(o, s, u, accepts);
    }
  }

  lemma FinishedUnsent(s: State, s1: State, t: string)
    requires t in s1.subs.active ==> Fresh(s1.subs.active[t])
    ensures StillUnsent(s, FinishOne(s1), t)
  {
  }

  lemma AckFailedUnsent(o: Options, s: State, u: string, t: string, code: ErrorCode)
    requires Answering(o, s, u) && u != t && (t in s.subs.active ==> Fresh(s.subs.active[t]))
    ensures StillUnsent(s, AckFailed(o, s, u, code), t)
  {
    if Classify(code) == FatalCategory {
      AbortKeeps(o, s, code);
    } else if Classify(code) == Transient && s.link.st == Reconnecting {
      LostUnsent(o, s, s, t, code);
    } else {
      FinishedUnsent(s, s.(subs := Retire(s.subs, u, code, code)), t);
    }
  }

  lemma AckRejectedUnsent(o: Options, s: State, u: string, t: string, reject: RejectReason, accepts: nat -> bool)
    requires Answering(o, s, u) && u != t && (t in s.subs.active ==> Fresh(s.subs.active[t]))
    ensures StillUnsent(s, AckRejected(o, s, u, reject, accepts), t)
  {
    var slot := s.subs.active[u].slot;
    if slot.semantics == Event && (reject == HistoryTooOld || reject == ReplayNotSupported) {
      if slot.retried {
        FinishedUnsent(s, s.(subs := Retire(s.subs, u, InternalError, InternalError)), t);
      } else {
        FallbackKept(o, s, u);
        OtherSendUnsent(o, s.(subs := WithSlot(s.subs, u, Fallback(slot))), u, t, accepts);
      }
    } else {
      FinishedUnsent(s, s.(subs := Retire(s.subs, u, RejectToError(reject), RejectToError(reject))), t);
    }
  }

  lemma AckUnsent(o: Options, s: State, resp: Response, t: string, accepts: nat -> bool)
    requires Inv(o, s) && s.fault == NoFault && Serving(s) && t in s.subs.active && Fresh(s.subs.active[t])
    ensures StillUnsent(s, HandleSubscribeAck(o, s, resp, accepts), t)
  {
    var rid := resp.requestId;
    if rid in s.subs.req && s.subs.req[rid] in s.subs.active && s.subs.active[s.subs.req[rid]].slot.inflight == rid {
      var u, s1 := s.subs.req[rid], Matched(s, rid);
      MatchedAckKeeps(o, s, rid);
      if !resp.success {
        AckFailedUnsent(o, s1, u, t, resp.code);
      } else if resp.accepted {
        FinishedUnsent(s, s1.(subs := WithSlot(s1.subs, u, Accept(s1.subs.active[u].slot, resp.nextSeq))), t);
      } else {
        AckRejectedUnsent(o, s1, u, t, resp.reject, accepts);
      }
      assert StillUnsent(s1, HandleSubscribeAck(o, s, resp, accepts), t);
    }
  }

  lemma CompletionUnsent(s: State, s1: State, j: Job, resp: Response, t: string)
    requires s1.subs == s.subs && t in s.subs.active && Fresh(s.subs.active[t])
    ensures j.User? ==> StillUnsent(s, CompleteCall(s1, j.call, j.op, resp), t)
    ensures j.Unsub? ==> StillUnsent(s, CompleteUnsubscribe(s1, j.call, j.topic, resp), t)
  {
  }

  lemma ReplayUnsent(o: Options, s: State, rid: nat, resp: Response, t: string)
    requires Inv(o, s) && s.fault == NoFault && AtBarrier(s) && t in s.subs.active && Fresh(s.subs.active[t])
    requires rid in s.table.rpcs && resp.requestId == rid
    ensures StillUnsent(s, CompleteReplay(o, Taken(s, resp), resp), t)
  {
    ReplayMoves(o, s, rid, resp);
  }

  lemma ReplyUnsent(o: Options, s: State, resp: Response, t: string, accepts: nat -> bool, order: seq<string>)
    requires Inv(o, s) && s.fault == NoFault && Serving(s) && t in s.subs.active && Fresh(s.subs.active[t])
    ensures StillUnsent(s, HandleResponse(o, s, resp, accepts, order), t)
  {
    if resp.hasSubscribe {
      AckUnsent(o, s, resp, t, accepts);
    } else if resp.requestId in s.table.rpcs {
      var j := s.table.rpcs[resp.requestId];
      if j == Replay {
        ReplayUnsent(o, s, resp.requestId, resp, t);
      } else {
        assert !j.Handshake?;
        CompletionUnsent(s, Taken(s, resp), j, resp, t);
      }
    }
  }

  lemma SubscribeUnsent(o: Options, s: State, u: string, semantics: Semantics, userClosed: bool, t: string, accepts: nat -> bool)
    requires Inv(o, s) && s.fault == NoFault && Serving(s) && t in s.subs.active && Fresh(s.subs.active[t])
    ensures StillUnsent(s, OnSubscribe(o, s, u, semantics, userClosed, accepts), t)
  {
    if !userClosed && u !in s.subs.active && s.link.st == Ready {
      var s1 := s.(subs := s.subs.(active := s.subs.active[u := Entry(NewSlot(semantics, o.policy, o.queueSize), false, 0, 0)]));
      NewEntryKeeps(o, s, u, semantics);
      OtherSendUnsent(o, s1, u, t, accepts);
    }
  }

  lemma UnsubscribeUnsent(s: State, u: string, open: bool, t: string, accepts: nat -> bool)
    requires t in s.subs.active && Fresh(s.subs.active[t])
    ensures StillUnsent(s, OnUnsubscribeAsync(s, u, open, accepts), t)
    ensures StillUnsent(s, OnUnsubscribeSync(s, u, open, accepts), t)
  {
  }

  lemma UserUnsent(o: Options, s: State, i: Input, t: string)
    requires Inv(o, s) && s.fault == NoFault && Serving(s) && t in s.subs.active && Fresh(s.subs.active[t])
    ensures StillUnsent(s, HandleUser(o, s, i), t)
  {
    match i.event
    case Subscribe(u, semantics, userClosed) => SubscribeUnsent(o, s, u, semantics, userClosed, t, i.accepts);
    case UnsubscribeAsync(u) => UnsubscribeUnsent(s, u, i.open, t, i.accepts);
    case UnsubscribeSync(u) => UnsubscribeUnsent(s, u, i.open, t, i.accepts);
    case _ =>
  }

  lemma SendHeartbeatUnsent(o: Options, s: State, s1: State, t: string, accepts: nat -> bool)
    requires Inv(o, s1) && s1.link.st == Ready && s1.wire == s.wire && s1.subs == s.subs
    requires t in s.subs.active && Fresh(s.subs.active[t])
    ensures StillUnsent(s, SendHeartbeat(o, s1, accepts), t)
  {
    if !Takes(s1.wire, accepts) {
      SendHeartbeatKeeps(o, s1, accepts);
      var s2 := s1.(table := s1.table.(rpcs := s1.table.rpcs[s1.wire.nextId := HeartbeatPing]),
                    wire := Take(s1.wire, false, PingReq));
      TakeKeeps(o, s1, false, PingReq);
      AddSilentEntry(s1.table, s1.wire.nextId, HeartbeatPing);
      LostUnsent(o, s, s2, t, TransportFailure);
    }
  }

  lemma IdleUnsent(o: Options, s: State, i: Input, t: string)
    requires Inv(o, s) && s.fault == NoFault && Serving(s) && t in s.subs.active && Fresh(s.subs.active[t])
    ensures StillUnsent(s, OnIdleTimer(o, s, i.open, i.accepts), t)
  {
    var h := Heartbeat.OnIdle(o.heartbeat, s.hb, s.clock, s.wire.up && i.open).0;
    Heartbeat.StepsAreSound(o.heartbeat, s.hb, s.clock, s.wire.up && i.open);
    HeartbeatChangeKeeps(o, s, h);
    if s.link.st == Ready { SendHeartbeatUnsent(o, s, s.(hb := h), t, i.accepts); }
  }

  lemma DeadlineUnsent(o: Options, s: State, i: Input, t: string)
    requires Inv(o, s) && s.fault == NoFault && Serving(s) && t in s.subs.active && Fresh(s.subs.active[t])
    ensures StillUnsent(s, OnPingDeadline(o, s, i.open, i.accepts), t)
  {
    if s.hb.deadline.Some? && s.hb.deadline.value <= s.clock && s.link.st == Ready {
      var (h, ask) := Heartbeat.OnDeadline(o.heartbeat, s.hb, s.clock, s.wire.up && i.open);
      Heartbeat.StepsAreSound(o.heartbeat, s.hb, s.clock, s.wire.up && i.open);
      HeartbeatChangeKeeps(o, s, h);
      match ask
      case DeclareDead => LostUnsent(o, s, s.(hb := h), t, TransportFailure);
      case SendPing => SendHeartbeatUnsent(o, s, s.(hb := h), t, i.accepts);
      case Nothing =>
    }
  }

  lemma TimerUnsent(o: Options, s: State, i: Input, t: string)
    requires Inv(o, s) && s.fault == NoFault && Serving(s) && t in s.subs.active && Fresh(s.subs.active[t])
    ensures StillUnsent(s, HandleTimer(o, s, i), t)
  {
    match i.event
    case RpcTimeout(rid) =>
      if rid in s.table.rpcs && s.table.rpcs[rid] == Replay {
        SilentEntry(s.table, rid);
        LostUnsent(o, s, s.(table := s.table.(rpcs := s.table.rpcs - {rid}), barrier := s.barrier.(estop := false)), t, Timeout);
      }
    case AckTimeout(_, _) => LostUnsent(o, s, s, t, Timeout);
    case IdleTimer => IdleUnsent(o, s, i, t);
    case PingDeadline => DeadlineUnsent(o, s, i, t);
    case _ =>
  }

  lemma SocketUnsent(o: Options, s: State, i: Input, t: string)
    requires Inv(o, s) && s.fault == NoFault && Serving(s) && t in s.subs.active && Fresh(s.subs.active[t])
    ensures StillUnsent(s, HandleSocket(o, s, i), t)
  {
    match i.event
    case Inbound(resp) =>
      NotedKeeps(o, s);
      ReplyUnsent(o, Noted(s), resp, t, i.accepts, i.order);
    case Pushed(u, p) => if u in s.subs.active { OnPushFrame(s.subs.active[u].slot, p); }
    case TransportClosed(clean) => LostUnsent(o, s, s, t, if clean then Cancelled else TransportFailure);
    case _ =>
  }

  /** A subscription made after the reconnect handshake and before Ready is never requested on
      that connection, neither in the barrier nor in Ready: no step sends it. */
  lemma NewcomerStaysUnsent(o: Options, s: State, i: Input, t: string)
    requires Inv(o, s) && s.fault == NoFault && Serving(s) && t in s.subs.active && Fresh(s.subs.active[t])
    ensures StillUnsent(s, Step(o, s, i), t)
  {
    if Lists(i.order, s.subs.active) {
      var s1 := Tick(s, i.elapsed);
      ClockKeeps(o, s, i.elapsed);
      if FromUser(i.event) {
        UserUnsent(o, s1, i, t);
      } else if FromSocket(i.event) {
        SocketUnsent(o, s1, i, t);
      } else {
        TimerUnsent(o, s1, i, t);
      }
    }
  }

  /** All along the inputs the connection of s serves and t is subscribed. */
  predicate ServedThroughout(o: Options, s: State, ins: seq<Input>, t: string) {
    var r := RunFrom(o, s, ins);
    && r.fault == NoFault && r.wire.conn == s.wire.conn && Serving(r) && t in r.subs.active
    && (ins != [] ==> ServedThroughout(o, s, ins[..|ins| - 1], t))
  }

  /** However long the connection lasts. */
  lemma {:induction false} NewcomerNeverSent(o: Options, s: State, ins: seq<Input>, t: string)
    requires Inv(o, s) && ServedThroughout(o, s, ins, t) && t in s.subs.active && Fresh(s.subs.active[t])
    ensures Fresh(RunFrom(o, s, ins).subs.active[t])
  {
    if ins != [] {
      var k := |ins| - 1;
      NewcomerNeverSent(o, s, ins[..k], t);
      RunFromKeeps(o, s, ins[..k]);
      NewcomerStaysUnsent(o, RunFrom(o, s, ins[..k]), ins[k], t);
    }
  }
}
