/** One step of a connection in use: it stays in use, with the heartbeat changed only by messages
    and its own timers, or it is lost; and how a connection comes into use. */
module EngineServing {
  import opened Types
  import opened Stream
  import opened Engine
  import opened EngineInvariant
  import opened EngineKernel
  import opened EngineSubscriptions
  import opened EngineSteps
  import opened EngineBarrier
  import opened EngineMemory
  import Heartbeat

  /** The connection of s goes on with heartbeat hb, or is lost. */
  ghost predicate GoesOnWith(s: State, r: State, hb: Heartbeat.Hb) {
    r.fault == NoFault ==> Down(r) || (Serving(r) && r.wire.conn == s.wire.conn && r.hb == hb)
  }

  lemma LostGoesOn(o: Options, s: State, r: State, hb: Heartbeat.Hb, reason: ErrorCode)
    requires Core(o, r) && Alive(r)
    ensures GoesOnWith(s, OnTransportClose(o, r, reason), hb)
    ensures GoesOnWith(s, AbortToFatal(r, reason), hb)
  {
    CloseMoves(o, r, reason);
    AbortKeeps(o, r, reason);
  }

  lemma SendGoesOn(o: Options, s: State, t: string, accepts: nat -> bool)
    requires Between(o, s, t) && Serving(s) && Sendable(s.wire, s.subs.active[t], 0)
    ensures GoesOnWith(s, SendSubscribe(o, s, t, 0, accepts), s.hb)
  {
    if Takes(s.wire, accepts) {
      TakenSend(o, s, t, 0, accepts);
    } else {
      RefusedAdvances(o, s, t, accepts);
    }
  }

  lemma FinishGoesOn(s: State, m: Subs)
    requires Serving(s)
    ensures GoesOnWith(s, FinishOne(s.(subs := m)), s.hb) && GoesOnWith(s, s.(subs := m), s.hb)
  {
  }

  lemma AckFailedGoesOn(o: Options, s: State, t: string, code: ErrorCode)
    requires Answering(o, s, t) && Serving(s)
    ensures GoesOnWith(s, AckFailed(o, s, t, code), s.hb)
  {
    if Classify(code) == FatalCategory || (Classify(code) == Transient && s.link.st == Reconnecting) {
      LostGoesOn(o, s, s, s.hb, code);
    } else {
      FinishGoesOn(s, Retire(s.subs, t, code, code));
    }
  }

  lemma AckRejectedGoesOn(o: Options, s: State, t: string, reject: RejectReason, accepts: nat -> bool)
    requires Answering(o, s, t) && Serving(s)
    ensures GoesOnWith(s, AckRejected(o, s, t, reject, accepts), s.hb)
  {
    var slot := s.subs.active[t].slot;
    if slot.semantics == Event && (reject == HistoryTooOld || reject == ReplayNotSupported) {
      if slot.retried {
        FinishGoesOn(s, Retire(s.subs, t, InternalError, InternalError));
      } else {
        FallbackKept(o, s, t);
        SendGoesOn(o, s.(subs := WithSlot(s.subs, t, Fallback(slot))), t, accepts);
      }
    } else {
      FinishGoesOn(s, Retire(s.subs, t, RejectToError(reject), RejectToError(reject)));
    }
  }

  lemma AckGoesOn(o: Options, s: State, resp: Response, accepts: nat -> bool)
    requires Inv(o, s) && s.fault == NoFault && Serving(s)
    ensures GoesOnWith(s, HandleSubscribeAck(o, s, resp, accepts), s.hb)
  {
    var rid := resp.requestId;
    if rid in s.subs.req && s.subs.req[rid] in s.subs.active && s.subs.active[s.subs.req[rid]].slot.inflight == rid {
      var t, s1 := s.subs.req[rid], Matched(s, rid);
      MatchedAckKeeps(o, s, rid);
      if !resp.success {
        AckFailedGoesOn(o, s1, t, resp.code);
      } else if resp.accepted {
        FinishGoesOn(s1, WithSlot(s1.subs, t, Accept(s1.subs.active[t].slot, resp.nextSeq)));
      } else {
        AckRejectedGoesOn(o, s1, t, resp.reject, accepts);
      }
      assert GoesOnWith(s1, HandleSubscribeAck(o, s, resp, accepts), s1.hb);
    }
  }

  lemma ReplayGoesOn(o: Options, s: State, resp: Response)
    requires Inv(o, s) && s.fault == NoFault && AtBarrier(s) && resp.requestId in s.table.rpcs
    ensures GoesOnWith(s, CompleteReplay(o, Taken(s, resp), resp), s.hb)
  {
    SilentEntry(s.table, resp.requestId);
    LostGoesOn(o, s, Taken(s, resp).(barrier := s.barrier.(estop := false)), s.hb,
               if resp.success then resp.rpcCode else resp.code);
  }

  lemma CompletionGoesOn(s: State, s1: State, j: Job, resp: Response)
    requires Serving(s) && s1.link == s.link && s1.hb == s.hb
             && s1.wire.conn == s.wire.conn && s1.wire.greeted == s.wire.greeted
    ensures j.User? ==> GoesOnWith(s, CompleteCall(s1, j.call, j.op, resp), s.hb)
    ensures j.Unsub? ==> GoesOnWith(s, CompleteUnsubscribe(s1, j.call, j.topic, resp), s.hb)
  {
  }

  lemma ReplyGoesOn(o: Options, s: State, resp: Response, accepts: nat -> bool, order: seq<string>)
    requires Inv(o, s) && s.fault == NoFault && Serving(s)
    ensures GoesOnWith(s, HandleResponse(o, s, resp, accepts, order), s.hb)
  {
    if resp.hasSubscribe {
      AckGoesOn(o, s, resp, accepts);
    } else if resp.requestId in s.table.rpcs {
      var j := s.table.rpcs[resp.requestId];
      assert !j.Handshake?;
      if j == Replay {
        ReplayGoesOn(o, s, resp);
      } else {
        CompletionGoesOn(s, Taken(s, resp), j, resp);
      }
    }
  }

  lemma SubscribeGoesOn(o: Options, s: State, t: string, semantics: Semantics, userClosed: bool, accepts: nat -> bool)
    requires Inv(o, s) && s.fault == NoFault && Serving(s)
    ensures GoesOnWith(s, OnSubscribe(o, s, t, semantics, userClosed, accepts), s.hb)
  {
    if !userClosed && t !in s.subs.active && s.link.st == Ready {
      var s1 := s.(subs := s.subs.(active := s.subs.active[t := Entry(NewSlot(semantics, o.policy, o.queueSize), false, 0, 0)]));
      NewEntryKeeps(o, s, t, semantics);
      SendGoesOn(o, s1, t, accepts);
    }
  }

  lemma UserGoesOn(o: Options, s: State, i: Input)
    requires Inv(o, s) && s.fault == NoFault && Serving(s) && FromUser(i.event)
    ensures GoesOnWith(s, HandleUser(o, s, i), s.hb)
  {
    match i.event
    case Subscribe(t, semantics, userClosed) => SubscribeGoesOn(o, s, t, semantics, userClosed, i.accepts);
    case _ =>
  }

  lemma SocketGoesOn(o: Options, s: State, i: Input)
    requires Inv(o, s) && s.fault == NoFault && Serving(s) && FromSocket(i.event)
    ensures GoesOnWith(s, HandleSocket(o, s, i), if i.event.TransportClosed? then s.hb else Noted(s).hb)
  {
    if i.event.TransportClosed? {
      LostGoesOn(o, s, s, s.hb, if i.event.clean then Cancelled else TransportFailure);
    } else {
      NotedKeeps(o, s);
      if i.event.Inbound? {
        ReplyGoesOn(o, Noted(s), i.event.resp, i.accepts, i.order);
      }
    }
  }

  // ------------------------------------------------------------------------------------------
  // The heartbeat's timers.

  /** What an idle tick makes of the heartbeat of a connection that survives it. */
  function IdleBeat(o: Options, s: State, open: bool): Heartbeat.Hb {
    if s.hb.idle == None || s.clock < s.hb.idle.value then s.hb
    else if s.link.st != Ready then s.hb.(idle := None)
    else Heartbeat.OnIdle(o.heartbeat, s.hb, s.clock, s.wire.up && open).0
  }

  /** The same for a passed ping deadline. */
  function DeadlineBeat(o: Options, s: State, open: bool): Heartbeat.Hb {
    if s.hb.deadline == None || s.clock < s.hb.deadline.value then s.hb
    else if s.link.st != Ready then s.hb.(deadline := None)
    else Heartbeat.OnDeadline(o.heartbeat, s.hb, s.clock, s.wire.up && open).0
  }

  lemma PingGoesOn(o: Options, s: State, s1: State, accepts: nat -> bool)
    requires Inv(o, s1) && s1.link.st == Ready && s1.wire == s.wire
    ensures GoesOnWith(s, SendHeartbeat(o, s1, accepts), s1.hb)
  {
    if !Takes(s1.wire, accepts) {
      var s2 := s1.(table := s1.table.(rpcs := s1.table.rpcs[s1.wire.nextId := HeartbeatPing]),
                    wire := Take(s1.wire, false, PingReq));
      TakeKeeps(o, s1, false, PingReq);
      AddSilentEntry(s1.table, s1.wire.nextId, HeartbeatPing);
      LostGoesOn(o, s, s2, s1.hb, TransportFailure);
    }
  }

  lemma IdleGoesOn(o: Options, s: State, open: bool, accepts: nat -> bool)
    requires Inv(o, s) && s.fault == NoFault && Serving(s)
    ensures GoesOnWith(s, OnIdleTimer(o, s, open, accepts), IdleBeat(o, s, open))
  {
    var h := Heartbeat.OnIdle(o.heartbeat, s.hb, s.clock, s.wire.up && open).0;
    Heartbeat.StepsAreSound(o.heartbeat, s.hb, s.clock, s.wire.up && open);
    HeartbeatChangeKeeps(o, s, h);
    if s.link.st == Ready { PingGoesOn(o, s, s.(hb := h), accepts); }
  }

  lemma DeadlineGoesOn(o: Options, s: State, open: bool, accepts: nat -> bool)
    requires Inv(o, s) && s.fault == NoFault && Serving(s)
    ensures GoesOnWith(s, OnPingDeadline(o, s, open, accepts), DeadlineBeat(o, s, open))
  {
    if s.hb.deadline.Some? && s.hb.deadline.value <= s.clock && s.link.st == Ready {
      var (h, ask) := Heartbeat.OnDeadline(o.heartbeat, s.hb, s.clock, s.wire.up && open);
      Heartbeat.StepsAreSound(o.heartbeat, s.hb, s.clock, s.wire.up && open);
      HeartbeatChangeKeeps(o, s, h);
      match ask
      case DeclareDead => LostGoesOn(o, s, s.(hb := h), h, TransportFailure);
      case SendPing => PingGoesOn(o, s, s.(hb := h), accepts);
      case Nothing =>
    }
  }

  lemma RpcTimeoutGoesOn(o: Options, s: State, rid: nat)
    requires Inv(o, s) && s.fault == NoFault && Serving(s)
    ensures GoesOnWith(s, OnRpcTimeout(o, s, rid), s.hb)
  {
    if rid in s.table.rpcs {
      assert !s.table.rpcs[rid].Handshake?;
      if s.table.rpcs[rid] == Replay {
        SilentEntry(s.table, rid);
        LostGoesOn(o, s, s.(table := s.table.(rpcs := s.table.rpcs - {rid}), barrier := s.barrier.(estop := false)), s.hb, Timeout);
      }
    }
  }

  /** The heartbeat after an input the connection survives. */
  function Beat(o: Options, s: State, i: Input): Heartbeat.Hb {
    match i.event
    case Inbound(_) => Noted(s).hb
    case Pushed(_, _) => Noted(s).hb
    case IdleTimer => IdleBeat(o, s, i.open)
    case PingDeadline => DeadlineBeat(o, s, i.open)
    case _ => s.hb
  }

  lemma TimerGoesOn(o: Options, s: State, i: Input)
    requires Inv(o, s) && s.fault == NoFault && Serving(s) && !FromUser(i.event) && !FromSocket(i.event)
    ensures GoesOnWith(s, HandleTimer(o, s, i), Beat(o, s, i))
  {
    match i.event
    case RpcTimeout(rid) => RpcTimeoutGoesOn(o, s, rid);
    case AckTimeout(_, _) => LostGoesOn(o, s, s, s.hb, Timeout);
    case IdleTimer => IdleGoesOn(o, s, i.open, i.accepts);
    case PingDeadline => DeadlineGoesOn(o, s, i.open, i.accepts);
    case _ =>
  }

  /** One step of a connection in use: lost, or in use still, on the same connection, with the
      heartbeat changed by nothing but messages and its own two timers. */
  lemma ServingStep(o: Options, s: State, i: Input)
    requires Inv(o, s) && s.fault == NoFault && Serving(s) && Lists(i.order, s.subs.active)
    ensures GoesOnWith(s, Step(o, s, i), Beat(o, Tick(s, i.elapsed), i))
  {
    var s1 := Tick(s, i.elapsed);
    ClockKeeps(o, s, i.elapsed);
    if FromUser(i.event) {
      UserGoesOn(o, s1, i);
    } else if FromSocket(i.event) {
      SocketGoesOn(o, s1, i);
    } else {
      TimerGoesOn(o, s1, i);
    }
    assert GoesOnWith(s1, Step(o, s, i), Beat(o, s1, i));
  }

  // ------------------------------------------------------------------------------------------
  // Coming into use.

  /** The connection is lost, or nothing that matters to its heartbeat has changed. */
  predicate SameBeat(s: State, r: State) {
    || r.link.st == TransientFailure || r.link.st == Fatal
    || (r.hb == s.hb && r.link.st == s.link.st && r.wire.greeted == s.wire.greeted)
  }

  lemma SendSameBeat(o: Options, s: State, t: string, since: nat, accepts: nat -> bool)
    requires t in s.subs.active
    ensures SameBeat(s, SendSubscribe(o, s, t, since, accepts))
  {
  }

  lemma {:induction false} WalkSameBeat(o: Options, s: State, ts: seq<string>, accepts: nat -> bool)
    ensures SameBeat(s, Resubscribe(o, s, ts, accepts))
    decreases |ts|
  {
    if ts != [] && s.fault == NoFault && ts[0] in s.subs.active {
      SendSameBeat(o, Readied(s, ts[0]), ts[0], ResumeFrom(o, s.subs.active[ts[0]].slot), accepts);
      WalkSameBeat(o, Trampled(ResubscribeOne(o, s, ts[0], accepts)), ts[1..], accepts);
    }
  }

  lemma {:induction false} WaitingSameBeat(o: Options, s: State, ts: seq<string>, accepts: nat -> bool)
    ensures SameBeat(s, SubscribeWaiting(o, s, ts, accepts))
    decreases |ts|
  {
    if ts != [] && s.fault == NoFault && ts[0] in s.subs.active {
      SendSameBeat(o, s, ts[0], 0, accepts);
      WaitingSameBeat(o, Trampled(SubscribeOne(o, s, ts[0], accepts)), ts[1..], accepts);
    }
  }

  lemma ReplaySameBeat(o: Options, s: State, accepts: nat -> bool)
    ensures SameBeat(s, DoEStopReplay(o, s, accepts))
  {
  }

  lemma RestoreBeat(o: Options, s: State, accepts: nat -> bool, order: seq<string>)
    ensures var r := Restore(o, s, accepts, order);
      || r.link.st == TransientFailure || r.link.st == Fatal
      || (r.hb == s.hb && (r.link.st == Ready || r.link.st == s.link.st) && r.wire.greeted == s.wire.greeted)
  {
    var s1 := s.(barrier := Barrier(|s.subs.active|, s.engaged, 0));
    WalkSameBeat(o, s1, order, accepts);
    ReplaySameBeat(o, Resubscribe(o, s1, order, accepts), accepts);
  }

  lemma FailureIsDown(o: Options, s: State, code: ErrorCode)
    requires s.table.rpcs == map[]
    ensures Down(FailConnection(o, s, code)) && Down(GiveUpConnection(o, s))
  {
  }

  /** Answering a handshake leads to a connection in use, with its heartbeat started, or to none. */
  lemma HandshakeBeat(o: Options, s: State, reconnect: bool, resp: Response, accepts: nat -> bool, order: seq<string>)
    requires s.table.rpcs == map[] && (reconnect ==> s.link.st == Reconnecting)
    ensures var r := CompleteHandshake(o, s, reconnect, resp, accepts, order);
      || Down(r)
      || (Serving(r) && resp.success && resp.hasHandshake && r.hb == Heartbeat.Start(o.heartbeat, s.hb, s.clock))
  {
    if !resp.success || !resp.hasHandshake {
      FailureIsDown(o, s, if resp.success then InternalError else resp.code);
    } else {
      var s1 := s.(hb := Heartbeat.Start(o.heartbeat, s.hb, s.clock), wire := s.wire.(greeted := true));
      WaitingSameBeat(o, s1.(link := Enter(s.link, Ready)), order, accepts);
      RestoreBeat(o, s1, accepts, order);
    }
  }

  lemma ReplyBeat(o: Options, s: State, resp: Response, accepts: nat -> bool, order: seq<string>)
    requires Inv(o, s) && s.fault == NoFault && !Serving(s)
    ensures var r := HandleResponse(o, s, resp, accepts, order);
      if AnswersHandshake(s, Inbound(resp)) then
        || Down(r)
        || (Serving(r) && resp.success && resp.hasHandshake && r.hb == Heartbeat.Start(o.heartbeat, s.hb, s.clock))
      else r.link == s.link && r.wire == s.wire && r.table == s.table
  {
    if resp.hasSubscribe {
      if resp.requestId in s.subs.req && s.subs.req[resp.requestId] in s.subs.active {
        assert Fits(s.link, s.wire, s.subs.active[s.subs.req[resp.requestId]]);
      }
    } else if resp.requestId in s.table.rpcs {
      var j := s.table.rpcs[resp.requestId];
      assert j.Handshake? && s.table.rpcs - {resp.requestId} == map[];
      HandshakeBeat(o, Taken(s, resp), j.reconnect, resp, accepts, order);
    }
  }

  lemma EstablishNotServing(o: Options, s: State, reconnect: bool, dial: Dial, accepts: nat -> bool)
    requires !Serving(s) && (!reconnect ==> s.link.st == Idle)
    ensures !Serving(EstablishConnection(o, s, reconnect, dial, accepts))
  {
  }

  lemma UserNotServing(o: Options, s: State, i: Input)
    requires Inv(o, s) && !Serving(s) && FromUser(i.event)
    ensures !Serving(HandleUser(o, s, i))
  {
    match i.event
    case Connect(dial) => if s.link.st == Idle { EstablishNotServing(o, s, false, dial, i.accepts); }
    case _ =>
  }

  lemma RetryNotServing(o: Options, s: State, dial: Dial, accepts: nat -> bool)
    requires Inv(o, s) && !Serving(s)
    ensures !Serving(OnRetryTimer(o, s, dial, accepts))
  {
  }

  lemma TimerNotServing(o: Options, s: State, i: Input)
    requires Inv(o, s) && !Serving(s) && !FromUser(i.event) && !FromSocket(i.event)
    ensures !Serving(HandleTimer(o, s, i))
  {
    match i.event
    case RetryTimer(dial) => RetryNotServing(o, s, dial, i.accepts);
    case _ =>
  }

  lemma SocketBegins(o: Options, s: State, i: Input)
    requires Inv(o, s) && s.fault == NoFault && !Serving(s) && FromSocket(i.event) && Serving(HandleSocket(o, s, i))
    ensures s.wire.conn > 0 && AnswersHandshake(s, i.event) && i.event.resp.success && i.event.resp.hasHandshake
    ensures HandleSocket(o, s, i).hb == Heartbeat.Start(o.heartbeat, Noted(s).hb, s.clock)
  {
    if i.event.Inbound? && s.wire.conn > 0 {
      NotedKeeps(o, s);
      ReplyBeat(o, Noted(s), i.event.resp, i.accepts, i.order);
    }
  }

  /** A connection comes into use only by an accepted handshake, which starts its heartbeat. */
  lemma ServingBegins(o: Options, s: State, i: Input)
    requires Inv(o, s) && s.fault == NoFault && !Serving(s) && Serving(Step(o, s, i))
    ensures Lists(i.order, s.subs.active) && s.wire.conn > 0
    ensures AnswersHandshake(s, i.event) && i.event.resp.success && i.event.resp.hasHandshake
    ensures Step(o, s, i).hb == Heartbeat.Start(o.heartbeat, Noted(Tick(s, i.elapsed)).hb, s.clock + i.elapsed)
  {
    var s1 := Tick(s, i.elapsed);
    ClockKeeps(o, s, i.elapsed);
    if FromUser(i.event) {
      UserNotServing(o, s1, i);
    } else if FromSocket(i.event) {
      SocketBegins(o, s1, i);
    } else {
      TimerNotServing(o, s1, i);
    }
  }
}
