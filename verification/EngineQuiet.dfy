/** Where the heartbeat is silent: no timer of it runs without a connection in use, and none ever
    runs if the interval is zero. */
module EngineQuiet {
  import opened Types
  import opened Stream
  import opened Engine
  import opened EngineInvariant
  import opened EngineKernel
  import opened EngineSubscriptions
  import opened EngineSteps
  import opened EngineBarrier
  import opened EngineMemory
  import opened EngineServing
  import opened EngineFate
  import Heartbeat

  /** Both timers are stopped wherever they have no business to run. */
  ghost predicate Hushed(o: Options, s: State) {
    s.fault == NoFault && (!Serving(s) || o.heartbeat.interval <= 0) ==> Stopped(s.hb)
  }

  /** Whoever loses the connection stops the timers. */
  predicate DownStops(s: State) {
    s.fault == NoFault && Down(s) ==> Stopped(s.hb)
  }

  lemma CloseStops(o: Options, s: State, reason: ErrorCode)
    requires DownStops(s)
    ensures DownStops(OnTransportClose(o, s, reason)) && DownStops(AbortToFatal(s, reason))
  {
  }

  lemma SendStops(o: Options, s: State, t: string, since: nat, accepts: nat -> bool)
    requires DownStops(s) && t in s.subs.active
    ensures DownStops(SendSubscribe(o, s, t, since, accepts))
  {
    if !Takes(s.wire, accepts) {
      CloseStops(o, Unsendable(s, t, since), TransportFailure);
    }
  }

  lemma {:induction false} WalkStops(o: Options, s: State, ts: seq<string>, accepts: nat -> bool)
    requires DownStops(s)
    ensures DownStops(Resubscribe(o, s, ts, accepts))
    decreases |ts|
  {
    if ts != [] && s.fault == NoFault && ts[0] in s.subs.active {
      SendStops(o, Readied(s, ts[0]), ts[0], ResumeFrom(o, s.subs.active[ts[0]].slot), accepts);
      WalkStops(o, Trampled(ResubscribeOne(o, s, ts[0], accepts)), ts[1..], accepts);
    }
  }

  lemma {:induction false} WaitingStops(o: Options, s: State, ts: seq<string>, accepts: nat -> bool)
    requires DownStops(s)
    ensures DownStops(SubscribeWaiting(o, s, ts, accepts))
    decreases |ts|
  {
    if ts != [] && s.fault == NoFault && ts[0] in s.subs.active {
      SendStops(o, s, ts[0], 0, accepts);
      WaitingStops(o, Trampled(SubscribeOne(o, s, ts[0], accepts)), ts[1..], accepts);
    }
  }

  lemma ReplayStops(o: Options, s: State, accepts: nat -> bool)
    requires DownStops(s)
    ensures DownStops(DoEStopReplay(o, s, accepts))
  {
    CloseStops(o, s.(wire := Take(s.wire, false, EStopReq(true)), barrier := s.barrier.(estop := false)), TransportFailure);
  }

  lemma HandshakeStops(o: Options, s: State, reconnect: bool, resp: Response, accepts: nat -> bool, order: seq<string>)
    requires Stopped(s.hb) && !Down(s)
    ensures DownStops(CompleteHandshake(o, s, reconnect, resp, accepts, order))
  {
    if !resp.success || !resp.hasHandshake {
      FailureStops(o, s, if resp.success then InternalError else resp.code);
    } else {
      var s1 := s.(hb := Heartbeat.Start(o.heartbeat, s.hb, s.clock), wire := s.wire.(greeted := true));
      var s2 := s1.(barrier := Barrier(|s.subs.active|, s.engaged, 0));
      WaitingStops(o, s1.(link := Enter(s.link, Ready)), order, accepts);
      WalkStops(o, s2, order, accepts);
      ReplayStops(o, Resubscribe(o, s2, order, accepts), accepts);
    }
  }

  lemma FailureStops(o: Options, s: State, code: ErrorCode)
    requires Stopped(s.hb)
    ensures Stopped(FailConnection(o, s, code).hb) && Stopped(GiveUpConnection(o, s).hb)
  {
  }

  lemma DialStops(o: Options, s: State, reconnect: bool, dial: Dial, accepts: nat -> bool)
    requires Stopped(s.hb)
    ensures Stopped(EstablishConnection(o, s, reconnect, dial, accepts).hb)
  {
    var s0 := if reconnect then s else s.(link := Enter(s.link, Connecting));
    match dial
    case Refused(code) => FailureStops(o, s0, code);
    case EncodeThrows(_) =>
    case Up => FailureStops(o, s0.(wire := Take(NewSocket(s0.wire), false, HandshakeReq)), Ok);
  }

  lemma UserStops(o: Options, s: State, i: Input)
    requires Stopped(s.hb) && s.link.st != Ready && FromUser(i.event)
    ensures Stopped(HandleUser(o, s, i).hb)
  {
    match i.event
    case Connect(dial) => DialStops(o, s, false, dial, i.accepts);
    case _ =>
  }

  lemma TimerStops(o: Options, s: State, i: Input)
    requires Stopped(s.hb) && s.link.st != Ready
    ensures Stopped(HandleTimer(o, s, i).hb)
  {
    match i.event
    case RetryTimer(dial) =>
      if s.link.retry.Some? {
        DialStops(o, s.(link := Enter(s.link.(attempt := s.link.retry.value, retry := None), Reconnecting)), true, dial, i.accepts);
      }
    case _ =>
  }

  /** A message outside a connection in use can only answer the handshake. */
  lemma MessageStops(o: Options, s: State, i: Input)
    requires Inv(o, s) && s.fault == NoFault && !Serving(s) && Stopped(s.hb) && FromSocket(i.event)
    ensures var r := HandleSocket(o, s, i); r.fault == NoFault && !Serving(r) ==> Stopped(r.hb)
  {
    if i.event.Inbound? && s.wire.conn > 0 {
      NotedKeeps(o, s);
      AnswerStops(o, Noted(s), i.event.resp, i.accepts, i.order);
    }
  }

  lemma AnswerStops(o: Options, s: State, resp: Response, accepts: nat -> bool, order: seq<string>)
    requires Inv(o, s) && s.fault == NoFault && !Serving(s) && Stopped(s.hb) && s.wire.conn > 0
    ensures var r := HandleResponse(o, s, resp, accepts, order); r.fault == NoFault && !Serving(r) ==> Stopped(r.hb)
  {
    ReplyBeat(o, s, resp, accepts, order);
    if resp.hasSubscribe {
      if MatchedAck(s, resp) { MatchedServes(o, s, resp); }
    } else if resp.requestId in s.table.rpcs {
      var j := s.table.rpcs[resp.requestId];
      HandshakeStops(o, Taken(s, resp), j.reconnect, resp, accepts, order);
    }
  }

  /** Outside a connection in use the timers stay stopped. */
  lemma OutsideStep(o: Options, s: State, i: Input)
    requires Inv(o, s) && s.fault == NoFault && !Serving(s) && Stopped(s.hb)
    ensures var r := Step(o, s, i); r.fault == NoFault && !Serving(r) ==> Stopped(r.hb)
  {
    if Lists(i.order, s.subs.active) {
      var s1 := Tick(s, i.elapsed);
      ClockKeeps(o, s, i.elapsed);
      if FromUser(i.event) {
        UserStops(o, s1, i);
      } else if FromSocket(i.event) {
        MessageStops(o, s1, i);
      } else {
        TimerStops(o, s1, i);
      }
    }
  }

  /** Losing a connection in use stops them. */
  lemma LosingStep(o: Options, s: State, i: Input)
    requires Inv(o, s) && s.fault == NoFault && Serving(s)
    ensures var r := Step(o, s, i); r.fault == NoFault && !Serving(r) ==> Stopped(r.hb)
  {
    if Lists(i.order, s.subs.active) {
      if i.event.Close? {
        CloseShuts(o, s, i);
      } else {
        ServingNotAnswered(o, s, i);
        StepFate(o, s, i);
        StepKeeps(o, s, i);
        if s.link.st == Reconnecting { BarrierStep(o, s, i); }
      }
    }
  }

  lemma ServingNotAnswered(o: Options, s: State, i: Input)
    requires Inv(o, s) && Serving(s)
    ensures !AnswersHandshake(s, i.event)
  {
  }

  /** With a zero interval nothing arms them. */
  lemma UnarmedStep(o: Options, s: State, i: Input)
    requires Inv(o, s) && s.fault == NoFault && Serving(s) && Stopped(s.hb)
    ensures var r := Step(o, s, i); r.fault == NoFault && Serving(r) ==> Stopped(r.hb)
  {
    if Lists(i.order, s.subs.active) { ServingStep(o, s, i); }
  }

  /** In every run the heartbeat's timers are stopped while no connection is in use, and always if
      the interval is zero or less. */
  lemma {:induction false} RunIsHushed(o: Options, ins: seq<Input>)
    ensures Hushed(o, Run(o, ins))
  {
    if ins != [] {
      var k := |ins| - 1;
      var s, r := Run(o, ins[..k]), Run(o, ins);
      RunIsHushed(o, ins[..k]);
      RunKeeps(o, ins[..k]);
      if s.fault == NoFault && r.fault == NoFault {
        if Serving(s) {
          LosingStep(o, s, ins[k]);
          if o.heartbeat.interval <= 0 { UnarmedStep(o, s, ins[k]); }
        } else {
          OutsideStep(o, s, ins[k]);
          if Serving(r) { ServingBegins(o, s, ins[k]); }
        }
      }
    }
  }
}
