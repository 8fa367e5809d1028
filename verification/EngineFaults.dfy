/** The two ways a run can reach undefined behaviour, exactly when it does, and runs that do. */
module EngineFaults {
  import opened Types
  import opened Stream
  import opened Engine
  import opened EngineInvariant
  import opened EngineKernel
  import opened EngineSubscriptions
  import opened EngineSteps
  import opened EngineBarrier
  import opened EngineProgress
  import Heartbeat

  // ------------------------------------------------------------------------------------------
  // Losing the connection with the stop replay in flight.

  /** A transport close recurses without end exactly when the stop replay is in flight, which
      takes a reconnect barrier with the stop still pending. */
  lemma CloseOverflowsIff(o: Options, s: State, reason: ErrorCode)
    requires Inv(o, s) && s.fault == NoFault && s.link.st != Idle
    ensures OnTransportClose(o, s, reason).fault == StackOverflow <==> AtBarrier(s) && s.barrier.estop
    ensures OnTransportClose(o, s, reason).fault != StackOverflow ==> OnTransportClose(o, s, reason).fault == NoFault
  {
    if AtBarrier(s) && s.barrier.estop {
      var rid :| rid in s.table.rpcs;
      assert s.table.rpcs[rid] == Replay;
    } else {
      assert !HasReplay(s.table.rpcs);
      if !Terminal(s.link.st) { CloseKeeps(o, s, reason); }
    }
  }

  /** The same for the end of the session. */
  lemma AbortOverflowsIff(o: Options, s: State, code: ErrorCode)
    requires Inv(o, s) && s.fault == NoFault
    ensures AbortToFatal(s, code).fault == StackOverflow <==> AtBarrier(s) && s.barrier.estop
  {
    if AtBarrier(s) && s.barrier.estop {
      var rid :| rid in s.table.rpcs;
      assert s.table.rpcs[rid] == Replay;
    }
  }

  // ------------------------------------------------------------------------------------------
  // Ending the session from inside a walk over the subscriptions.

  /** The socket takes the next n requests. */
  predicate TakesNext(w: Wire, accepts: nat -> bool, n: nat) {
    forall k :: w.nextId <= k < w.nextId + n ==> accepts(k)
  }

  /** A refused send in a walk: fatal exactly when the attempts are used up. */
  lemma RefusedWalkFaults(o: Options, s: State, t: string, accepts: nat -> bool)
    requires Core(o, s) && Alive(s) && s.fault == NoFault && t in s.subs.active && s.table.rpcs == map[]
    requires !Takes(s.wire, accepts) && Quiet(s.subs.active[t]) && Unsent(s.wire, s.subs.active[t])
    ensures var s1 := ResubscribeOne(o, s, t, accepts);
      if !WithinLimit(o, s.link.attempt + 1) then s1.link.st == Fatal
      else s1.link.st == TransientFailure && s1.link.attempt == s.link.attempt
  {
  }

  lemma {:induction false} DownWalkFaults(o: Options, s: State, ts: seq<string>, accepts: nat -> bool)
    requires Inv(o, s) && s.fault == NoFault && s.link.st == TransientFailure
    requires AllUnsent(s.wire, s.subs.active, ts) && WithinLimit(o, s.link.attempt + 1)
    ensures Resubscribe(o, s, ts, accepts).fault == NoFault
    decreases |ts|
  {
    if ts != [] {
      assert Fits(s.link, s.wire, s.subs.active[ts[0]]);
      FailedStep(o, s, ts[0], accepts);
      RefusedWalkFaults(o, s, ts[0], accepts);
      var s1 := ResubscribeOne(o, s, ts[0], accepts);
      assert AllUnsent(s1.wire, s1.subs.active, ts[1..]);
      DownWalkFaults(o, s1, ts[1..], accepts);
    }
  }

  lemma TakenWalkStep(o: Options, s: State, ts: seq<string>, accepts: nat -> bool)
    requires s.fault == NoFault && ts != [] && Walking(o, s, ts) && Takes(s.wire, accepts)
    ensures var s1 := ResubscribeOne(o, s, ts[0], accepts);
      s1.wire.nextId == s.wire.nextId + 1 && s1.wire.up && s1.link == s.link
  {
  }

  lemma RefusedWalkDangles(o: Options, s: State, ts: seq<string>, accepts: nat -> bool)
    requires s.fault == NoFault && ts != [] && Walking(o, s, ts) && !Takes(s.wire, accepts)
    ensures var r := Resubscribe(o, s, ts, accepts);
      r.fault == if WithinLimit(o, s.link.attempt + 1) then NoFault else DanglingIterator
  {
    var s1 := ResubscribeOne(o, s, ts[0], accepts);
    FailedStep(o, s, ts[0], accepts);
    RefusedWalkFaults(o, s, ts[0], accepts);
    if WithinLimit(o, s.link.attempt + 1) {
      assert AllUnsent(s1.wire, s1.subs.active, ts[1..]);
      DownWalkFaults(o, s1, ts[1..], accepts);
    } else {
      FaultStays(o, Trampled(s1), ts[1..], accepts);
    }
  }

  lemma TakesNextStep(w: Wire, w': Wire, accepts: nat -> bool, n: nat)
    requires n > 0 && w'.nextId == w.nextId + 1 && accepts(w.nextId)
    ensures TakesNext(w, accepts, n) <==> TakesNext(w', accepts, n - 1)
  {
  }

  /** The resubscription walk runs over a cleared table exactly when the socket refuses one of its
      requests and the reconnect attempts are used up. */
  lemma {:induction false} WalkDanglesIff(o: Options, s: State, ts: seq<string>, accepts: nat -> bool)
    requires s.fault == NoFault && Walking(o, s, ts)
    ensures var r := Resubscribe(o, s, ts, accepts);
      r.fault == if TakesNext(s.wire, accepts, |ts|) || WithinLimit(o, s.link.attempt + 1) then NoFault else DanglingIterator
    decreases |ts|
  {
    if ts != [] {
      if Takes(s.wire, accepts) {
        var s1 := ResubscribeOne(o, s, ts[0], accepts);
        WalkStep(o, s, ts, accepts);
        TakenWalkStep(o, s, ts, accepts);
        WalkDanglesIff(o, s1, ts[1..], accepts);
        TakesNextStep(s.wire, s1.wire, accepts, |ts|);
      } else {
        assert !accepts(s.wire.nextId);
        RefusedWalkDangles(o, s, ts, accepts);
      }
    }
  }

  // ------------------------------------------------------------------------------------------
  // Nothing else faults.

  /** No fault, unless the stack overflows with a stop replay in flight. */
  predicate Mild(s: State, r: State) {
    r.fault == NoFault || (r.fault == StackOverflow && HasReplay(s.table.rpcs))
  }

  lemma CloseSafe(o: Options, s: State, reason: ErrorCode)
    requires s.fault == NoFault
    ensures Mild(s, OnTransportClose(o, s, reason)) && Mild(s, AbortToFatal(s, reason))
  {
  }

  lemma FailSafe(o: Options, s: State, code: ErrorCode)
    requires s.fault == NoFault
    ensures Mild(s, FailConnection(o, s, code)) && Mild(s, GiveUpConnection(o, s))
  {
  }

  lemma EstablishSafe(o: Options, s: State, reconnect: bool, dial: Dial, accepts: nat -> bool)
    requires s.fault == NoFault
    ensures Mild(s, EstablishConnection(o, s, reconnect, dial, accepts))
  {
    var s0 := if reconnect then s else s.(link := Enter(s.link, Connecting));
    match dial
    case Refused(code) => FailSafe(o, s0, code);
    case EncodeThrows(code) => CloseSafe(o, s0.(wire := Take(NewSocket(s0.wire), false, HandshakeReq)), code);
    case Up => FailSafe(o, s0.(wire := Take(NewSocket(s0.wire), false, HandshakeReq)), Ok);
  }

  lemma SendSafe(o: Options, s: State, t: string, since: nat, accepts: nat -> bool)
    requires s.fault == NoFault && t in s.subs.active
    ensures Mild(s, SendSubscribe(o, s, t, since, accepts))
  {
  }

  lemma SubscribeSafe(o: Options, s: State, t: string, semantics: Semantics, userClosed: bool, accepts: nat -> bool)
    requires s.fault == NoFault
    ensures Mild(s, OnSubscribe(o, s, t, semantics, userClosed, accepts))
  {
    if t !in s.subs.active {
      var s1 := s.(subs := s.subs.(active := s.subs.active[t := Entry(NewSlot(semantics, o.policy, o.queueSize), false, 0, 0)]));
      SendSafe(o, s1, t, 0, accepts);
    }
  }

  lemma UserSafe(o: Options, s: State, i: Input)
    requires s.fault == NoFault
    ensures Mild(s, HandleUser(o, s, i))
  {
    match i.event
    case Connect(dial) => EstablishSafe(o, s, false, dial, i.accepts);
    case Subscribe(t, semantics, userClosed) => SubscribeSafe(o, s, t, semantics, userClosed, i.accepts);
    case _ =>
  }

  lemma AnsweredSafe(o: Options, s: State, t: string, resp: Response, accepts: nat -> bool)
    requires s.fault == NoFault && t in s.subs.active
    ensures Mild(s, AckFailed(o, s, t, resp.code)) && Mild(s, AckRejected(o, s, t, resp.reject, accepts))
  {
    CloseSafe(o, s, resp.code);
    SendSafe(o, s.(subs := WithSlot(s.subs, t, Fallback(s.subs.active[t].slot))), t, 0, accepts);
  }

  lemma AckSafe(o: Options, s: State, resp: Response, accepts: nat -> bool)
    requires s.fault == NoFault
    ensures Mild(s, HandleSubscribeAck(o, s, resp, accepts))
  {
    if resp.requestId in s.subs.req && s.subs.req[resp.requestId] in s.subs.active {
      AnsweredSafe(o, Matched(s, resp.requestId), s.subs.req[resp.requestId], resp, accepts);
    }
  }

  lemma SendHeartbeatSafe(o: Options, s: State, accepts: nat -> bool)
    requires s.fault == NoFault
    ensures Mild(s, SendHeartbeat(o, s, accepts))
  {
    var s1 := s.(table := s.table.(rpcs := s.table.rpcs[s.wire.nextId := HeartbeatPing]),
                 wire := Take(s.wire, Takes(s.wire, accepts), PingReq));
    if HasReplay(s1.table.rpcs) {
      var rid :| rid in s1.table.rpcs && s1.table.rpcs[rid] == Replay;
      assert s.table.rpcs[rid] == Replay;
    }
    CloseSafe(o, s1, TransportFailure);
  }

  lemma IdleSafe(o: Options, s: State, open: bool, accepts: nat -> bool)
    requires s.fault == NoFault
    ensures Mild(s, OnIdleTimer(o, s, open, accepts))
  {
    SendHeartbeatSafe(o, s.(hb := Heartbeat.OnIdle(o.heartbeat, s.hb, s.clock, s.wire.up && open).0), accepts);
  }

  lemma DeadlineSafe(o: Options, s: State, open: bool, accepts: nat -> bool)
    requires s.fault == NoFault
    ensures Mild(s, OnPingDeadline(o, s, open, accepts))
  {
    var s1 := s.(hb := Heartbeat.OnDeadline(o.heartbeat, s.hb, s.clock, s.wire.up && open).0);
    SendHeartbeatSafe(o, s1, accepts);
    CloseSafe(o, s1, TransportFailure);
  }

  lemma RpcTimeoutSafe(o: Options, s: State, rid: nat)
    requires s.fault == NoFault
    ensures Mild(s, OnRpcTimeout(o, s, rid))
  {
    var rpcs := s.table.rpcs - {rid};
    if HasReplay(rpcs) {
      var r :| r in rpcs && rpcs[r] == Replay;
      assert s.table.rpcs[r] == Replay;
    }
  }

  lemma TimerSafe(o: Options, s: State, i: Input)
    requires s.fault == NoFault
    ensures Mild(s, HandleTimer(o, s, i))
  {
    match i.event
    case RpcTimeout(rid) => RpcTimeoutSafe(o, s, rid);
    case AckTimeout(_, _) => CloseSafe(o, s, Timeout);
    case RetryTimer(dial) =>
      if s.link.retry.Some? {
        var s1 := s.(link := Enter(s.link.(attempt := s.link.retry.value, retry := None), Reconnecting));
        EstablishSafe(o, s1, true, dial, i.accepts);
      }
    case IdleTimer => IdleSafe(o, s, i.open, i.accepts);
    case PingDeadline => DeadlineSafe(o, s, i.open, i.accepts);
    case _ =>
  }

  lemma SocketSafe(o: Options, s: State, i: Input)
    requires s.fault == NoFault && !AnswersHandshake(s, i.event)
    ensures Mild(s, HandleSocket(o, s, i))
  {
    match i.event
    case Inbound(resp) => AckSafe(o, Noted(s), resp, i.accepts);
    case TransportClosed(clean) => CloseSafe(o, s, if clean then Cancelled else TransportFailure);
    case _ =>
  }

  // ------------------------------------------------------------------------------------------
  // Answering a handshake.

  lemma {:induction false} PausedWalk(o: Options, s: State, ts: seq<string>, accepts: nat -> bool)
    requires s.link.st != Fatal && forall t :: t in s.subs.active ==> s.subs.active[t].slot.state == Paused
    ensures SubscribeWaiting(o, s, ts, accepts) == s
    decreases |ts|
  {
    if ts != [] && s.fault == NoFault && ts[0] in s.subs.active {
      PausedWalk(o, s, ts[1..], accepts);
    }
  }

  /** The walk after the first Ready: everything in ts is still to be sent. */
  ghost predicate FirstWalk(o: Options, s: State, ts: seq<string>) {
    && Inv(o, s) && s.fault == NoFault && s.link.st == Ready && Distinct(ts) && AllUnsent(s.wire, s.subs.active, ts)
    && forall i :: 0 <= i < |ts| ==> Fresh(s.subs.active[ts[i]])
  }

  lemma TakenWaiting(o: Options, s: State, ts: seq<string>, accepts: nat -> bool)
    requires FirstWalk(o, s, ts) && ts != [] && Takes(s.wire, accepts)
    ensures var s1 := SendSubscribe(o, s, ts[0], 0, accepts);
      FirstWalk(o, s1, ts[1..]) && s1.wire.nextId == s.wire.nextId + 1 && s1.link == s.link
  {
    WaitingStep(o, s, ts[0], accepts);
  }

  lemma RefusedWaiting(o: Options, s: State, ts: seq<string>, accepts: nat -> bool)
    requires FirstWalk(o, s, ts) && ts != [] && !Takes(s.wire, accepts)
    ensures SubscribeWaiting(o, s, ts, accepts).fault
         == if WithinLimit(o, s.link.attempt + 1) then NoFault else DanglingIterator
  {
    var s1 := SendSubscribe(o, s, ts[0], 0, accepts);
    NoReplayNow(o, s);
    if WithinLimit(o, s.link.attempt + 1) {
      PausedWalk(o, s1, ts[1..], accepts);
    } else {
      FaultStays(o, Trampled(s1), ts[1..], accepts);
    }
  }

  lemma {:induction false} WaitingDangles(o: Options, s: State, ts: seq<string>, accepts: nat -> bool)
    requires FirstWalk(o, s, ts)
    ensures SubscribeWaiting(o, s, ts, accepts).fault
         == if TakesNext(s.wire, accepts, |ts|) || WithinLimit(o, s.link.attempt + 1) then NoFault else DanglingIterator
    decreases |ts|
  {
    if ts != [] {
      if Takes(s.wire, accepts) {
        var s1 := SendSubscribe(o, s, ts[0], 0, accepts);
        TakenWaiting(o, s, ts, accepts);
        WaitingDangles(o, s1, ts[1..], accepts);
        TakesNextStep(s.wire, s1.wire, accepts, |ts|);
      } else {
        assert !accepts(s.wire.nextId);
        RefusedWaiting(o, s, ts, accepts);
      }
    }
  }

  /** Nothing faults when the handshake was refused, and when it succeeds only a walk that is
      refused with no attempt left. */
  predicate WalkFails(o: Options, s: State, resp: Response, accepts: nat -> bool, n: nat) {
    && resp.success && resp.hasHandshake
    && !TakesNext(s.wire, accepts, n) && !WithinLimit(o, s.link.attempt + 1)
  }

  lemma FirstHandshakeFaults(o: Options, s: State, resp: Response, accepts: nat -> bool, order: seq<string>)
    requires Answered(o, s) && s.link.st == Connecting && s.fault == NoFault && Lists(order, s.subs.active)
    requires resp.success && resp.hasHandshake
    ensures CompleteHandshake(o, s, false, resp, accepts, order).fault
         == if WalkFails(o, s, resp, accepts, |order|) then DanglingIterator else NoFault
  {
    FirstReadyBegins(o, s);
    WaitingDangles(o, FirstReady(o, s), order, accepts);
  }

  lemma BarrierHandshakeFaults(o: Options, s: State, resp: Response, accepts: nat -> bool, order: seq<string>)
    requires Answered(o, s) && s.link.st == Reconnecting && s.fault == NoFault && Lists(order, s.subs.active)
    requires resp.success && resp.hasHandshake
    ensures CompleteHandshake(o, s, true, resp, accepts, order).fault
         == if WalkFails(o, s, resp, accepts, |order|) then DanglingIterator else NoFault
  {
    var s2 := BarrierOpened(o, s);
    BarrierOpens(o, s, order);
    WalkDanglesIff(o, s2, order, accepts);
    ResubscribeKeeps(o, s2, order, accepts);
    var s3 := Resubscribe(o, s2, order, accepts);
    if s3.fault == NoFault && s3.barrier.estop {
      ReplaySendSafe(o, s3, accepts);
    }
    if |s.subs.active| == 0 { assert order == []; }
  }

  lemma ReplaySendSafe(o: Options, s: State, accepts: nat -> bool)
    requires s.fault == NoFault && s.table.rpcs == map[]
    ensures DoEStopReplay(o, s, accepts).fault == NoFault
  {
  }

  /** Answering a handshake faults exactly when the socket refuses one of the subscribes that
      follow and no attempt is left. */
  lemma HandshakeFaultsIff(o: Options, s: State, i: Input)
    requires Inv(o, s) && s.fault == NoFault && Lists(i.order, s.subs.active) && AnswersHandshake(s, i.event)
    ensures Step(o, s, i).fault
         == if WalkFails(o, s, i.event.resp, i.accepts, |i.order|) then DanglingIterator else NoFault
  {
    var resp, s1 := i.event.resp, Noted(Tick(s, i.elapsed));
    ClockKeeps(o, s, i.elapsed);
    NotedKeeps(o, Tick(s, i.elapsed));
    var okd := if Succeeds(resp) then s.wire.okd + {resp.requestId} else s.wire.okd;
    HandshakeAnswered(o, s1, resp.requestId, okd);
    var s2 := s1.(table := s1.table.(rpcs := s1.table.rpcs - {resp.requestId}), wire := s1.wire.(okd := okd));
    if !resp.success || !resp.hasHandshake {
      FailSafe(o, s2, if resp.success then InternalError else resp.code);
    } else if s.link.st == Connecting {
      FirstHandshakeFaults(o, s2, resp, i.accepts, i.order);
    } else {
      BarrierHandshakeFaults(o, s2, resp, i.accepts, i.order);
    }
  }

  /** A step faults in these two ways only: the stack overflows while the stop replay of a barrier
      is in flight, or answering a handshake leaves a walk on a cleared table. */
  lemma OnlyTheseFault(o: Options, s: State, i: Input)
    requires Inv(o, s) && s.fault == NoFault && Step(o, s, i).fault != NoFault
    ensures if AnswersHandshake(s, i.event) then
              Step(o, s, i).fault == DanglingIterator && WalkFails(o, s, i.event.resp, i.accepts, |i.order|)
            else Step(o, s, i).fault == StackOverflow && AtBarrier(s) && s.barrier.estop
  {
    var s1 := Tick(s, i.elapsed);
    if AnswersHandshake(s, i.event) {
      HandshakeFaultsIff(o, s, i);
    } else if FromUser(i.event) {
      UserSafe(o, s1, i);
    } else if FromSocket(i.event) {
      SocketSafe(o, s1, i);
    } else {
      TimerSafe(o, s1, i);
    }
  }

  // ------------------------------------------------------------------------------------------
  // The overflow is reachable.

  function Greeting(rid: nat): Response {
    Response(rid, true, Ok, true, false, Ok, false, false, NoReason, 0)
  }

  function Plain(e: Event): Input {
    Input(e, 0, (n: nat) => true, true, [])
  }

  /** Engage the stop, lose the connection, reconnect, and lose the connection again before the
      replayed stop is answered. */
  function LosingTwice(): seq<Input> {
    [Plain(Connect(Up)), Plain(Inbound(Greeting(1))), Plain(Call(EStop(true))), Plain(Inbound(Confirming(2))),
     Plain(TransportClosed(false)), Plain(RetryTimer(Up)), Plain(Inbound(Greeting(3))), Plain(TransportClosed(false))]
  }

  /** The table and the links while nothing is subscribed. */
  predicate At(s: State, st: ConnectionState, conn: nat, nextId: nat, rpcs: map<nat, Job>, engaged: bool) {
    && s.fault == NoFault && s.link.st == st && s.wire.conn == conn && s.wire.nextId == nextId
    && s.table.rpcs == rpcs && s.subs.active == map[] && s.engaged == engaged
  }

  lemma Unrolled(o: Options, s: State, ins: seq<Input>, k: nat)
    requires k < |ins|
    ensures RunFrom(o, s, ins[..k + 1]) == Step(o, RunFrom(o, s, ins[..k]), ins[k])
  {
    assert ins[..k + 1][..k] == ins[..k];
  }

  lemma ConnectRun(o: Options) returns (s: State)
    ensures s == RunFrom(o, Initial(), LosingTwice()[..1])
    ensures At(s, Connecting, 1, 2, map[1 := Handshake(false)], false) && s.wire.up && s.link.attempt == 0 && s.table.calls == []
  {
    s := Step(o, Initial(), LosingTwice()[0]);
    assert LosingTwice()[..0] == [];
    Unrolled(o, Initial(), LosingTwice(), 0);
  }

  lemma GreetRun(o: Options) returns (s: State)
    ensures s == RunFrom(o, Initial(), LosingTwice()[..2])
    ensures At(s, Ready, 1, 2, map[], false) && s.wire.up && s.link.attempt == 0 && s.table.calls == []
  {
    var s1 := ConnectRun(o);
    s := Step(o, s1, LosingTwice()[1]);
    Unrolled(o, Initial(), LosingTwice(), 1);
  }

  lemma StopRun(o: Options) returns (s: State)
    ensures s == RunFrom(o, Initial(), LosingTwice()[..3])
    ensures At(s, Ready, 1, 3, map[2 := User(0, EStop(true))], false) && s.link.attempt == 0
  {
    var s2 := GreetRun(o);
    s := Step(o, s2, LosingTwice()[2]);
    Unrolled(o, Initial(), LosingTwice(), 2);
  }

  lemma EngageRun(o: Options) returns (s: State)
    ensures s == RunFrom(o, Initial(), LosingTwice()[..4])
    ensures At(s, Ready, 1, 3, map[], true) && s.link.attempt == 0
  {
    var s3 := StopRun(o);
    s := Step(o, s3, LosingTwice()[3]);
    Unrolled(o, Initial(), LosingTwice(), 3);
  }

  lemma QuietLoss(o: Options, s: State)
    requires WithinLimit(o, 1) && At(s, Ready, 1, 3, map[], true) && s.link.attempt == 0
    ensures var r := OnTransportClose(o, s, TransportFailure);
      At(r, TransientFailure, 1, 3, map[], true) && r.link.retry == Some(1)
  {
    assert !HasReplay(map[]);
  }

  lemma LossRun(o: Options) returns (s: State)
    requires WithinLimit(o, 1)
    ensures s == RunFrom(o, Initial(), LosingTwice()[..5])
    ensures At(s, TransientFailure, 1, 3, map[], true) && s.link.retry == Some(1)
  {
    var s4 := EngageRun(o);
    var i := LosingTwice()[4];
    QuietLoss(o, Tick(s4, 0));
    assert Lists(i.order, s4.subs.active);
    assert Step(o, s4, i) == OnTransportClose(o, Tick(s4, 0), TransportFailure);
    s := Step(o, s4, i);
    Unrolled(o, Initial(), LosingTwice(), 4);
  }

  lemma QuietRetry(o: Options, s: State, accepts: nat -> bool)
    requires At(s, TransientFailure, 1, 3, map[], true) && s.link.retry == Some(1) && accepts(3)
    ensures var r := OnRetryTimer(o, s, Up, accepts);
      At(r, Reconnecting, 2, 4, map[3 := Handshake(true)], true) && r.wire.up
  {
  }

  lemma RetryRun(o: Options) returns (s: State)
    requires WithinLimit(o, 1)
    ensures s == RunFrom(o, Initial(), LosingTwice()[..6])
    ensures At(s, Reconnecting, 2, 4, map[3 := Handshake(true)], true) && s.wire.up
  {
    var i := LosingTwice()[5];
    var s5 := LossRun(o);
    QuietRetry(o, Tick(s5, 0), i.accepts);
    assert Lists(i.order, s5.subs.active);
    s := Step(o, s5, i);
    assert s == OnRetryTimer(o, Tick(s5, 0), Up, i.accepts);
    Unrolled(o, Initial(), LosingTwice(), 5);
  }

  /** With nothing subscribed the barrier only replays the stop. */
  lemma OnlyReplays(o: Options, s: State, accepts: nat -> bool)
    requires s.subs.active == map[] && s.engaged && s.fault == NoFault && s.table.rpcs == map[] && Takes(s.wire, accepts)
    ensures var r := Restore(o, s, accepts, []);
      && r.link == s.link && r.subs == s.subs && r.engaged && r.hb == s.hb && r.clock == s.clock && r.fault == NoFault
      && r.wire.conn == s.wire.conn && r.wire.greeted == s.wire.greeted && r.wire.nextId == s.wire.nextId + 1
      && r.table.rpcs == map[s.wire.nextId := Replay] && r.barrier == Barrier(0, true, 0)
  {
  }

  /** The reconnect handshake is answered. */
  lemma GreetedReplays(o: Options, s: State, accepts: nat -> bool)
    requires At(s, Reconnecting, 2, 4, map[3 := Handshake(true)], true) && s.wire.up && accepts(4)
    ensures Replaying(o, HandleResponse(o, Noted(s), Greeting(3), accepts, []))
  {
    var s7 := Noted(s).(table := s.table.(rpcs := s.table.rpcs - {3}), wire := s.wire.(okd := s.wire.okd + {3}));
    assert s.table.rpcs - {3} == map[];
    OnlyReplays(o, s7.(hb := Heartbeat.Start(o.heartbeat, s7.hb, s7.clock), wire := s7.wire.(greeted := true)), accepts);
    assert HandleResponse(o, Noted(s), Greeting(3), accepts, []) == CompleteHandshake(o, s7, true, Greeting(3), accepts, []);
  }

  /** The state with the replayed stop in flight and nothing else to wait for. */
  predicate Replaying(o: Options, s: State) {
    && At(s, Reconnecting, 2, 5, map[4 := Replay], true) && s.wire.greeted && s.barrier.pending == 0
    && (o.heartbeat.interval > 0 ==> s.hb == Heartbeat.Hb(s.clock, 0, None, Some(s.clock + o.heartbeat.interval)))
  }

  lemma GreetedStep(o: Options, s: State) returns (r: State)
    requires At(s, Reconnecting, 2, 4, map[3 := Handshake(true)], true) && s.wire.up
    ensures r == Step(o, s, Plain(Inbound(Greeting(3)))) && Replaying(o, r)
  {
    var i := Plain(Inbound(Greeting(3)));
    assert Lists(i.order, s.subs.active) && Tick(s, 0) == s;
    GreetedReplays(o, s, i.accepts);
    InboundStep(o, s, i);
    r := Step(o, s, i);
  }

  lemma ReplayRun(o: Options) returns (s: State)
    requires WithinLimit(o, 1)
    ensures s == RunFrom(o, Initial(), LosingTwice()[..7]) && Replaying(o, s)
  {
    var s6 := RetryRun(o);
    s := GreetedStep(o, s6);
    assert LosingTwice()[6] == Plain(Inbound(Greeting(3)));
    Unrolled(o, Initial(), LosingTwice(), 6);
  }

  lemma OverflowRun(o: Options)
    requires WithinLimit(o, 1)
    ensures Run(o, LosingTwice()).fault == StackOverflow
  {
    var s := ReplayRun(o);
    assert s.table.rpcs[4] == Replay;
    Unrolled(o, Initial(), LosingTwice(), 7);
    assert LosingTwice()[..8] == LosingTwice();
  }

  lemma ReconnectingCounts(trace: seq<ConnectionState>)
    requires trace != [] && trace[|trace| - 1] == Reconnecting
    ensures RetriesSinceReady(trace) >= 1
  {
    assert RetriesSinceReady(trace) == RetriesSinceReady(trace[..|trace| - 1]) + 1;
  }

  /** Without retries there is no barrier. */
  lemma NoBarrierWithoutRetries(o: Options, s: State)
    requires Inv(o, s) && !WithinLimit(o, 1)
    ensures !AtBarrier(s)
  {
    if s.link.st == Reconnecting {
      ReconnectingCounts(s.link.trace);
    }
  }

  lemma {:induction false} NoOverflowWithoutRetries(o: Options, ins: seq<Input>)
    requires !WithinLimit(o, 1)
    ensures Run(o, ins).fault != StackOverflow
  {
    if ins != [] {
      var k := |ins| - 1;
      var s := Run(o, ins[..k]);
      NoOverflowWithoutRetries(o, ins[..k]);
      RunKeeps(o, ins[..k]);
      if s.fault == NoFault && Step(o, s, ins[k]).fault != NoFault {
        OnlyTheseFault(o, s, ins[k]);
        NoBarrierWithoutRetries(o, s);
      }
    }
  }

  ghost predicate CanOverflow(o: Options) {
    exists ins :: Run(o, ins).fault == StackOverflow
  }

  /** Some run overflows the stack exactly when the options allow a reconnect at all. */
  lemma OverflowReachableIff(o: Options)
    ensures CanOverflow(o) <==> WithinLimit(o, 1)
  {
    if WithinLimit(o, 1) {
      OverflowRun(o);
    } else {
      forall ins ensures Run(o, ins).fault != StackOverflow {
        NoOverflowWithoutRetries(o, ins);
      }
    }
  }
}
