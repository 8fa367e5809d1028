/** Every handler keeps the invariant, so every run does. */
module EngineSteps {
  import opened Types
  import opened Stream
  import opened Engine
  import opened EngineInvariant
  import opened EngineKernel
  import opened EngineSubscriptions
  import Heartbeat

  // ------------------------------------------------------------------------------------------
  // Connecting.

  lemma InitialInv(o: Options)
    ensures Inv(o, Initial())
  {
    assert OpenCalls(map[]) == {};
  }

  /** About to open a socket: the state after the transition, before the attempt. */
  ghost predicate Dialing(o: Options, s: State) {
    && SettingUp(o, s) && LinkInv(o, s.link) && !s.wire.up
    && (s.link.st == Connecting || s.link.st == Reconnecting)
    && (s.link.st == Connecting ==> !s.engaged && forall t :: t in s.subs.active ==> Fresh(s.subs.active[t]))
  }

  lemma NewSocketKeeps(o: Options, s: State, takes: bool)
    requires Dialing(o, s)
    ensures SettingUp(o, s.(wire := Take(NewSocket(s.wire), takes, HandshakeReq)))
  {
  }

  lemma GreetingKeeps(o: Options, s: State, reconnect: bool)
    requires Dialing(o, s) && (reconnect <==> s.link.st == Reconnecting)
    ensures Inv(o, s.(wire := Take(NewSocket(s.wire), true, HandshakeReq),
                      table := s.table.(rpcs := s.table.rpcs[s.wire.nextId := Handshake(reconnect)])))
  {
    NewSocketKeeps(o, s, true);
    AddSilentEntry(s.table, s.wire.nextId, Handshake(reconnect));
  }

  lemma EncodeThrowsKeeps(o: Options, s: State, code: ErrorCode)
    requires Dialing(o, s)
    ensures Good(o, AbortToFatal(s.(wire := Take(NewSocket(s.wire), false, HandshakeReq)), code))
  {
    NewSocketKeeps(o, s, false);
    AbortKeeps(o, s.(wire := Take(NewSocket(s.wire), false, HandshakeReq)), code);
  }

  lemma SendHandshakeKeeps(o: Options, s: State, reconnect: bool, accepts: nat -> bool)
    requires Dialing(o, s) && (reconnect <==> s.link.st == Reconnecting)
    ensures Good(o, SendHandshake(o, s.(wire := NewSocket(s.wire)), reconnect, accepts))
  {
    if Takes(NewSocket(s.wire), accepts) {
      GreetingKeeps(o, s, reconnect);
    } else {
      NewSocketKeeps(o, s, false);
      GiveUpKeeps(o, s.(wire := Take(NewSocket(s.wire), false, HandshakeReq)));
    }
  }

  lemma EstablishKeeps(o: Options, s: State, reconnect: bool, dial: Dial, accepts: nat -> bool)
    requires Dialing(o, if reconnect then s else s.(link := Enter(s.link, Connecting)))
    requires reconnect <==> s.link.st == Reconnecting
    requires !reconnect ==> s.link.st == Idle
    ensures Good(o, EstablishConnection(o, s, reconnect, dial, accepts))
  {
    var s0 := if reconnect then s else s.(link := Enter(s.link, Connecting));
    match dial
    case Refused(code) => FailConnectionKeeps(o, s0, code);
    case EncodeThrows(code) => EncodeThrowsKeeps(o, s0, code);
    case Up => SendHandshakeKeeps(o, s0, reconnect, accepts);
  }

  lemma ConnectKeeps(o: Options, s: State, dial: Dial, accepts: nat -> bool)
    requires Inv(o, s) && s.link.st == Idle
    ensures Good(o, EstablishConnection(o, s, false, dial, accepts))
  {
    EnterKeeps(o, s.link, Connecting);
    var s0 := s.(link := Enter(s.link, Connecting));
    forall t | t in s.subs.active ensures Fresh(s.subs.active[t]) {
      assert Fits(s.link, s.wire, s.subs.active[t]);
    }
    assert Dialing(o, s0);
    EstablishKeeps(o, s, false, dial, accepts);
  }

  lemma RetryTransition(o: Options, l: Link)
    requires LinkInv(o, l) && l.st == TransientFailure
    ensures LinkInv(o, Enter(l.(attempt := l.retry.value, retry := None), Reconnecting))
  {
    var tr := l.trace + [Reconnecting];
    assert tr[..|tr| - 1] == l.trace;
  }

  lemma RetryKeeps(o: Options, s: State, dial: Dial, accepts: nat -> bool)
    requires Inv(o, s)
    ensures Good(o, OnRetryTimer(o, s, dial, accepts))
  {
    if s.link.st == TransientFailure {
      RetryTransition(o, s.link);
      var l := s.link.(attempt := s.link.retry.value, retry := None);
      var s0 := s.(link := Enter(l, Reconnecting));
      forall t | t in s.subs.active ensures Quiet(s.subs.active[t]) {
        assert Fits(s.link, s.wire, s.subs.active[t]);
      }
      assert Dialing(o, s0);
      EstablishKeeps(o, s0, true, dial, accepts);
    }
  }

  // ------------------------------------------------------------------------------------------
  // The handshake and the barrier.

  /** The handshake entry has left the table; nothing else was in it. */
  ghost predicate Answered(o: Options, s: State) {
    && SettingUp(o, s) && LinkInv(o, s.link) && StopInv(s) && s.wire.conn > 0
    && (s.link.st == Connecting || s.link.st == Reconnecting) && !s.wire.greeted && s.wire.up
    && (s.link.st == Connecting ==> forall t :: t in s.subs.active ==> Fresh(s.subs.active[t]))
  }

  lemma HandshakeAnswered(o: Options, s: State, rid: nat, okd: set<nat>)
    requires Inv(o, s) && rid in s.table.rpcs && s.table.rpcs[rid].Handshake?
    ensures s.table.rpcs[rid].reconnect <==> s.link.st == Reconnecting
    ensures Answered(o, s.(table := s.table.(rpcs := s.table.rpcs - {rid}), wire := s.wire.(okd := okd)))
  {
    SilentEntry(s.table, rid);
    assert s.table.rpcs - {rid} == map[];
    forall t | t in s.subs.active ensures Quiet(s.subs.active[t]) && (s.link.st == Connecting ==> Fresh(s.subs.active[t])) {
      assert Fits(s.link, s.wire, s.subs.active[t]);
    }
  }

  /** The first handshake is done. */
  function FirstReady(o: Options, s: State): State {
    s.(hb := Heartbeat.Start(o.heartbeat, s.hb, s.clock), wire := s.wire.(greeted := true), link := Enter(s.link, Ready))
  }

  lemma FirstReadyBegins(o: Options, s: State)
    requires Answered(o, s) && s.link.st == Connecting
    ensures Inv(o, FirstReady(o, s)) && FirstReady(o, s).link.attempt == s.link.attempt
    ensures forall t :: t in s.subs.active ==>
      Unsent(FirstReady(o, s).wire, s.subs.active[t]) && Fresh(s.subs.active[t])
  {
    var s1 := FirstReady(o, s);
    EnterKeeps(o, s.link, Ready);
    Heartbeat.StepsAreSound(o.heartbeat, s.hb, s.clock, true);
    forall t | t in s.subs.active ensures SendsOk(s1.wire, s.subs.active[t]) && Unsent(s1.wire, s.subs.active[t]) {
      assert SendsOk(s.wire, s.subs.active[t]);
    }
  }

  lemma FirstReadyKeeps(o: Options, s: State, accepts: nat -> bool, order: seq<string>)
    requires Answered(o, s) && s.link.st == Connecting && s.fault == NoFault && Lists(order, s.subs.active)
    ensures Good(o, SubscribeWaiting(o, FirstReady(o, s), order, accepts))
  {
    FirstReadyBegins(o, s);
    SubscribeWaitingKeeps(o, FirstReady(o, s), order, accepts);
  }

  /** The reconnect handshake is done: the barrier opens. */
  function BarrierOpened(o: Options, s: State): State {
    s.(hb := Heartbeat.Start(o.heartbeat, s.hb, s.clock), wire := s.wire.(greeted := true),
       barrier := Barrier(|s.subs.active|, s.engaged, 0))
  }

  lemma BarrierOpens(o: Options, s: State, order: seq<string>)
    requires Answered(o, s) && s.link.st == Reconnecting && Lists(order, s.subs.active)
    ensures Walking(o, BarrierOpened(o, s), order)
  {
    var s2 := BarrierOpened(o, s);
    Heartbeat.StepsAreSound(o.heartbeat, s.hb, s.clock, true);
    forall t | t in s.subs.active ensures SendsOk(s2.wire, s.subs.active[t]) && Unsent(s2.wire, s.subs.active[t]) {
      assert SendsOk(s.wire, s.subs.active[t]);
    }
  }

  /** A walk that sent every subscribe leaves them all outstanding. */
  lemma AllOutstanding(o: Options, s: State)
    requires Walking(o, s, [])
    ensures Outstanding(s.subs.active) == s.subs.active.Keys && |Outstanding(s.subs.active)| == |s.subs.active|
    ensures Doing(s.link, s.wire, s.subs.active)
  {
    forall t | t in s.subs.active ensures Waiting(s.subs.active[t]) && s.subs.active[t].barrier {
      assert t !in [];
    }
    assert Outstanding(s.subs.active) == s.subs.active.Keys;
  }

  lemma ReplaySentIds(w: Wire, m: Subs)
    requires IdsInv(w, map[], m)
    ensures IdsInv(Take(w, true, EStopReq(true)), map[w.nextId := Replay], m)
    ensures SentGrows(w, Take(w, true, EStopReq(true))) && WasSent(Take(w, true, EStopReq(true)), w.nextId, EStopReq(true))
  {
  }

  lemma ReplaySentCore(o: Options, s: State)
    requires Core(o, s) && s.table.rpcs == map[]
    ensures Core(o, s.(wire := Take(s.wire, true, EStopReq(true)), table := s.table.(rpcs := map[s.wire.nextId := Replay])))
  {
    AddSilentEntry(s.table, s.wire.nextId, Replay);
    ReplaySentIds(s.wire, s.subs);
    assert s.table.rpcs[s.wire.nextId := Replay] == map[s.wire.nextId := Replay];
  }

  lemma ReplaySentShape(l: Link, w: Wire)
    requires l.st == Reconnecting && w.greeted && Below(w.sent, w.nextId) && 0 < w.nextId
    ensures Shape(l, Take(w, true, EStopReq(true)), map[w.nextId := Replay])
    ensures StopConfirmed(w) ==> StopConfirmed(Take(w, true, EStopReq(true)))
  {
    GrowthKeeps(l, w, Take(w, true, EStopReq(true)), map[]);
  }

  lemma ReplaySentKeeps(o: Options, s: State)
    requires s.fault == NoFault && s.barrier.estop && Walking(o, s, [])
    ensures Inv(o, s.(wire := Take(s.wire, true, EStopReq(true)),
                      table := s.table.(rpcs := s.table.rpcs[s.wire.nextId := Replay])))
  {
    var r := s.(wire := Take(s.wire, true, EStopReq(true)), table := s.table.(rpcs := map[s.wire.nextId := Replay]));
    assert s.table.rpcs[s.wire.nextId := Replay] == map[s.wire.nextId := Replay];
    AllOutstanding(o, s);
    ReplaySentCore(o, s);
    ReplaySentShape(s.link, s.wire);
    assert s.wire.nextId in r.table.rpcs;
    assert Doing(r.link, r.wire, r.subs.active) && BarrierInv(r) && StopInv(r) && WireInv(r.link, r.wire);
  }

  lemma ReplayRefusedKeeps(o: Options, s: State)
    requires Core(o, s) && Alive(s)
    ensures Good(o, OnTransportClose(o, s.(wire := Take(s.wire, false, EStopReq(true)), barrier := s.barrier.(estop := false)),
                                     TransportFailure))
  {
    CloseKeeps(o, s.(wire := Take(s.wire, false, EStopReq(true)), barrier := s.barrier.(estop := false)), TransportFailure);
  }

  lemma ReplayKeeps(o: Options, s: State, accepts: nat -> bool)
    requires s.fault == NoFault && s.barrier.estop
    requires Walked(o, s)
    ensures Good(o, DoEStopReplay(o, s, accepts))
  {
    if Takes(s.wire, accepts) {
      ReplaySentKeeps(o, s);
    } else {
      ReplayRefusedKeeps(o, s);
    }
  }

  /** The walk changes neither the acknowledged stop nor the barrier. */
  lemma {:induction false} WalkFrame(o: Options, s: State, ts: seq<string>, accepts: nat -> bool)
    ensures var r := Resubscribe(o, s, ts, accepts); r.engaged == s.engaged && r.barrier == s.barrier
    decreases |ts|
  {
    if ts != [] && s.fault == NoFault && ts[0] in s.subs.active {
      SendFrame(o, Readied(s, ts[0]), ts[0], ResumeFrom(o, s.subs.active[ts[0]].slot), accepts);
      WalkFrame(o, Trampled(ResubscribeOne(o, s, ts[0], accepts)), ts[1..], accepts);
    }
  }

  lemma SendFrame(o: Options, s: State, t: string, since: nat, accepts: nat -> bool)
    requires t in s.subs.active
    ensures var r := SendSubscribe(o, s, t, since, accepts); r.engaged == s.engaged && r.barrier == s.barrier
  {
  }

  lemma EmptyBarrierKeeps(o: Options, s: State)
    requires Answered(o, s) && s.link.st == Reconnecting && |s.subs.active| == 0 && !s.engaged
    ensures Good(o, EnterReady(BarrierOpened(o, s)))
  {
    var s2 := BarrierOpened(o, s);
    Heartbeat.StepsAreSound(o.heartbeat, s.hb, s.clock, true);
    assert s2.subs.active == map[];
    ReadyKeeps(o, s2);
  }

  /** After the walk, with no stop to replay. */
  lemma WalkEndKeeps(o: Options, s: State)
    requires Walked(o, s) && s.fault == NoFault && !s.barrier.estop && s.barrier.pending > 0
    ensures Inv(o, s)
  {
    if s.link.st == Reconnecting {
      AllOutstanding(o, s);
    }
  }

  lemma BarrierKeeps(o: Options, s: State, accepts: nat -> bool, order: seq<string>)
    requires Answered(o, s) && s.link.st == Reconnecting && s.fault == NoFault && Lists(order, s.subs.active)
    requires |s.subs.active| > 0 || s.engaged
    ensures var s3 := Resubscribe(o, BarrierOpened(o, s), order, accepts);
      Good(o, if s3.fault == NoFault && s3.barrier.estop then DoEStopReplay(o, s3, accepts) else s3)
  {
    var s2 := BarrierOpened(o, s);
    BarrierOpens(o, s, order);
    ResubscribeKeeps(o, s2, order, accepts);
    WalkFrame(o, s2, order, accepts);
    var s3 := Resubscribe(o, s2, order, accepts);
    if s3.fault == NoFault {
      if s3.barrier.estop {
        ReplayKeeps(o, s3, accepts);
      } else {
        WalkEndKeeps(o, s3);
      }
    }
  }

  lemma HandshakeKeeps(o: Options, s: State, resp: Response, accepts: nat -> bool, order: seq<string>)
    requires Answered(o, s) && s.fault == NoFault && Lists(order, s.subs.active)
    ensures Good(o, CompleteHandshake(o, s, s.link.st == Reconnecting, resp, accepts, order))
  {
    if !resp.success || !resp.hasHandshake {
      FailConnectionKeeps(o, s, if resp.success then InternalError else resp.code);
    } else if s.link.st == Connecting {
      FirstReadyKeeps(o, s, accepts, order);
    } else if |s.subs.active| == 0 && !s.engaged {
      EmptyBarrierKeeps(o, s);
    } else {
      BarrierKeeps(o, s, accepts, order);
    }
  }

  // ------------------------------------------------------------------------------------------
  // Requests, responses and their timeouts.

  lemma CallKeeps(o: Options, s: State, op: Op, accepts: nat -> bool)
    requires Inv(o, s)
    ensures Inv(o, OnCall(s, op, accepts))
  {
    SettledCall(s.table, Outcome(false, Disconnected));
    SettledCall(s.table, Outcome(false, TransportFailure));
    if s.link.st == Ready && s.wire.up {
      var takes := Takes(s.wire, accepts);
      TakeKeeps(o, s, takes, RequestOf(op));
      OpenedCall(s.table, s.wire.nextId, User(|s.table.calls|, op));
    }
  }

  lemma SettledCallKeeps(o: Options, s: State, out: Outcome)
    requires Inv(o, s)
    ensures Inv(o, SettleCall(NewCall(s), |s.table.calls|, out))
  {
    SettledCall(s.table, out);
  }

  lemma SentUnsubscribeKeeps(o: Options, s: State, t: string)
    requires Inv(o, s) && s.link.st == Ready && t in s.subs.active
    ensures var c := |s.table.calls|;
      Inv(o, s.(wire := Take(s.wire, true, UnsubscribeReq(t)),
                table := Table(s.table.rpcs[s.wire.nextId := Unsub(c, t)], s.table.calls + [[]]),
                subs := WithSlot(s.subs, t, s.subs.active[t].slot.(unsubSent := true))))
  {
    var slot := s.subs.active[t].slot;
    TakeKeeps(o, s, true, UnsubscribeReq(t));
    assert EntryOk(s.subs.active[t]);
    SlotChangeKeeps(o, s.(wire := Take(s.wire, true, UnsubscribeReq(t))), t, slot.(unsubSent := true));
    OpenedCall(s.table, s.wire.nextId, Unsub(|s.table.calls|, t));
  }

  lemma UnsubscribeSyncKeeps(o: Options, s: State, t: string, open: bool, accepts: nat -> bool)
    requires Inv(o, s)
    ensures Inv(o, OnUnsubscribeSync(s, t, open, accepts))
  {
    if t !in s.subs.active {
      SettledCallKeeps(o, s, Outcome(true, Ok));
    } else if s.link.st != Ready || !s.wire.up || !open {
      LeaveKeeps(o, s, t, Disconnected, Disconnected);
      SettledCallKeeps(o, s.(subs := Retire(s.subs, t, Disconnected, Disconnected), barrier := Abandon(s, t)),
                       Outcome(false, Disconnected));
    } else if Takes(s.wire, accepts) {
      SentUnsubscribeKeeps(o, s, t);
    } else {
      TakeKeeps(o, s, false, UnsubscribeReq(t));
      SettledCallKeeps(o, s.(wire := Take(s.wire, false, UnsubscribeReq(t))), Outcome(false, TransportFailure));
    }
  }

  /** An answered or timed-out user request outside the barrier. */
  lemma UserEntryKeeps(o: Options, s: State, rid: nat, c: nat, out: Outcome)
    requires Inv(o, s) && rid in s.table.rpcs && CallOf(s.table.rpcs[rid]) == Some(c)
    ensures s.link.st == Ready
    ensures Inv(o, s.(table := Table(s.table.rpcs - {rid}, Settle(s.table.calls, c, out))))
  {
    SettleEntry(s.table, rid, c, out);
  }

  lemma OkdKeeps(o: Options, s: State, okd: set<nat>)
    requires Inv(o, s) && s.wire.okd <= okd
    ensures Inv(o, s.(wire := s.wire.(okd := okd)))
  {
    GrowthKeeps(s.link, s.wire, s.wire.(okd := okd), s.table.rpcs);
  }

  /** The request number of an engaging stop that succeeds joins the confirmed ones. */
  lemma EngageKeeps(o: Options, s: State, rid: nat, engage: bool)
    requires Inv(o, s) && s.link.st == Ready
    requires engage ==> rid in s.wire.okd && WasSent(s.wire, rid, EStopReq(true))
    ensures Inv(o, s.(engaged := engage))
  {
  }

  lemma CompleteCallKeeps(o: Options, s: State, rid: nat, resp: Response)
    requires Inv(o, s) && rid in s.table.rpcs && s.table.rpcs[rid].User?
    ensures var s1 := s.(table := s.table.(rpcs := s.table.rpcs - {rid}),
                         wire := if Succeeds(resp) then s.wire.(okd := s.wire.okd + {rid}) else s.wire);
      Inv(o, CompleteCall(s1, s.table.rpcs[rid].call, s.table.rpcs[rid].op, resp))
  {
    var j := s.table.rpcs[rid];
    var out := ReplyTo(j.op, resp);
    var okd := if Succeeds(resp) then s.wire.okd + {rid} else s.wire.okd;
    UserEntryKeeps(o, s, rid, j.call, out);
    assert WasSent(s.wire, rid, RequestOf(j.op));
    OkdKeeps(o, s.(table := Table(s.table.rpcs - {rid}, Settle(s.table.calls, j.call, out))), okd);
    if j.op.EStop? && out.ok {
      var s2 := s.(table := Table(s.table.rpcs - {rid}, Settle(s.table.calls, j.call, out)),
                   wire := s.wire.(okd := okd));
      EngageKeeps(o, s2, rid, j.op.engage);
    }
  }

  lemma CompleteUnsubscribeKeeps(o: Options, s: State, rid: nat, resp: Response)
    requires Inv(o, s) && rid in s.table.rpcs && s.table.rpcs[rid].Unsub?
    ensures var s1 := s.(table := s.table.(rpcs := s.table.rpcs - {rid}),
                         wire := if Succeeds(resp) then s.wire.(okd := s.wire.okd + {rid}) else s.wire);
      Inv(o, CompleteUnsubscribe(s1, s.table.rpcs[rid].call, s.table.rpcs[rid].topic, resp))
  {
    var j := s.table.rpcs[rid];
    var code := if resp.success then Ok else resp.code;
    var okd := if Succeeds(resp) then s.wire.okd + {rid} else s.wire.okd;
    UserEntryKeeps(o, s, rid, j.call, Outcome(code == Ok, code));
    var s2 := s.(table := Table(s.table.rpcs - {rid}, Settle(s.table.calls, j.call, Outcome(code == Ok, code))));
    OkdKeeps(o, s2, okd);
    if j.topic in s.subs.active {
      LeaveKeeps(o, s2.(wire := s.wire.(okd := okd)), j.topic, code, code);
    }
  }

  lemma ReplayAnswered(o: Options, s: State, rid: nat, resp: Response)
    requires Inv(o, s) && rid in s.table.rpcs && s.table.rpcs[rid] == Replay
    ensures var s1 := s.(table := s.table.(rpcs := s.table.rpcs - {rid}),
                         wire := if Succeeds(resp) then s.wire.(okd := s.wire.okd + {rid}) else s.wire);
      Good(o, CompleteReplay(o, s1, resp))
  {
    SilentEntry(s.table, rid);
    assert s.table.rpcs - {rid} == map[];
    var w := if Succeeds(resp) then s.wire.(okd := s.wire.okd + {rid}) else s.wire;
    var s1 := s.(table := s.table.(rpcs := map[]), wire := w, barrier := s.barrier.(estop := false));
    if !Succeeds(resp) {
      CloseKeeps(o, s1, if resp.success then resp.rpcCode else resp.code);
    } else {
      assert rid in w.okd && WasSent(w, rid, EStopReq(true));
      GrowthKeeps(s.link, s.wire, w, map[]);
      if s1.barrier.pending == 0 {
        ReadyKeeps(o, s1);
      }
    }
  }

  lemma ResponseKeeps(o: Options, s: State, resp: Response, accepts: nat -> bool, order: seq<string>)
    requires Inv(o, s) && s.fault == NoFault && Lists(order, s.subs.active)
    ensures Good(o, HandleResponse(o, s, resp, accepts, order))
  {
    if resp.hasSubscribe {
      AckKeeps(o, s, resp, accepts);
    } else if resp.requestId in s.table.rpcs {
      var rid := resp.requestId;
      var okd := if Succeeds(resp) then s.wire.okd + {rid} else s.wire.okd;
      match s.table.rpcs[rid]
      case Handshake(reconnect) =>
        HandshakeAnswered(o, s, rid, okd);
        HandshakeKeeps(o, s.(table := s.table.(rpcs := s.table.rpcs - {rid}), wire := s.wire.(okd := okd)),
                       resp, accepts, order);
      case Replay => ReplayAnswered(o, s, rid, resp);
      case User(_, _) => CompleteCallKeeps(o, s, rid, resp);
      case Unsub(_, _) => CompleteUnsubscribeKeeps(o, s, rid, resp);
      case HeartbeatPing =>
        SilentEntry(s.table, rid);
        OkdKeeps(o, s.(table := s.table.(rpcs := s.table.rpcs - {rid})), okd);
    }
  }

  lemma RpcTimeoutKeeps(o: Options, s: State, rid: nat)
    requires Inv(o, s)
    ensures Good(o, OnRpcTimeout(o, s, rid))
  {
    if rid in s.table.rpcs {
      match s.table.rpcs[rid]
      case Handshake(_) =>
        SilentEntry(s.table, rid);
        assert s.table.rpcs - {rid} == map[];
      case Replay =>
        SilentEntry(s.table, rid);
        CloseKeeps(o, s.(table := s.table.(rpcs := s.table.rpcs - {rid}), barrier := s.barrier.(estop := false)), Timeout);
      case User(c, _) => UserEntryKeeps(o, s, rid, c, Outcome(false, Timeout));
      case Unsub(c, _) => UserEntryKeeps(o, s, rid, c, Outcome(false, Timeout));
      case HeartbeatPing =>
    }
  }

  /** A close asked for between steps. */
  lemma CloseNowKeeps(o: Options, s: State, reason: ErrorCode)
    requires Inv(o, s) && s.link.st != Idle
    ensures Good(o, OnTransportClose(o, s, reason))
  {
    if !Terminal(s.link.st) {
      CloseKeeps(o, s, reason);
    }
  }

  lemma AckTimeoutKeeps(o: Options, s: State, rid: nat, held: bool)
    requires Inv(o, s)
    ensures Good(o, OnAckTimeout(o, s, rid, held))
  {
    if rid in s.subs.timers {
      CloseNowKeeps(o, s, Timeout);
    }
  }

  // ------------------------------------------------------------------------------------------
  // The heartbeat.

  lemma HeartbeatChangeKeeps(o: Options, s: State, h: Heartbeat.Hb)
    requires Inv(o, s) && Heartbeat.Sound(o.heartbeat, h, s.clock)
    ensures Inv(o, s.(hb := h))
  {
  }

  lemma SendHeartbeatKeeps(o: Options, s: State, accepts: nat -> bool)
    requires Inv(o, s) && s.link.st == Ready
    ensures Good(o, SendHeartbeat(o, s, accepts))
  {
    var takes := Takes(s.wire, accepts);
    TakeKeeps(o, s, takes, PingReq);
    AddSilentEntry(s.table, s.wire.nextId, HeartbeatPing);
    var s1 := s.(table := s.table.(rpcs := s.table.rpcs[s.wire.nextId := HeartbeatPing]),
                 wire := Take(s.wire, takes, PingReq));
    if takes {
      assert Inv(o, s1);
    } else {
      CloseKeeps(o, s1, TransportFailure);
    }
  }

  lemma IdleTimerKeeps(o: Options, s: State, open: bool, accepts: nat -> bool)
    requires Inv(o, s)
    ensures Good(o, OnIdleTimer(o, s, open, accepts))
  {
    Heartbeat.StepsAreSound(o.heartbeat, s.hb, s.clock, s.wire.up && open);
    HeartbeatChangeKeeps(o, s, s.hb.(idle := None));
    var (h, ask) := Heartbeat.OnIdle(o.heartbeat, s.hb, s.clock, s.wire.up && open);
    HeartbeatChangeKeeps(o, s, h);
    if s.link.st == Ready {
      SendHeartbeatKeeps(o, s.(hb := h), accepts);
    }
  }

  lemma PingDeadlineKeeps(o: Options, s: State, open: bool, accepts: nat -> bool)
    requires Inv(o, s)
    ensures Good(o, OnPingDeadline(o, s, open, accepts))
  {
    if s.hb.deadline.Some? && s.hb.deadline.value <= s.clock {
      Heartbeat.StepsAreSound(o.heartbeat, s.hb, s.clock, s.wire.up && open);
      HeartbeatChangeKeeps(o, s, s.hb.(deadline := None));
      var (h, ask) := Heartbeat.OnDeadline(o.heartbeat, s.hb, s.clock, s.wire.up && open);
      HeartbeatChangeKeeps(o, s, h);
      if s.link.st == Ready {
        SendHeartbeatKeeps(o, s.(hb := h), accepts);
        CloseKeeps(o, s.(hb := h), TransportFailure);
      }
    }
  }

  // ------------------------------------------------------------------------------------------
  // Steps and runs.

  lemma ShutdownKeeps(o: Options, s: State)
    requires Inv(o, s)
    ensures Inv(o, OnClose(s))
  {
    SettleAllKeeps(s.table, Outcome(false, Cancelled));
    ShutAllKeeps(s.subs, Cancelled);
    if s.link.st != Shutdown { EnterKeeps(o, s.link.(retry := None), Shutdown); }
  }

  lemma NotedKeeps(o: Options, s: State)
    requires Inv(o, s)
    ensures Inv(o, Noted(s))
  {
    Heartbeat.StepsAreSound(o.heartbeat, s.hb, s.clock, true);
    HeartbeatChangeKeeps(o, s, Heartbeat.OnInbound(s.hb, s.clock));
  }

  lemma InboundKeeps(o: Options, s: State, e: Event, accepts: nat -> bool, order: seq<string>)
    requires Inv(o, s) && s.fault == NoFault && Lists(order, s.subs.active)
    requires e.Inbound? || e.Pushed?
    ensures Good(o, OnInbound(o, s, e, accepts, order))
  {
    if s.wire.conn > 0 {
      NotedKeeps(o, s);
      var s1 := Noted(s);
      if e.Inbound? {
        ResponseKeeps(o, s1, e.resp, accepts, order);
      } else {
        PushKeeps(o, s1, e.topic, e.push);
      }
    }
  }

  lemma HandleUserKeeps(o: Options, s: State, i: Input)
    requires Inv(o, s) && s.fault == NoFault
    ensures Good(o, HandleUser(o, s, i))
  {
    match i.event
    case Connect(dial) => if s.link.st == Idle { ConnectKeeps(o, s, dial, i.accepts); }
    case Close => ShutdownKeeps(o, s);
    case Subscribe(t, semantics, userClosed) => SubscribeKeeps(o, s, t, semantics, userClosed, i.accepts);
    case UnsubscribeAsync(t) => UnsubscribeAsyncKeeps(o, s, t, i.open, i.accepts);
    case UnsubscribeSync(t) => UnsubscribeSyncKeeps(o, s, t, i.open, i.accepts);
    case Call(op) => CallKeeps(o, s, op, i.accepts);
    case _ =>
  }

  lemma HandleTimerKeeps(o: Options, s: State, i: Input)
    requires Inv(o, s) && s.fault == NoFault
    ensures Good(o, HandleTimer(o, s, i))
  {
    match i.event
    case RpcTimeout(rid) => RpcTimeoutKeeps(o, s, rid);
    case AckTimeout(rid, held) => AckTimeoutKeeps(o, s, rid, held);
    case RetryTimer(dial) => RetryKeeps(o, s, dial, i.accepts);
    case IdleTimer => IdleTimerKeeps(o, s, i.open, i.accepts);
    case PingDeadline => PingDeadlineKeeps(o, s, i.open, i.accepts);
    case _ =>
  }

  lemma HandleSocketKeeps(o: Options, s: State, i: Input)
    requires Inv(o, s) && s.fault == NoFault && Lists(i.order, s.subs.active)
    ensures Good(o, HandleSocket(o, s, i))
  {
    match i.event
    case Inbound(_) => InboundKeeps(o, s, i.event, i.accepts, i.order);
    case Pushed(_, _) => InboundKeeps(o, s, i.event, i.accepts, i.order);
    case TransportClosed(clean) =>
      if s.wire.conn > 0 { CloseNowKeeps(o, s, if clean then Cancelled else TransportFailure); }
    case _ =>
  }

  lemma HandleKeeps(o: Options, s: State, i: Input)
    requires Inv(o, s) && s.fault == NoFault && Lists(i.order, s.subs.active)
    ensures Good(o, Handle(o, s, i))
  {
    if FromUser(i.event) {
      HandleUserKeeps(o, s, i);
    } else if FromSocket(i.event) {
      HandleSocketKeeps(o, s, i);
    } else {
      HandleTimerKeeps(o, s, i);
    }
  }

  lemma ClockKeeps(o: Options, s: State, elapsed: nat)
    requires Inv(o, s)
    ensures Inv(o, Tick(s, elapsed))
  {
    Heartbeat.WaitingIsSound(o.heartbeat, s.hb, s.clock, s.clock + elapsed);
  }

  lemma StepKeeps(o: Options, s: State, i: Input)
    requires Good(o, s)
    ensures Good(o, Step(o, s, i))
  {
    if s.fault == NoFault && Lists(i.order, s.subs.active) {
      var s1 := Tick(s, i.elapsed);
      ClockKeeps(o, s, i.elapsed);
      assert s1.fault == NoFault && s1.subs == s.subs;
      HandleKeeps(o, s1, i);
      assert Step(o, s, i) == Handle(o, s1, i);
    }
  }

  lemma {:induction false} RunFromKeeps(o: Options, s: State, ins: seq<Input>)
    requires Good(o, s)
    ensures Good(o, RunFrom(o, s, ins))
  {
    if ins != [] {
      var k := |ins| - 1;
      RunFromKeeps(o, s, ins[..k]);
      StepKeeps(o, RunFrom(o, s, ins[..k]), ins[k]);
    }
  }

  /** A step that brings a response. */
  lemma InboundStep(o: Options, s: State, i: Input)
    requires s.fault == NoFault && s.wire.conn > 0 && Lists(i.order, s.subs.active) && i.event.Inbound?
    ensures Step(o, s, i) == HandleResponse(o, Noted(Tick(s, i.elapsed)), i.event.resp, i.accepts, i.order)
  {
  }

  lemma TwoMore(o: Options, ins: seq<Input>, a: Input, b: Input)
    ensures Run(o, ins + [a, b]) == Step(o, Step(o, Run(o, ins), a), b)
  {
    var all := ins + [a, b];
    assert all[..|all| - 1] == ins + [a] && (ins + [a])[..|ins + [a]| - 1] == ins;
    assert Run(o, ins + [a]) == Step(o, Run(o, ins), a);
  }

  /** Every run keeps the invariant up to its first fault. */
  lemma RunKeeps(o: Options, ins: seq<Input>)
    ensures Good(o, Run(o, ins))
  {
    InitialInv(o);
    RunFromKeeps(o, Initial(), ins);
  }
}
