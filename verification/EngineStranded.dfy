/** Connection attempts that are left without socket, request and retry: exactly how they come
    about, and that they stay so. */
module EngineStranded {
  import opened Types
  import opened Stream
  import opened Engine
  import opened EngineInvariant
  import opened EngineKernel
  import opened EngineSteps
  import opened EngineBarrier
  import opened EngineMemory
  import opened EngineServing

  /** No socket, nothing in flight, no retry armed, and not Ready. */
  predicate Stranded(s: State) {
    && (s.link.st == Connecting || s.link.st == Reconnecting)
    && !s.wire.up && !s.wire.greeted && s.table.rpcs == map[] && s.link.retry == None
  }

  /** A handshake that times out drops the socket but makes no transition and arms no retry. */
  lemma HandshakeTimeoutStrands(o: Options, s: State, rid: nat)
    requires Inv(o, s) && rid in s.table.rpcs && s.table.rpcs[rid].Handshake?
    ensures Stranded(OnRpcTimeout(o, s, rid)) && OnRpcTimeout(o, s, rid).link == s.link
  {
    SilentEntry(s.table, rid);
    assert s.table.rpcs - {rid} == map[];
  }

  /** What can still move a stranded connection: a late report of the closed socket, a late
      acknowledgement timer, or the user. */
  predicate Rescues(e: Event) {
    e.TransportClosed? || e.AckTimeout? || e.Close?
  }

  lemma StrandedUser(o: Options, s: State, i: Input)
    requires Stranded(s) && FromUser(i.event) && !Rescues(i.event)
    ensures var s' := HandleUser(o, s, i); Stranded(s') && s'.link == s.link
  {
  }

  lemma StrandedAck(o: Options, s: State, resp: Response, accepts: nat -> bool, order: seq<string>)
    requires Inv(o, s) && Stranded(s)
    ensures var s' := HandleResponse(o, s, resp, accepts, order); Stranded(s') && s'.link == s.link
  {
    if resp.hasSubscribe && resp.requestId in s.subs.req && s.subs.req[resp.requestId] in s.subs.active {
      assert Fits(s.link, s.wire, s.subs.active[s.subs.req[resp.requestId]]);
    }
  }

  lemma StrandedTimer(o: Options, s: State, i: Input)
    requires Stranded(s) && !Rescues(i.event)
    ensures var s' := HandleTimer(o, s, i); Stranded(s') && s'.link == s.link
  {
  }

  /** Nothing else ever does: the attempt makes no progress of its own. */
  lemma StrandedStays(o: Options, s: State, i: Input)
    requires Inv(o, s) && s.fault == NoFault && Stranded(s) && !Rescues(i.event)
    ensures var s' := Step(o, s, i); Stranded(s') && s'.link == s.link
  {
    if Lists(i.order, s.subs.active) {
      var s1 := Tick(s, i.elapsed);
      if FromUser(i.event) {
        StrandedUser(o, s1, i);
      } else if i.event.Inbound? {
        ClockKeeps(o, s, i.elapsed);
        NotedKeeps(o, s1);
        StrandedAck(o, Noted(s1), i.event.resp, i.accepts, i.order);
      } else if !i.event.Pushed? {
        StrandedTimer(o, s1, i);
      }
    }
  }

  // ------------------------------------------------------------------------------------------
  // No other way there.

  lemma EstablishDoesNotStrand(o: Options, s: State, reconnect: bool, dial: Dial, accepts: nat -> bool)
    requires s.table.rpcs == map[] && s.fault == NoFault
    requires if reconnect then s.link.st == Reconnecting else s.link.st == Idle
    ensures !Stranded(EstablishConnection(o, s, reconnect, dial, accepts))
  {
  }

  lemma UserDoesNotStrand(o: Options, s: State, i: Input)
    requires Inv(o, s) && s.fault == NoFault && !Serving(s) && !Stranded(s) && FromUser(i.event)
    ensures !Stranded(HandleUser(o, s, i))
  {
    match i.event
    case Connect(dial) => if s.link.st == Idle { EstablishDoesNotStrand(o, s, false, dial, i.accepts); }
    case _ =>
  }

  lemma SocketDoesNotStrand(o: Options, s: State, i: Input)
    requires Inv(o, s) && s.fault == NoFault && !Serving(s) && !Stranded(s) && FromSocket(i.event)
    ensures !Stranded(HandleSocket(o, s, i))
  {
    if i.event.Inbound? && s.wire.conn > 0 {
      NotedKeeps(o, s);
      ReplyBeat(o, Noted(s), i.event.resp, i.accepts, i.order);
    }
  }

  /** The input is the timeout of the handshake in flight. */
  predicate TimesOutHandshake(s: State, e: Event) {
    e.RpcTimeout? && e.rid in s.table.rpcs && s.table.rpcs[e.rid].Handshake?
  }

  lemma TimerStrands(o: Options, s: State, i: Input)
    requires Inv(o, s) && s.fault == NoFault && !Serving(s) && !Stranded(s) && !FromUser(i.event) && !FromSocket(i.event)
    ensures Stranded(HandleTimer(o, s, i)) <==> TimesOutHandshake(s, i.event)
  {
    match i.event
    case RpcTimeout(rid) => if TimesOutHandshake(s, i.event) { HandshakeTimeoutStrands(o, s, rid); }
    case RetryTimer(dial) =>
      if s.link.st == TransientFailure {
        var s1 := s.(link := Enter(s.link.(attempt := s.link.retry.value, retry := None), Reconnecting));
        EstablishDoesNotStrand(o, s1, true, dial, i.accepts);
      }
    case _ =>
  }

  /** A step strands a connection attempt that was not stranded if and only if it is the timeout of
      its handshake. */
  lemma StrandsIff(o: Options, s: State, i: Input)
    requires Inv(o, s) && s.fault == NoFault && !Stranded(s) && Step(o, s, i).fault == NoFault
    ensures Stranded(Step(o, s, i)) <==> Lists(i.order, s.subs.active) && TimesOutHandshake(s, i.event)
  {
    if Lists(i.order, s.subs.active) {
      var s1 := Tick(s, i.elapsed);
      ClockKeeps(o, s, i.elapsed);
      if Serving(s) {
        ServingStep(o, s, i);
        assert !TimesOutHandshake(s, i.event);
      } else if FromUser(i.event) {
        UserDoesNotStrand(o, s1, i);
      } else if FromSocket(i.event) {
        SocketDoesNotStrand(o, s1, i);
      } else {
        TimerStrands(o, s1, i);
      }
    }
  }
}
