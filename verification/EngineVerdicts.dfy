/** How a connection attempt ends: which refusals end the session and which are retried, what a
    handshake that is answered leads to, and what is asked for on the first Ready. */
module EngineVerdicts {
  import opened Types
  import opened Stream
  import opened Engine
  import opened EngineInvariant
  import opened EngineKernel
  import opened EngineSubscriptions
  import opened EngineSteps
  import opened EngineBarrier
  import opened EngineMemory
  import opened EngineFate
  import opened EngineTelling
  import Heartbeat

  /** A failed attempt: the end with this code if no retry can help; a retry, with everything else
      as before, while attempts are left; and the end of the attempts otherwise. */
  ghost predicate Verdict(o: Options, s: State, r: State, attempt: nat, code: ErrorCode) {
    && r.fault == NoFault && r.wire.up == false && r.table.calls == s.table.calls && r.table.rpcs == map[]
    && if EndsSession(code) then r.link.st == Fatal && Closes(s.subs, r.subs, None, code)
       else if WithinLimit(o, attempt + 1)
       then r.link.st == TransientFailure && r.link.retry == Some(attempt + 1) && r.subs == s.subs
       else r.link.st == Fatal && Closes(s.subs, r.subs, None, TransportFailure)
  }

  /** The socket is there and the handshake on its way. */
  predicate Greeting(s: State, r: State, st: ConnectionState) {
    && r.fault == NoFault && r.link.st == st && r.wire.up && r.wire.conn == s.wire.conn + 1 && r.subs == s.subs
    && r.table.rpcs == map[s.wire.nextId := Handshake(st == Reconnecting)]
    && WasSent(r.wire, s.wire.nextId, HandshakeReq)
  }

  /** How an attempt goes on from the dial. */
  ghost predicate Dialed(o: Options, s: State, r: State, st: ConnectionState, attempt: nat, dial: Dial, accepts: nat -> bool) {
    match dial
    case Refused(code) => Verdict(o, s, r, attempt, code)
    case EncodeThrows(code) => r.fault == NoFault && r.link.st == Fatal && Closes(s.subs, r.subs, None, code)
    case Up => if accepts(s.wire.nextId) then Greeting(s, r, st) else Verdict(o, s, r, attempt, TransportFailure)
  }

  lemma NobodyFails(t: Table, code: ErrorCode)
    requires t.rpcs == map[]
    ensures SettleAll(t, Outcome(false, code)) == t
  {
    assert OpenCalls(t.rpcs) == {};
  }

  lemma AbortVerdict(o: Options, s: State, code: ErrorCode)
    requires TableInv(s.table) && s.table.rpcs == map[] && s.fault == NoFault
    ensures var r := AbortToFatal(s, code);
      && r.fault == NoFault && !r.wire.up && r.table == s.table && r.link.st == Fatal && Closes(s.subs, r.subs, None, code)
  {
    NobodyFails(s.table, code);
    AbortEnds(s, code);
  }

  lemma GiveUpVerdict(o: Options, s: State, code: ErrorCode)
    requires TableInv(s.table) && s.table.rpcs == map[] && s.fault == NoFault && !Terminal(s.link.st) && !EndsSession(code)
    ensures Verdict(o, s, GiveUpConnection(o, s), s.link.attempt, code)
  {
    AbortVerdict(o, s.(wire := s.wire.(up := false), link := Enter(s.link, TransientFailure)), TransportFailure);
  }

  lemma FailedVerdict(o: Options, s: State, code: ErrorCode)
    requires TableInv(s.table) && s.table.rpcs == map[] && s.fault == NoFault && !Terminal(s.link.st)
    ensures Verdict(o, s, FailConnection(o, s, code), s.link.attempt, code)
  {
    Categories(code);
    if EndsSession(code) {
      AbortVerdict(o, s, code);
    } else {
      GiveUpVerdict(o, s, code);
    }
  }

  lemma VerdictEarlier(o: Options, s: State, s1: State, r: State, attempt: nat, code: ErrorCode)
    requires s1.subs == s.subs && s1.table == s.table && Verdict(o, s1, r, attempt, code)
    ensures Verdict(o, s, r, attempt, code)
  {
  }

  lemma RefusedGreeting(o: Options, s: State, reconnect: bool, accepts: nat -> bool)
    requires TableInv(s.table) && s.table.rpcs == map[] && s.fault == NoFault
    requires (s.link.st == Connecting || s.link.st == Reconnecting) && !accepts(s.wire.nextId)
    ensures Verdict(o, s, SendHandshake(o, s.(wire := NewSocket(s.wire)), reconnect, accepts), s.link.attempt, TransportFailure)
  {
    var s1 := s.(wire := Take(NewSocket(s.wire), false, HandshakeReq));
    GiveUpVerdict(o, s1, TransportFailure);
    VerdictEarlier(o, s, s1, GiveUpConnection(o, s1), s.link.attempt, TransportFailure);
  }

  lemma DialVerdict(o: Options, s: State, reconnect: bool, dial: Dial, accepts: nat -> bool)
    requires TableInv(s.table) && s.table.rpcs == map[] && s.fault == NoFault
    requires s.link.st == if reconnect then Reconnecting else Idle
    ensures Dialed(o, s, EstablishConnection(o, s, reconnect, dial, accepts),
                   if reconnect then Reconnecting else Connecting, s.link.attempt, dial, accepts)
  {
    var s0 := if reconnect then s else s.(link := Enter(s.link, Connecting));
    var r := EstablishConnection(o, s, reconnect, dial, accepts);
    match dial
    case Refused(code) =>
      FailedVerdict(o, s0, code);
      VerdictEarlier(o, s, s0, r, s.link.attempt, code);
    case EncodeThrows(code) => AbortEnds(s0.(wire := Take(NewSocket(s0.wire), false, HandshakeReq)), code);
    case Up =>
      if !accepts(s.wire.nextId) {
        RefusedGreeting(o, s0, reconnect, accepts);
        VerdictEarlier(o, s, s0, r, s.link.attempt, TransportFailure);
      }
  }

  /** Connecting, from the start. */
  lemma ConnectVerdict(o: Options, s: State, i: Input)
    requires Inv(o, s) && s.fault == NoFault && Lists(i.order, s.subs.active) && i.event.Connect? && s.link.st == Idle
    ensures Dialed(o, s, Step(o, s, i), Connecting, 0, i.event.dial, i.accepts)
  {
    DialVerdict(o, Tick(s, i.elapsed), false, i.event.dial, i.accepts);
  }

  lemma DialedEarlier(o: Options, s: State, s1: State, r: State, st: ConnectionState, attempt: nat, dial: Dial, accepts: nat -> bool)
    requires s1.subs == s.subs && s1.table == s.table && s1.wire == s.wire && Dialed(o, s1, r, st, attempt, dial, accepts)
    ensures Dialed(o, s, r, st, attempt, dial, accepts)
  {
  }

  lemma RetryDialed(o: Options, s: State, dial: Dial, accepts: nat -> bool)
    requires TableInv(s.table) && s.table.rpcs == map[] && s.fault == NoFault
    requires s.link.st == TransientFailure && s.link.retry.Some?
    ensures Dialed(o, s, OnRetryTimer(o, s, dial, accepts), Reconnecting, s.link.retry.value, dial, accepts)
  {
    var s1 := s.(link := Enter(s.link.(attempt := s.link.retry.value, retry := None), Reconnecting));
    DialVerdict(o, s1, true, dial, accepts);
    DialedEarlier(o, s, s1, OnRetryTimer(o, s, dial, accepts), Reconnecting, s.link.retry.value, dial, accepts);
  }

  /** Connecting again, when the retry is due: the attempt that was armed is the one that counts. */
  lemma RetryVerdict(o: Options, s: State, i: Input)
    requires Inv(o, s) && s.fault == NoFault && Lists(i.order, s.subs.active) && i.event.RetryTimer? && s.link.st == TransientFailure
    ensures Dialed(o, s, Step(o, s, i), Reconnecting, s.link.attempt + 1, i.event.dial, i.accepts)
  {
    RetryDialed(o, Tick(s, i.elapsed), i.event.dial, i.accepts);
    DialedEarlier(o, s, Tick(s, i.elapsed), Step(o, s, i), Reconnecting, s.link.attempt + 1, i.event.dial, i.accepts);
  }

  /** A handshake that is refused, or answered without what it was sent for. */
  lemma HandshakeVerdict(o: Options, s: State, i: Input)
    requires Inv(o, s) && s.fault == NoFault && Lists(i.order, s.subs.active) && AnswersHandshake(s, i.event)
    requires !i.event.resp.success || !i.event.resp.hasHandshake
    ensures Verdict(o, s, Step(o, s, i), s.link.attempt, if i.event.resp.success then InternalError else i.event.resp.code)
  {
    var resp := i.event.resp;
    var s1 := Noted(Tick(s, i.elapsed));
    var code := if resp.success then InternalError else resp.code;
    ClockKeeps(o, s, i.elapsed);
    NotedKeeps(o, Tick(s, i.elapsed));
    HandshakeAnswered(o, s1, resp.requestId, Taken(s1, resp).wire.okd);
    InboundStep(o, s, i);
    FailedVerdict(o, Taken(s1, resp), code);
  }

  // ------------------------------------------------------------------------------------------
  // The first Ready.

  /** Every subscription has been asked for, from scratch, on this connection. */
  ghost predicate AllAsked(s: State) {
    forall t :: t in s.subs.active ==>
      && s.subs.active[t].slot.state == Pending && !s.subs.active[t].slot.resuming
      && WasSent(s.wire, s.subs.active[t].slot.inflight, SubscribeReq(t, 0))
  }

  /** In the walk: the topics of ts are still to be asked for. */
  ghost predicate AskedBut(s: State, ts: seq<string>) {
    && Below(s.wire.sent, s.wire.nextId) && s.wire.up && s.wire.nextId > 0 && Distinct(ts)
    && (forall i :: 0 <= i < |ts| ==> ts[i] in s.subs.active)
    && forall t :: t in s.subs.active ==>
         if t in ts then Fresh(s.subs.active[t])
         else
           && s.subs.active[t].slot.state == Pending && !s.subs.active[t].slot.resuming
           && WasSent(s.wire, s.subs.active[t].slot.inflight, SubscribeReq(t, 0))
  }

  lemma AskOne(o: Options, s: State, ts: seq<string>, accepts: nat -> bool)
    requires s.fault == NoFault && s.link.st == Ready && ts != [] && AskedBut(s, ts) && accepts(s.wire.nextId)
    ensures var r := SubscribeOne(o, s, ts[0], accepts);
      r.fault == NoFault && r.link == s.link && r.wire.nextId == s.wire.nextId + 1 && AskedBut(r, ts[1..])
  {
    var t, r := ts[0], SubscribeOne(o, s, ts[0], accepts);
    TakenSend(o, s, t, 0, accepts);
    NotAgain(ts);
    assert r.subs.active == s.subs.active[t := r.subs.active[t]];
    assert r.subs.active[t].slot.state == Pending && !r.subs.active[t].slot.resuming;
    assert WasSent(r.wire, r.subs.active[t].slot.inflight, SubscribeReq(t, 0));
  }

  lemma NotAgain(ts: seq<string>)
    requires ts != [] && Distinct(ts)
    ensures ts[0] !in ts[1..] && forall u :: u in ts <==> u == ts[0] || u in ts[1..]
  {
    assert ts == [ts[0]] + ts[1..];
  }

  lemma {:induction false} AskAll(o: Options, s: State, ts: seq<string>, accepts: nat -> bool)
    requires s.fault == NoFault && s.link.st == Ready && AskedBut(s, ts)
    requires forall k :: s.wire.nextId <= k < s.wire.nextId + |ts| ==> accepts(k)
    ensures var r := SubscribeWaiting(o, s, ts, accepts);
      r.fault == NoFault && r.link == s.link && AllAsked(r)
    decreases |ts|
  {
    if ts != [] {
      AskOne(o, s, ts, accepts);
      AskAll(o, SubscribeOne(o, s, ts[0], accepts), ts[1..], accepts);
    }
  }

  lemma FirstReadyAsked(o: Options, s: State, accepts: nat -> bool, order: seq<string>)
    requires Answered(o, s) && s.link.st == Connecting && s.fault == NoFault && Lists(order, s.subs.active)
    requires forall k :: s.wire.nextId <= k < s.wire.nextId + |order| ==> accepts(k)
    ensures var r := SubscribeWaiting(o, FirstReady(o, s), order, accepts);
      r.fault == NoFault && r.link.st == Ready && AllAsked(r)
  {
    FirstReadyBegins(o, s);
    AskAll(o, FirstReady(o, s), order, accepts);
  }

  /** On the first Ready every subscription made before it is asked for, if the socket takes the
      requests. */
  lemma FirstReadyAsksAll(o: Options, s: State, i: Input)
    requires Inv(o, s) && s.fault == NoFault && Lists(i.order, s.subs.active) && AnswersHandshake(s, i.event)
    requires i.event.resp.success && i.event.resp.hasHandshake && s.link.st == Connecting
    requires forall k :: s.wire.nextId <= k < s.wire.nextId + |i.order| ==> i.accepts(k)
    ensures Step(o, s, i).fault == NoFault && Step(o, s, i).link.st == Ready && AllAsked(Step(o, s, i))
  {
    var s1, resp := Noted(Tick(s, i.elapsed)), i.event.resp;
    ClockKeeps(o, s, i.elapsed);
    NotedKeeps(o, Tick(s, i.elapsed));
    HandshakeAnswered(o, s1, resp.requestId, Taken(s1, resp).wire.okd);
    InboundStep(o, s, i);
    FirstReadyAsked(o, Taken(s1, resp), i.accepts, i.order);
  }
}
