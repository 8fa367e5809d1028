/** What becomes of a connection in one step: which inputs end the session, which lose the
    connection and with what reason, what everybody is told then; and that any other input leaves
    everything alone but what it is about. */
module EngineFate {
  import opened Types
  import opened Stream
  import opened Engine
  import opened EngineInvariant
  import opened EngineKernel
  import opened EngineSubscriptions
  import opened EngineSteps
  import opened EngineBarrier
  import opened EngineMemory
  import Heartbeat

  // ------------------------------------------------------------------------------------------
  // The causes, said of the input.

  /** The credentials or the protocol version are refused: no retry can help. */
  predicate EndsSession(code: ErrorCode) {
    || code == AuthFailed || code == AuthCnNotAllowed || code == AuthSerialRevoked
    || code == AuthTokenInvalid || code == AuthTokenExpired || code == UnsupportedVersion
  }

  /** The session or the transport is in trouble: a new connection may help. */
  predicate WantsReconnect(code: ErrorCode) {
    || code == SessionTokenInvalid || code == SessionTokenExpired || code == HandshakeRequired
    || code == TransportFailure || code == Timeout
  }

  /** A refused replay that may still fall back to a subscribe from scratch. */
  predicate FallsBack(slot: Slot, reject: RejectReason) {
    slot.semantics == Event && (reject == HistoryTooOld || reject == ReplayNotSupported) && !slot.retried
  }

  predicate MatchedAck(s: State, resp: Response) {
    IsMatchedAck(s, Inbound(resp))
  }

  /** The subscription a matched acknowledgement is for. */
  function AckedSlot(s: State, resp: Response): Slot
    requires MatchedAck(s, resp)
  {
    s.subs.active[s.subs.req[resp.requestId]].slot
  }

  /** The response answers the replayed stop. */
  predicate AnswersReplay(s: State, resp: Response) {
    !resp.hasSubscribe && resp.requestId in s.table.rpcs && s.table.rpcs[resp.requestId] == Replay
  }

  /** The code with which a message ends the session: that of a refused subscribe. */
  function MessageEnds(s: State, resp: Response): Option<ErrorCode> {
    if MatchedAck(s, resp) && !resp.success && EndsSession(resp.code) then Some(resp.code) else None
  }

  /** The reason for which a message loses the connection: the replayed stop failed, a resubscribe
      met trouble, or the socket refused a fallback. */
  function MessageLoses(s: State, resp: Response, accepts: nat -> bool): Option<ErrorCode> {
    if MatchedAck(s, resp) then
      if !resp.success then
        if WantsReconnect(resp.code) && s.link.st == Reconnecting then Some(resp.code) else None
      else if !resp.accepted && FallsBack(AckedSlot(s, resp), resp.reject) && !Takes(s.wire, accepts)
      then Some(TransportFailure) else None
    else if AnswersReplay(s, resp) && !Succeeds(resp) then Some(if resp.success then resp.rpcCode else resp.code)
    else None
  }

  /** The reason for which a timer loses the connection. */
  function TimerLoses(o: Options, s: State, i: Input): Option<ErrorCode> {
    match i.event
    case RpcTimeout(rid) => if rid in s.table.rpcs && s.table.rpcs[rid] == Replay then Some(Timeout) else None
    case AckTimeout(rid, held) =>
      if rid in s.subs.timers
         && (held || (s.subs.timers[rid] in s.subs.active && s.subs.active[s.subs.timers[rid]].slot.inflight == rid))
      then Some(Timeout) else None
    case IdleTimer =>
      if s.link.st == Ready && s.hb.idle.Some? && s.hb.idle.value <= s.clock
         && s.clock - s.hb.lastInbound >= o.heartbeat.interval && i.open && !i.accepts(s.wire.nextId)
      then Some(TransportFailure) else None
    case PingDeadline =>
      if s.link.st == Ready && s.hb.deadline.Some? && s.hb.deadline.value <= s.clock
         && (s.hb.missCount + 1 >= o.heartbeat.maxMissed || (i.open && !i.accepts(s.wire.nextId)))
      then Some(TransportFailure) else None
    case _ => None
  }

  /** The code with which an input ends the session, if it does; s has the clock of the input. */
  function Ending(s: State, i: Input): Option<ErrorCode> {
    if i.event.Inbound? && s.wire.conn > 0 then MessageEnds(s, i.event.resp) else None
  }

  /** The reason for which an input loses the connection, if it does. */
  function Losing(o: Options, s: State, i: Input): Option<ErrorCode> {
    match i.event
    case Inbound(resp) => if s.wire.conn > 0 then MessageLoses(s, resp, i.accepts) else None
    case TransportClosed(clean) => if s.wire.conn > 0 then Some(if clean then Cancelled else TransportFailure) else None
    case Subscribe(t, _, userClosed) =>
      if s.link.st == Ready && !userClosed && t !in s.subs.active && !i.accepts(s.wire.nextId)
      then Some(TransportFailure) else None
    case _ => TimerLoses(o, s, i)
  }

  /** The call whose request an input completes. */
  function CallDone(s: State, i: Input): Option<nat> {
    match i.event
    case Inbound(resp) =>
      if s.wire.conn > 0 && !resp.hasSubscribe && resp.requestId in s.table.rpcs then CallOf(s.table.rpcs[resp.requestId]) else None
    case RpcTimeout(rid) => if rid in s.table.rpcs then CallOf(s.table.rpcs[rid]) else None
    case _ => None
  }

  /** The subscription an input is about. */
  function About(s: State, i: Input): Option<string> {
    match i.event
    case Pushed(t, _) => Some(t)
    case Subscribe(t, _, _) => Some(t)
    case UnsubscribeAsync(t) => Some(t)
    case UnsubscribeSync(t) => Some(t)
    case Inbound(resp) =>
      if MatchedAck(s, resp) then Some(s.subs.req[resp.requestId])
      else if !resp.hasSubscribe && resp.requestId in s.table.rpcs && s.table.rpcs[resp.requestId].Unsub?
      then Some(s.table.rpcs[resp.requestId].topic) else None
    case _ => None
  }

  // ------------------------------------------------------------------------------------------
  // The effects.

  /** A closed subscription has told its user exactly log. */
  ghost predicate Told(m: Subs, log: seq<Note>, error: ErrorCode) {
    exists r :: r in m.retired && r.state == Closed && r.log == log && r.error == error
  }

  predicate WasOpen(slot: Slot) {
    slot.state == Active || slot.state == Pending
  }

  function PauseNotes(slot: Slot, reason: ErrorCode): seq<Note> {
    if WasOpen(slot) then [PauseNote(reason)] else []
  }

  /** Every subscription is paused, and told so if it was open; no acknowledgement is awaited. */
  ghost predicate Pauses(a: Subs, b: Subs, reason: ErrorCode) {
    && b.timers == map[]
    && forall t :: t in a.active ==>
         && t in b.active && b.active[t].slot.state == Paused
         && b.active[t].slot.log == a.active[t].slot.log + PauseNotes(a.active[t].slot, reason)
         && b.active[t].slot.everActive == a.active[t].slot.everActive
  }

  /** Every subscription is closed with code; paused tells whether it was paused first. */
  ghost predicate Closes(a: Subs, b: Subs, paused: Option<ErrorCode>, code: ErrorCode) {
    && b.active == map[] && b.timers == map[]
    && forall t :: t in a.active ==>
         var pause := if paused.Some? then PauseNotes(a.active[t].slot, paused.value) else [];
         Told(b, a.active[t].slot.log + pause + [CloseNote(code)], code)
  }

  /** Every waiting call fails with code; an answered one keeps its answer. */
  ghost predicate FailsCalls(a: Table, b: Table, code: ErrorCode) {
    && b.rpcs == map[] && |a.calls| <= |b.calls|
    && forall c :: 0 <= c < |a.calls| ==> b.calls[c] == if a.calls[c] == [] then [Outcome(false, code)] else a.calls[c]
  }

  /** Neither timer of the heartbeat runs. */
  predicate Stopped(h: Heartbeat.Hb) {
    h.idle == None && h.deadline == None
  }

  /** The connection is lost for reason: retried while attempts are left, or given up. */
  ghost predicate Lost(o: Options, s: State, r: State, reason: ErrorCode) {
    r.fault == NoFault ==>
      && FailsCalls(s.table, r.table, reason) && Stopped(r.hb) && !r.wire.up
      && if WithinLimit(o, s.link.attempt + 1)
         then r.link.st == TransientFailure && r.link.retry == Some(s.link.attempt + 1) && Pauses(s.subs, r.subs, reason)
         else r.link.st == Fatal && Closes(s.subs, r.subs, Some(reason), TransportFailure)
  }

  /** The session is over with code. */
  ghost predicate Ended(s: State, r: State, code: ErrorCode) {
    r.fault == NoFault ==>
      && r.link.st == Fatal && Stopped(r.hb) && !r.wire.up
      && FailsCalls(s.table, r.table, code) && Closes(s.subs, r.subs, None, code)
  }

  /** Calls other than c and subscriptions other than t are as before, and so is the connection,
      except that it may now be ready. */
  ghost predicate LeavesAlone(s: State, r: State, c: Option<nat>, t: Option<string>) {
    && r.fault == s.fault && r.wire.conn == s.wire.conn
    && (r.link == s.link || (AtBarrier(s) && r.link.st == Ready))
    && |s.table.calls| <= |r.table.calls|
    && (forall d :: 0 <= d < |s.table.calls| && c != Some(d) ==> r.table.calls[d] == s.table.calls[d])
    && (forall u :: u in s.subs.active && t != Some(u) ==> u in r.subs.active && r.subs.active[u] == s.subs.active[u])
    && s.subs.retired <= r.subs.retired
  }

  ghost predicate Fate(o: Options, s: State, r: State, end: Option<ErrorCode>, loss: Option<ErrorCode>,
                       c: Option<nat>, t: Option<string>) {
    if end.Some? then Ended(s, r, end.value)
    else if loss.Some? then Lost(o, s, r, loss.value)
    else LeavesAlone(s, r, c, t)
  }

  // ------------------------------------------------------------------------------------------
  // Losing and ending, from the state in which the handler does it.

  /** s1 is s a little later in the same handler: the same story so far. */
  ghost predicate SameStory(s: State, s1: State) {
    && s1.link == s.link && s1.table.calls == s.table.calls
    && forall t :: t in s.subs.active ==>
         && t in s1.subs.active && s1.subs.active[t].slot.log == s.subs.active[t].slot.log
         && WasOpen(s1.subs.active[t].slot) == WasOpen(s.subs.active[t].slot)
         && s1.subs.active[t].slot.everActive == s.subs.active[t].slot.everActive
  }

  lemma SettleAllFails(t: Table, code: ErrorCode)
    requires TableInv(t)
    ensures FailsCalls(t, SettleAll(t, Outcome(false, code)), code)
  {
    assert forall c :: 0 <= c < |t.calls| && t.calls[c] == [] ==> t.calls[c] + [Outcome(false, code)] == [Outcome(false, code)];
  }

  lemma ShutAllTells(m: Subs, code: ErrorCode)
    ensures Closes(m, ShutAll(m, code), None, code)
  {
    forall t | t in m.active ensures Told(ShutAll(m, code), m.active[t].slot.log + [] + [CloseNote(code)], code) {
      var r := Shut(m.active[t].slot, code, code);
      assert m.active[t].slot.log + [] + [CloseNote(code)] == m.active[t].slot.log + [CloseNote(code)];
      assert r in ShutAll(m, code).retired;
    }
  }

  lemma AbortEnds(s: State, code: ErrorCode)
    requires TableInv(s.table)
    ensures Ended(s, AbortToFatal(s, code), code)
  {
    SettleAllFails(s.table, code);
    ShutAllTells(s.subs, code);
  }

  lemma PauseAllPauses(m: Subs, reason: ErrorCode)
    ensures Pauses(m, PauseAll(m, reason), reason)
  {
    assert forall t :: t in m.active ==> m.active[t].slot.log + [] == m.active[t].slot.log;
  }

  /** Paused by the loss, then closed by giving up. */
  lemma PausedThenClosed(a: Subs, b: Subs, c: Subs, reason: ErrorCode, code: ErrorCode)
    requires Pauses(a, b, reason) && Closes(b, c, None, code)
    ensures Closes(a, c, Some(reason), code)
  {
    forall t | t in a.active
      ensures Told(c, a.active[t].slot.log + PauseNotes(a.active[t].slot, reason) + [CloseNote(code)], code)
    {
      assert b.active[t].slot.log + [] == b.active[t].slot.log;
    }
  }

  lemma FailsNobodyElse(a: Table, b: Table, c: Table, reason: ErrorCode, code: ErrorCode)
    requires FailsCalls(a, b, reason) && FailsCalls(b, c, code)
    ensures FailsCalls(a, c, reason)
  {
  }

  lemma TearDownTells(s: State, reason: ErrorCode)
    requires TableInv(s.table)
    ensures FailsCalls(s.table, TearDown(s, reason).table, reason) && Pauses(s.subs, TearDown(s, reason).subs, reason)
    ensures TableInv(TearDown(s, reason).table)
  {
    SettleAllFails(s.table, reason);
    SettleAllKeeps(s.table, Outcome(false, reason));
    PauseAllPauses(s.subs, reason);
  }

  lemma GivingUpTells(s: State, d: State, reason: ErrorCode)
    requires TableInv(d.table) && FailsCalls(s.table, d.table, reason) && Pauses(s.subs, d.subs, reason)
    ensures var r := AbortToFatal(d, TransportFailure);
      r.fault == NoFault ==>
        && r.link.st == Fatal && Stopped(r.hb) && !r.wire.up
        && FailsCalls(s.table, r.table, reason) && Closes(s.subs, r.subs, Some(reason), TransportFailure)
  {
    var r := AbortToFatal(d, TransportFailure);
    AbortEnds(d, TransportFailure);
    if r.fault == NoFault {
      PausedThenClosed(s.subs, d.subs, r.subs, reason, TransportFailure);
      FailsNobodyElse(s.table, d.table, r.table, reason, TransportFailure);
    }
  }

  lemma CloseLoses(o: Options, s: State, reason: ErrorCode)
    requires Core(o, s) && Alive(s)
    ensures Lost(o, s, OnTransportClose(o, s, reason), reason)
  {
    if !HasReplay(s.table.rpcs) {
      TearDownTells(s, reason);
      GivingUpTells(s, TearDown(s, reason), reason);
    }
  }

  lemma LostEarlier(o: Options, s: State, s1: State, r: State, reason: ErrorCode)
    requires SameStory(s, s1) && Lost(o, s1, r, reason)
    ensures Lost(o, s, r, reason)
  {
  }

  lemma EndedEarlier(s: State, s1: State, r: State, code: ErrorCode)
    requires SameStory(s, s1) && Ended(s1, r, code)
    ensures Ended(s, r, code)
  {
  }

  // ------------------------------------------------------------------------------------------
  // Acknowledgements.

  /** Nothing but subscription t has changed, and perhaps the barrier has been passed. */
  ghost predicate OnlyTopic(s: State, r: State, t: string) {
    LeavesAlone(s, r, None, Some(t)) && r.table.calls == s.table.calls
  }

  lemma FinishLeaves(s: State, s1: State, t: string)
    requires OnlyTopic(s, s1, t) && s1.link == s.link && s1.wire.greeted == s.wire.greeted && Serving(s)
    ensures OnlyTopic(s, FinishOne(s1), t)
  {
  }

  lemma RetiredLeaves(s: State, t: string, error: ErrorCode)
    requires t in s.subs.active && Serving(s)
    ensures var s1 := s.(subs := Retire(s.subs, t, error, error)); OnlyTopic(s, s1, t) && OnlyTopic(s, FinishOne(s1), t)
  {
    FinishLeaves(s, s.(subs := Retire(s.subs, t, error, error)), t);
  }

  lemma MatchedAlone(s: State, resp: Response)
    requires MatchedAck(s, resp)
    ensures var t, s1 := s.subs.req[resp.requestId], Matched(s, resp.requestId);
      && SameStory(s, s1) && OnlyTopic(s, s1, t) && s1.wire == s.wire && s1.link == s.link
      && s1.subs.active[t].slot == s.subs.active[t].slot.(inflight := 0)
  {
  }

  lemma MatchedStory(o: Options, s: State, resp: Response)
    requires Inv(o, s) && MatchedAck(s, resp)
    ensures var t, s1 := s.subs.req[resp.requestId], Matched(s, resp.requestId);
      && Answering(o, s1, t) && SameStory(s, s1) && OnlyTopic(s, s1, t) && Serving(s)
      && s1.wire == s.wire && s1.link == s.link
      && s1.subs.active[t].slot == s.subs.active[t].slot.(inflight := 0)
  {
    MatchedAlone(s, resp);
    MatchedServes(o, s, resp);
    MatchedAckKeeps(o, s, resp.requestId);
  }

  lemma MatchedServes(o: Options, s: State, resp: Response)
    requires Inv(o, s) && MatchedAck(s, resp)
    ensures Serving(s) && resp.requestId > 0
  {
    assert Fits(s.link, s.wire, s.subs.active[s.subs.req[resp.requestId]]);
  }

  lemma OnlyTopicChain(s: State, s1: State, r: State, t: string)
    requires OnlyTopic(s, s1, t) && OnlyTopic(s1, r, t) && s1.link == s.link && s1.wire == s.wire
    ensures OnlyTopic(s, r, t)
  {
  }

  /** The two groups of codes are the two categories the code distinguishes. */
  lemma Categories(code: ErrorCode)
    ensures EndsSession(code) <==> Classify(code) == FatalCategory
    ensures WantsReconnect(code) <==> Classify(code) == Transient
  {
  }

  lemma FailedFate(o: Options, s: State, t: string, code: ErrorCode)
    requires Answering(o, s, t)
    ensures var r, category := AckFailed(o, s, t, code), Classify(code);
      if category == FatalCategory then Ended(s, r, code)
      else if category == Transient && s.link.st == Reconnecting then Lost(o, s, r, code)
      else OnlyTopic(s, r, t)
  {
    match Classify(code)
    case FatalCategory => AbortEnds(s, code);
    case Transient => if s.link.st == Reconnecting { CloseLoses(o, s, code); } else { RetiredLeaves(s, t, code); }
    case _ => RetiredLeaves(s, t, code);
  }

  lemma FallbackStory(o: Options, s: State, t: string)
    requires Answering(o, s, t) && !s.subs.active[t].slot.retried
    ensures var s1 := s.(subs := WithSlot(s.subs, t, Fallback(s.subs.active[t].slot)));
      && Core(o, Unsendable(s1, t, 0)) && Alive(Unsendable(s1, t, 0)) && SameStory(s, Unsendable(s1, t, 0))
  {
    var s1 := s.(subs := WithSlot(s.subs, t, Fallback(s.subs.active[t].slot)));
    FallbackKept(o, s, t);
    UnsendableKeeps(o, s1, t, 0);
  }

  lemma FallbackFate(o: Options, s: State, t: string, accepts: nat -> bool)
    requires Answering(o, s, t) && !s.subs.active[t].slot.retried
    ensures var r := SendSubscribe(o, s.(subs := WithSlot(s.subs, t, Fallback(s.subs.active[t].slot))), t, 0, accepts);
      if Takes(s.wire, accepts) then OnlyTopic(s, r, t) else Lost(o, s, r, TransportFailure)
  {
    var s1 := s.(subs := WithSlot(s.subs, t, Fallback(s.subs.active[t].slot)));
    if Takes(s.wire, accepts) {
      TakenSend(o, s1, t, 0, accepts);
    } else {
      var mid := Unsendable(s1, t, 0);
      FallbackStory(o, s, t);
      CloseLoses(o, mid, TransportFailure);
      LostEarlier(o, s, mid, OnTransportClose(o, mid, TransportFailure), TransportFailure);
      assert SendSubscribe(o, s1, t, 0, accepts) == OnTransportClose(o, mid, TransportFailure);
    }
  }

  lemma RejectedFate(o: Options, s: State, t: string, reject: RejectReason, accepts: nat -> bool)
    requires Answering(o, s, t)
    ensures var r := AckRejected(o, s, t, reject, accepts);
      if FallsBack(s.subs.active[t].slot, reject) && !Takes(s.wire, accepts) then Lost(o, s, r, TransportFailure)
      else OnlyTopic(s, r, t)
  {
    if FallsBack(s.subs.active[t].slot, reject) {
      FallbackFate(o, s, t, accepts);
    } else {
      RetiredLeaves(s, t, InternalError);
      RetiredLeaves(s, t, RejectToError(reject));
    }
  }

  lemma AcceptedLeaves(o: Options, s: State, t: string, next: nat)
    requires Answering(o, s, t)
    ensures OnlyTopic(s, AckAccepted(s, t, next), t)
  {
    var s1 := s.(subs := WithSlot(s.subs, t, Accept(s.subs.active[t].slot, next)));
    FinishLeaves(s, s1, t);
  }

  /** The fate of a subscription's acknowledgement. */
  ghost predicate AckFate(o: Options, s: State, r: State, end: Option<ErrorCode>, loss: Option<ErrorCode>, t: string) {
    if end.Some? then Ended(s, r, end.value)
    else if loss.Some? then Lost(o, s, r, loss.value)
    else OnlyTopic(s, r, t)
  }

  lemma AckFateEarlier(o: Options, s: State, s1: State, r: State, end: Option<ErrorCode>, loss: Option<ErrorCode>, t: string)
    requires AckFate(o, s1, r, end, loss, t) && SameStory(s, s1) && OnlyTopic(s, s1, t) && s1.link == s.link && s1.wire == s.wire
    ensures AckFate(o, s, r, end, loss, t)
  {
    if end.Some? {
      EndedEarlier(s, s1, r, end.value);
    } else if loss.Some? {
      LostEarlier(o, s, s1, r, loss.value);
    } else {
      OnlyTopicChain(s, s1, r, t);
    }
  }

  lemma MatchedFate(o: Options, s: State, resp: Response, accepts: nat -> bool)
    requires Inv(o, s) && s.fault == NoFault && MatchedAck(s, resp)
    ensures AckFate(o, s, HandleSubscribeAck(o, s, resp, accepts), MessageEnds(s, resp), MessageLoses(s, resp, accepts),
                    s.subs.req[resp.requestId])
  {
    var t, s1, r := s.subs.req[resp.requestId], Matched(s, resp.requestId), HandleSubscribeAck(o, s, resp, accepts);
    MatchedStory(o, s, resp);
    if !resp.success {
      Categories(resp.code);
      FailedFate(o, s1, t, resp.code);
    } else if resp.accepted {
      AcceptedLeaves(o, s1, t, resp.nextSeq);
    } else {
      RejectedFate(o, s1, t, resp.reject, accepts);
    }
    AckFateEarlier(o, s, s1, r, MessageEnds(s, resp), MessageLoses(s, resp, accepts), t);
  }

  // ------------------------------------------------------------------------------------------
  // Other messages.

  lemma ReplayFate(o: Options, s: State, resp: Response)
    requires Inv(o, s) && s.fault == NoFault && AnswersReplay(s, resp)
    ensures var r := CompleteReplay(o, Taken(s, resp), resp);
      if Succeeds(resp) then LeavesAlone(s, r, None, None)
      else Lost(o, s, r, if resp.success then resp.rpcCode else resp.code)
  {
    SilentEntry(s.table, resp.requestId);
    assert AtBarrier(s);
    if !Succeeds(resp) {
      var s1, code := Taken(s, resp).(barrier := s.barrier.(estop := false)), if resp.success then resp.rpcCode else resp.code;
      CloseLoses(o, s1, code);
      LostEarlier(o, s, s1, OnTransportClose(o, s1, code), code);
    }
  }

  lemma CompletionLeaves(s: State, resp: Response)
    requires !resp.hasSubscribe && resp.requestId in s.table.rpcs
    ensures var j, s1 := s.table.rpcs[resp.requestId], Taken(s, resp);
      && (j.User? ==> LeavesAlone(s, CompleteCall(s1, j.call, j.op, resp), Some(j.call), None))
      && (j.Unsub? ==> LeavesAlone(s, CompleteUnsubscribe(s1, j.call, j.topic, resp), Some(j.call), Some(j.topic)))
      && (j == HeartbeatPing ==> LeavesAlone(s, s1, None, None))
  {
  }

  lemma ResponseFate(o: Options, s: State, resp: Response, accepts: nat -> bool, order: seq<string>)
    requires Inv(o, s) && s.fault == NoFault && s.wire.conn > 0 && !AnswersHandshake(s, Inbound(resp))
    ensures var i := Input(Inbound(resp), 0, accepts, true, order);
      Fate(o, s, HandleResponse(o, s, resp, accepts, order), MessageEnds(s, resp), MessageLoses(s, resp, accepts),
           CallDone(s, i), About(s, i))
  {
    if resp.hasSubscribe {
      if MatchedAck(s, resp) { MatchedFate(o, s, resp, accepts); }
    } else if resp.requestId in s.table.rpcs {
      if AnswersReplay(s, resp) {
        ReplayFate(o, s, resp);
      } else {
        CompletionLeaves(s, resp);
      }
    }
  }

  // ------------------------------------------------------------------------------------------
  // Users and timers.

  lemma SubscribeFate(o: Options, s: State, t: string, semantics: Semantics, userClosed: bool, accepts: nat -> bool)
    requires Inv(o, s) && s.fault == NoFault
    ensures var r := OnSubscribe(o, s, t, semantics, userClosed, accepts);
      if s.link.st == Ready && !userClosed && t !in s.subs.active && !accepts(s.wire.nextId)
      then Lost(o, s, r, TransportFailure) else LeavesAlone(s, r, None, Some(t))
  {
    if s.link.st == Ready && !userClosed && t !in s.subs.active {
      var s1 := s.(subs := s.subs.(active := s.subs.active[t := Entry(NewSlot(semantics, o.policy, o.queueSize), false, 0, 0)]));
      NewEntryKeeps(o, s, t, semantics);
      if accepts(s.wire.nextId) {
        TakenSend(o, s1, t, 0, accepts);
      } else {
        var mid := Unsendable(s1, t, 0);
        UnsendableKeeps(o, s1, t, 0);
        CloseLoses(o, mid, TransportFailure);
        LostEarlier(o, s, mid, OnTransportClose(o, mid, TransportFailure), TransportFailure);
        assert OnSubscribe(o, s, t, semantics, userClosed, accepts) == OnTransportClose(o, mid, TransportFailure);
      }
    }
  }

  lemma CallLeaves(s: State, op: Op, accepts: nat -> bool)
    ensures LeavesAlone(s, OnCall(s, op, accepts), None, None)
  {
  }

  lemma UnsubscribeAsyncLeaves(s: State, t: string, open: bool, accepts: nat -> bool)
    ensures LeavesAlone(s, OnUnsubscribeAsync(s, t, open, accepts), None, Some(t))
  {
  }

  lemma UnsubscribeSyncLeaves(s: State, t: string, open: bool, accepts: nat -> bool)
    ensures LeavesAlone(s, OnUnsubscribeSync(s, t, open, accepts), None, Some(t))
  {
  }

  lemma UserFate(o: Options, s: State, i: Input)
    requires Inv(o, s) && s.fault == NoFault && s.link.st != Idle && FromUser(i.event) && !i.event.Close?
    ensures Fate(o, s, HandleUser(o, s, i), None, Losing(o, s, i), None, About(s, i))
  {
    match i.event
    case Subscribe(t, semantics, userClosed) => SubscribeFate(o, s, t, semantics, userClosed, i.accepts);
    case UnsubscribeAsync(t) => UnsubscribeAsyncLeaves(s, t, i.open, i.accepts);
    case UnsubscribeSync(t) => UnsubscribeSyncLeaves(s, t, i.open, i.accepts);
    case Call(op) => CallLeaves(s, op, i.accepts);
    case _ =>
  }

  lemma HeartbeatFate(o: Options, s: State, accepts: nat -> bool)
    requires Inv(o, s) && s.link.st == Ready
    ensures var r := SendHeartbeat(o, s, accepts);
      if accepts(s.wire.nextId) then LeavesAlone(s, r, None, None) else Lost(o, s, r, TransportFailure)
  {
    if !accepts(s.wire.nextId) {
      var s1 := s.(table := s.table.(rpcs := s.table.rpcs[s.wire.nextId := HeartbeatPing]),
                   wire := Take(s.wire, false, PingReq));
      TakeKeeps(o, s, false, PingReq);
      AddSilentEntry(s.table, s.wire.nextId, HeartbeatPing);
      CloseLoses(o, s1, TransportFailure);
      LostEarlier(o, s, s1, OnTransportClose(o, s1, TransportFailure), TransportFailure);
    }
  }

  /** Only the heartbeat has changed since s. */
  lemma BeatLater(o: Options, s: State, h: Heartbeat.Hb, r: State, loss: Option<ErrorCode>)
    requires Fate(o, s.(hb := h), r, None, loss, None, None)
    ensures Fate(o, s, r, None, loss, None, None)
  {
    NotedFate(o, s, s.(hb := h), r, None, loss, None, None);
  }

  lemma IdleCases(o: Options, s: State, open: bool, accepts: nat -> bool)
    requires Inv(o, s) && s.hb.idle.Some? && s.hb.idle.value <= s.clock && s.link.st == Ready
    ensures var (h, ask) := Heartbeat.OnIdle(o.heartbeat, s.hb, s.clock, s.wire.up && open);
      && Inv(o, s.(hb := h))
      && OnIdleTimer(o, s, open, accepts) == if ask == Heartbeat.SendPing then SendHeartbeat(o, s.(hb := h), accepts) else s.(hb := h)
  {
    Heartbeat.StepsAreSound(o.heartbeat, s.hb, s.clock, s.wire.up && open);
    HeartbeatChangeKeeps(o, s, Heartbeat.OnIdle(o.heartbeat, s.hb, s.clock, s.wire.up && open).0);
  }

  lemma IdleFate(o: Options, s: State, i: Input)
    requires Inv(o, s) && s.fault == NoFault && i.event.IdleTimer?
    ensures Fate(o, s, OnIdleTimer(o, s, i.open, i.accepts), None, TimerLoses(o, s, i), None, None)
  {
    if s.hb.idle.Some? && s.hb.idle.value <= s.clock && s.link.st == Ready {
      var (h, ask) := Heartbeat.OnIdle(o.heartbeat, s.hb, s.clock, s.wire.up && i.open);
      IdleCases(o, s, i.open, i.accepts);
      if ask == Heartbeat.SendPing { HeartbeatFate(o, s.(hb := h), i.accepts); }
      BeatLater(o, s, h, OnIdleTimer(o, s, i.open, i.accepts), TimerLoses(o, s, i));
    }
  }

  lemma DeadlineFate(o: Options, s: State, i: Input)
    requires Inv(o, s) && s.fault == NoFault && i.event.PingDeadline?
    ensures Fate(o, s, OnPingDeadline(o, s, i.open, i.accepts), None, TimerLoses(o, s, i), None, None)
  {
    if s.hb.deadline.Some? && s.hb.deadline.value <= s.clock && s.link.st == Ready {
      var (h, ask) := Heartbeat.OnDeadline(o.heartbeat, s.hb, s.clock, s.wire.up && i.open);
      Heartbeat.StepsAreSound(o.heartbeat, s.hb, s.clock, s.wire.up && i.open);
      HeartbeatChangeKeeps(o, s, h);
      match ask {
        case DeclareDead => CloseLoses(o, s.(hb := h), TransportFailure);
        case SendPing => HeartbeatFate(o, s.(hb := h), i.accepts);
        case Nothing =>
      }
      BeatLater(o, s, h, OnPingDeadline(o, s, i.open, i.accepts), TimerLoses(o, s, i));
    }
  }

  lemma RpcTimeoutFate(o: Options, s: State, i: Input, rid: nat)
    requires Inv(o, s) && s.fault == NoFault && i.event == RpcTimeout(rid)
    ensures Fate(o, s, OnRpcTimeout(o, s, rid), None, TimerLoses(o, s, i), CallDone(s, i), None)
  {
    if rid in s.table.rpcs && s.table.rpcs[rid] == Replay {
      var s1 := s.(table := s.table.(rpcs := s.table.rpcs - {rid}), barrier := s.barrier.(estop := false));
      SilentEntry(s.table, rid);
      CloseLoses(o, s1, Timeout);
      LostEarlier(o, s, s1, OnTransportClose(o, s1, Timeout), Timeout);
    }
  }

  lemma TimerFate(o: Options, s: State, i: Input)
    requires Inv(o, s) && s.fault == NoFault && s.link.st != Idle && !Terminal(s.link.st)
    requires !FromUser(i.event) && !FromSocket(i.event) && !(i.event.RetryTimer? && s.link.st == TransientFailure)
    ensures Fate(o, s, HandleTimer(o, s, i), None, TimerLoses(o, s, i), CallDone(s, i), None)
  {
    match i.event
    case RpcTimeout(rid) => RpcTimeoutFate(o, s, i, rid);
    case AckTimeout(_, _) => CloseLoses(o, s, Timeout);
    case IdleTimer => IdleFate(o, s, i);
    case PingDeadline => DeadlineFate(o, s, i);
    case _ =>
  }

  // ------------------------------------------------------------------------------------------
  // Any input.

  lemma PushFate(s: State, t: string, p: Push)
    ensures LeavesAlone(s, HandlePush(s, t, p), None, Some(t))
  {
  }

  lemma NotedCauses(s: State, i: Input)
    requires i.event.Inbound? && s.wire.conn > 0
    ensures Ending(s, i) == MessageEnds(Noted(s), i.event.resp)
    ensures forall o :: Losing(o, s, i) == MessageLoses(Noted(s), i.event.resp, i.accepts)
    ensures CallDone(Noted(s), i) == CallDone(s, i) && About(Noted(s), i) == About(s, i)
  {
  }

  lemma InboundFate(o: Options, s: State, i: Input)
    requires Inv(o, s) && s.fault == NoFault && s.wire.conn > 0 && i.event.Inbound? && !AnswersHandshake(s, i.event)
    ensures Fate(o, s, HandleSocket(o, s, i), Ending(s, i), Losing(o, s, i), CallDone(s, i), About(s, i))
  {
    NotedKeeps(o, s);
    NotedCauses(s, i);
    ResponseFate(o, Noted(s), i.event.resp, i.accepts, i.order);
    NotedFate(o, s, Noted(s), HandleSocket(o, s, i), Ending(s, i), Losing(o, s, i), CallDone(s, i), About(s, i));
  }

  lemma PushedFate(o: Options, s: State, i: Input)
    requires s.wire.conn > 0 && i.event.Pushed?
    ensures LeavesAlone(s, HandleSocket(o, s, i), None, About(s, i))
  {
    PushFate(Noted(s), i.event.topic, i.event.push);
  }

  lemma SocketFate(o: Options, s: State, i: Input)
    requires Inv(o, s) && s.fault == NoFault && s.link.st != Idle && !Terminal(s.link.st)
    requires FromSocket(i.event) && !AnswersHandshake(s, i.event)
    ensures Fate(o, s, HandleSocket(o, s, i), Ending(s, i), Losing(o, s, i), CallDone(s, i), About(s, i))
  {
    if i.event.TransportClosed? {
      CloseLoses(o, s, if i.event.clean then Cancelled else TransportFailure);
    } else if s.wire.conn > 0 {
      if i.event.Inbound? { InboundFate(o, s, i); } else { PushedFate(o, s, i); }
    }
  }

  /** Clock and heartbeat do not matter to a fate. */
  lemma NotedFate(o: Options, s: State, s1: State, r: State, end: Option<ErrorCode>, loss: Option<ErrorCode>,
                  c: Option<nat>, t: Option<string>)
    requires s1 == s.(hb := s1.hb, clock := s1.clock) && Fate(o, s1, r, end, loss, c, t)
    ensures Fate(o, s, r, end, loss, c, t)
  {
  }

  /** The input is neither the user's Close nor part of setting up a connection. */
  predicate Ordinary(s: State, i: Input) {
    && !i.event.Close? && !AnswersHandshake(s, i.event)
    && !(i.event.RetryTimer? && s.link.st == TransientFailure)
  }

  lemma HandledFate(o: Options, s: State, i: Input)
    requires Inv(o, s) && s.fault == NoFault && s.link.st != Idle && !Terminal(s.link.st) && Ordinary(s, i)
    ensures Fate(o, s, Handle(o, s, i), Ending(s, i), Losing(o, s, i), CallDone(s, i), About(s, i))
  {
    if FromUser(i.event) {
      UserFate(o, s, i);
    } else if FromSocket(i.event) {
      SocketFate(o, s, i);
    } else {
      TimerFate(o, s, i);
    }
  }

  lemma TickedCauses(s: State, i: Input)
    ensures CallDone(Tick(s, i.elapsed), i) == CallDone(s, i) && About(Tick(s, i.elapsed), i) == About(s, i)
  {
  }

  /** One step with any other input, from any reachable state after Connect: it ends the session if
      and only if it acknowledges a subscribe with a code no retry can help; it loses the
      connection if and only if it is one of the causes listed, for that reason; and then
      everybody is told so. Otherwise it completes at most the call and touches at most the
      subscription it is about. */
  lemma StepFate(o: Options, s: State, i: Input)
    requires Inv(o, s) && s.fault == NoFault && Lists(i.order, s.subs.active)
    requires s.link.st != Idle && !Terminal(s.link.st) && Ordinary(s, i)
    ensures var s1 := Tick(s, i.elapsed);
      Fate(o, s, Step(o, s, i), Ending(s1, i), Losing(o, s1, i), CallDone(s, i), About(s, i))
  {
    var s1 := Tick(s, i.elapsed);
    ClockKeeps(o, s, i.elapsed);
    HandledFate(o, s1, i);
    TickedCauses(s, i);
    NotedFate(o, s, s1, Step(o, s, i), Ending(s1, i), Losing(o, s1, i), CallDone(s, i), About(s, i));
  }

  /** Close, in any state: every waiting call is cancelled and every subscription closed so. */
  lemma CloseShuts(o: Options, s: State, i: Input)
    requires Inv(o, s) && s.fault == NoFault && Lists(i.order, s.subs.active) && i.event.Close?
    ensures var r := Step(o, s, i);
      && r.link.st == Shutdown && r.link.retry == None && !r.wire.up && Stopped(r.hb) && r.fault == NoFault
      && FailsCalls(s.table, r.table, Cancelled) && Closes(s.subs, r.subs, None, Cancelled)
  {
    SettleAllFails(s.table, Cancelled);
    ShutAllTells(s.subs, Cancelled);
  }
}
