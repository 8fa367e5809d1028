/** What becomes of one subscription: how it enters the table and is asked for, what an
    acknowledgement or a push tells its user, by which inputs it leaves the table and with which
    code; and that nothing is told afterwards. */
module EngineTelling {
  import opened Types
  import opened Stream
  import opened Engine
  import opened EngineInvariant
  import opened EngineKernel
  import opened EngineSubscriptions
  import opened EngineSteps
  import opened EngineBarrier
  import opened EngineMemory
  import opened EngineFate
  import opened EngineTheorems
  import StreamDelivery
  import Heartbeat

  // ------------------------------------------------------------------------------------------
  // Leaving the table.

  /** The error a final rejection is reported as. */
  function RejectionCode(reject: RejectReason): ErrorCode {
    match reject
    case NoSuchTopic => TopicNotFound
    case NotPermitted => CapabilityDenied
    case AlreadySubscribed => TopicAlreadySubscribed
    case InvalidHz => ControlInvalidTwist
    case NoReason => Ok
    case _ => InternalError
  }

  /** The code with which an acknowledgement takes its subscription out: the server could not
      handle the subscribe, or rejects it for good. */
  function AckCloses(s: State, resp: Response): Option<ErrorCode>
    requires MatchedAck(s, resp)
  {
    if !resp.success then Some(resp.code)
    else if resp.accepted || FallsBack(AckedSlot(s, resp), resp.reject) then None
    else Some(RejectionCode(resp.reject))
  }

  /** The code with which an input that neither ends the session nor loses the connection takes
      subscription t out of the table, if it does. */
  function ExitCode(s: State, i: Input, t: string): Option<ErrorCode> {
    match i.event
    case UnsubscribeAsync(u) => if u == t then Some(Ok) else None
    case UnsubscribeSync(u) => if u == t && (s.link.st != Ready || !s.wire.up || !i.open) then Some(Disconnected) else None
    case Inbound(resp) =>
      if s.wire.conn == 0 then None
      else if MatchedAck(s, resp) then if s.subs.req[resp.requestId] == t then AckCloses(s, resp) else None
      else if !resp.hasSubscribe && resp.requestId in s.table.rpcs
              && s.table.rpcs[resp.requestId].Unsub? && s.table.rpcs[resp.requestId].topic == t
      then Some(if resp.success then Ok else resp.code) else None
    case _ => None
  }

  /** Subscription t of a has left the table, closed, having told code as its last word. */
  ghost predicate Left(a: Subs, b: Subs, t: string, code: ErrorCode, error: ErrorCode)
    requires t in a.active
  {
    t !in b.active && Told(b, a.active[t].slot.log + [CloseNote(code)], error)
  }

  lemma RetiredLeft(m: Subs, t: string, error: ErrorCode, reason: ErrorCode)
    requires t in m.active
    ensures Left(m, Retire(m, t, error, reason), t, reason, error)
  {
    var r := Shut(m.active[t].slot, error, reason);
    assert r in Retire(m, t, error, reason).retired;
  }

  /** A posted unsubscribe takes its subscription out at once, in every state; the request goes out
      if the connection is ready and it was not asked for before. */
  lemma PostedUnsubscribeExits(o: Options, s: State, i: Input, t: string)
    requires Inv(o, s) && s.fault == NoFault && Lists(i.order, s.subs.active)
    requires i.event == UnsubscribeAsync(t) && t in s.subs.active
    ensures var r := Step(o, s, i);
      && Left(s.subs, r.subs, t, Ok, s.subs.active[t].slot.error) && r.table == s.table && r.link == s.link
      && (forall u :: u in s.subs.active && u != t ==> u in r.subs.active && r.subs.active[u] == s.subs.active[u])
    ensures var asks := s.link.st == Ready && i.open && !s.subs.active[t].slot.unsubSent && i.accepts(s.wire.nextId);
      asks <==> WasSent(Step(o, s, i).wire, s.wire.nextId, UnsubscribeReq(t))
  {
    RetiredLeft(s.subs, t, s.subs.active[t].slot.error, Ok);
  }

  lemma UnsubscribeSyncExits(o: Options, s: State, i: Input, t: string)
    requires s.fault == NoFault && Lists(i.order, s.subs.active) && i.event == UnsubscribeSync(t) && t in s.subs.active
    ensures var r := Step(o, s, i);
      if s.link.st != Ready || !s.wire.up || !i.open then Left(s.subs, r.subs, t, Disconnected, Disconnected)
      else
        && t in r.subs.active
        && r.subs.active[t].slot == if i.accepts(s.wire.nextId) then s.subs.active[t].slot.(unsubSent := true) else s.subs.active[t].slot
  {
    RetiredLeft(s.subs, t, Disconnected, Disconnected);
  }

  lemma CompletionLeft(s: State, c: nat, t: string, resp: Response)
    requires t in s.subs.active
    ensures var code := if resp.success then Ok else resp.code;
      Left(s.subs, CompleteUnsubscribe(s, c, t, resp).subs, t, code, code)
  {
    var code := if resp.success then Ok else resp.code;
    RetiredLeft(s.subs, t, code, code);
  }

  /** An acknowledged unsubscribe ends the subscription. */
  lemma AnsweredUnsubscribeExits(o: Options, s: State, i: Input, t: string)
    requires Inv(o, s) && Hears(s, i) && i.event.Inbound? && !i.event.resp.hasSubscribe && t in s.subs.active
    requires i.event.resp.requestId in s.table.rpcs && s.table.rpcs[i.event.resp.requestId].Unsub?
    requires s.table.rpcs[i.event.resp.requestId].topic == t
    ensures var code := if i.event.resp.success then Ok else i.event.resp.code;
      Left(s.subs, Step(o, s, i).subs, t, code, code)
  {
    var resp := i.event.resp;
    InboundStep(o, s, i);
    CompletionLeft(Taken(Noted(Tick(s, i.elapsed)), resp), s.table.rpcs[resp.requestId].call, t, resp);
  }

  // ------------------------------------------------------------------------------------------
  // Acknowledgements.

  lemma FinishSubs(s: State)
    ensures FinishOne(s).subs == s.subs
  {
  }

  /** The subscription goes on with slot, or leaves with the code. */
  ghost predicate AckTells(s: State, r: State, t: string, resp: Response)
    requires t in s.subs.active
  {
    var slot := s.subs.active[t].slot.(inflight := 0);
    if !resp.success then Left(s.subs, r.subs, t, resp.code, resp.code)
    else if resp.accepted then t in r.subs.active && r.subs.active[t].slot == Accept(slot, resp.nextSeq)
    else if FallsBack(slot, resp.reject) then
      Asked(s, r, t) && r.subs.active[t].slot.retried
      && r.subs.active[t].slot.everActive == slot.everActive
      && (r.subs.active[t].slot.resuming <==> slot.everActive && s.link.st == Reconnecting)
    else Left(s.subs, r.subs, t, RejectionCode(resp.reject), RejectionCode(resp.reject))
  }

  /** Subscription t has been asked for from scratch, as the next request of this connection, and
      nothing was told. */
  predicate Asked(s: State, r: State, t: string) {
    && t in r.subs.active && r.subs.active[t].slot.inflight == s.wire.nextId && r.subs.active[t].slot.state == Pending
    && r.subs.active[t].slot.expected == 0 && r.subs.active[t].slot.lastSeq == 0
    && r.subs.active[t].slot.log == (if t in s.subs.active then s.subs.active[t].slot.log else [])
    && WasSent(r.wire, s.wire.nextId, SubscribeReq(t, 0))
    && s.wire.nextId in r.subs.timers && r.subs.timers[s.wire.nextId] == t
  }

  lemma FailedTells(o: Options, s: State, t: string, code: ErrorCode)
    requires t in s.subs.active && Classify(code) != FatalCategory && !(Classify(code) == Transient && s.link.st == Reconnecting)
    ensures Left(s.subs, AckFailed(o, s, t, code).subs, t, code, code)
  {
    RetiredLeft(s.subs, t, code, code);
  }

  lemma FallbackTells(o: Options, s: State, t: string, accepts: nat -> bool)
    requires t in s.subs.active && Takes(s.wire, accepts) && Below(s.wire.sent, s.wire.nextId)
    requires s.subs.active[t].slot.state == Pending
    ensures var slot, r := s.subs.active[t].slot, SendSubscribe(o, s.(subs := WithSlot(s.subs, t, Fallback(s.subs.active[t].slot))), t, 0, accepts);
      && Asked(s, r, t) && r.subs.active[t].slot.retried && r.subs.active[t].slot.everActive == slot.everActive
      && (r.subs.active[t].slot.resuming <==> slot.everActive && s.link.st == Reconnecting)
  {
  }

  lemma RejectionCodes(reject: RejectReason)
    ensures RejectionCode(reject) == RejectToError(reject)
  {
  }

  lemma RejectedTells(o: Options, s: State, t: string, reject: RejectReason, accepts: nat -> bool)
    requires t in s.subs.active && Below(s.wire.sent, s.wire.nextId) && !FallsBack(s.subs.active[t].slot, reject)
    ensures Left(s.subs, AckRejected(o, s, t, reject, accepts).subs, t, RejectionCode(reject), RejectionCode(reject))
  {
    RejectionCodes(reject);
    RetiredLeft(s.subs, t, RejectToError(reject), RejectToError(reject));
    FinishSubs(s.(subs := Retire(s.subs, t, RejectToError(reject), RejectToError(reject))));
  }

  /** From the moment the acknowledgement was matched. */
  lemma MatchedTells(o: Options, s: State, resp: Response, accepts: nat -> bool)
    requires Inv(o, s) && s.fault == NoFault && MatchedAck(s, resp)
    requires MessageEnds(s, resp) == None && MessageLoses(s, resp, accepts) == None
    ensures AckTells(s, HandleSubscribeAck(o, s, resp, accepts), s.subs.req[resp.requestId], resp)
  {
    var t, s1 := s.subs.req[resp.requestId], Matched(s, resp.requestId);
    Categories(resp.code);
    if !resp.success {
      FailedTells(o, s1, t, resp.code);
    } else if !resp.accepted {
      if FallsBack(s1.subs.active[t].slot, resp.reject) {
        FallbackTells(o, s1, t, accepts);
      } else {
        RejectedTells(o, s1, t, resp.reject, accepts);
      }
    }
  }

  /** What the acknowledgement of an outstanding subscribe does to it, if it neither ends the
      session nor loses the connection: refused or rejected for good it is closed with the code;
      refused only the replay it is asked for once more from scratch; accepted it flows. */
  lemma AcknowledgementTells(o: Options, s: State, i: Input)
    requires Inv(o, s) && Hears(s, i) && i.event.Inbound? && MatchedAck(s, i.event.resp)
    requires MessageEnds(s, i.event.resp) == None && MessageLoses(s, i.event.resp, i.accepts) == None
    ensures AckTells(s, Step(o, s, i), s.subs.req[i.event.resp.requestId], i.event.resp)
  {
    var s1 := Noted(Tick(s, i.elapsed));
    ClockKeeps(o, s, i.elapsed);
    NotedKeeps(o, Tick(s, i.elapsed));
    MatchedTells(o, s1, i.event.resp, i.accepts);
    InboundStep(o, s, i);
  }

  lemma AcceptedSlot(o: Options, s: State, i: Input)
    requires Inv(o, s) && Hears(s, i) && i.event.Inbound? && MatchedAck(s, i.event.resp)
    requires i.event.resp.success && i.event.resp.accepted
    ensures var t, r := s.subs.req[i.event.resp.requestId], Step(o, s, i).subs;
      var slot := s.subs.active[t].slot.(inflight := 0);
      && SlotInv(slot) && slot.state == Pending
      && t in r.active && r.active[t].slot == Accept(slot, i.event.resp.nextSeq)
  {
    var t := s.subs.req[i.event.resp.requestId];
    AcknowledgementTells(o, s, i);
    MatchedServes(o, s, i.event.resp);
    assert EntryOk(s.subs.active[t]) && Fits(s.link, s.wire, s.subs.active[t]);
  }

  lemma OpensAnyway(s: Slot, r: Slot, next: nat)
    requires StreamDelivery.OpensRight(s.(inflight := 0), r, next)
    ensures StreamDelivery.OpensRight(s, r, next)
  {
  }

  /** An accepted subscription tells its opening, resumed if it was paused or a replay was asked
      for, with the loss if the server goes on beyond the number asked for; and then exactly what
      the buffer holds beyond the promised position. */
  lemma AcceptedTells(o: Options, s: State, i: Input)
    requires Inv(o, s) && Hears(s, i) && i.event.Inbound? && MatchedAck(s, i.event.resp)
    requires i.event.resp.success && i.event.resp.accepted
    ensures var t, r := s.subs.req[i.event.resp.requestId], Step(o, s, i).subs;
      t in r.active && StreamDelivery.OpensRight(s.subs.active[t].slot, r.active[t].slot, i.event.resp.nextSeq)
  {
    var slot := s.subs.active[s.subs.req[i.event.resp.requestId]].slot;
    AcceptedSlot(o, s, i);
    StreamDelivery.AcceptTells(slot.(inflight := 0), i.event.resp.nextSeq);
    OpensAnyway(slot, Accept(slot.(inflight := 0), i.event.resp.nextSeq), i.event.resp.nextSeq);
  }

  /** An acknowledgement, matched or stale, stops its own timer. */
  lemma AcknowledgementStopsTimer(o: Options, s: State, i: Input)
    requires Inv(o, s) && Hears(s, i) && i.event.Inbound? && i.event.resp.hasSubscribe && i.event.resp.requestId in s.subs.req
    ensures var r := Step(o, s, i); r.fault == NoFault ==> i.event.resp.requestId !in r.subs.timers
  {
    var s1, resp := Noted(Tick(s, i.elapsed)), i.event.resp;
    InboundStep(o, s, i);
    if MatchedAck(s, resp) {
      var t, m := s.subs.req[resp.requestId], Matched(s1, resp.requestId);
      if !resp.success {
        FailureTimers(o, m, t, resp.code);
      } else if !resp.accepted {
        RejectionTimers(o, m, t, resp.reject, i.accepts);
      }
    }
  }

  /** Handlers start no timer but that of the next request. */
  predicate OldTimers(s: State, r: State) {
    r.fault == NoFault ==> forall rid :: rid in r.subs.timers ==> rid in s.subs.timers || rid == s.wire.nextId
  }

  lemma LossTimers(o: Options, s: State, code: ErrorCode)
    ensures OldTimers(s, AbortToFatal(s, code)) && OldTimers(s, OnTransportClose(o, s, code))
  {
  }

  lemma RetiredTimers(s: State, t: string, code: ErrorCode)
    requires t in s.subs.active
    ensures var s1 := s.(subs := Retire(s.subs, t, code, code)); OldTimers(s, s1) && OldTimers(s, FinishOne(s1))
  {
  }

  lemma FailureTimers(o: Options, s: State, t: string, code: ErrorCode)
    requires t in s.subs.active
    ensures OldTimers(s, AckFailed(o, s, t, code))
  {
    match Classify(code)
    case FatalCategory => LossTimers(o, s, code);
    case Transient => if s.link.st == Reconnecting { LossTimers(o, s, code); } else { RetiredTimers(s, t, code); }
    case _ => RetiredTimers(s, t, code);
  }

  lemma SentTimers(o: Options, s: State, t: string, since: nat, accepts: nat -> bool)
    requires t in s.subs.active
    ensures OldTimers(s, SendSubscribe(o, s, t, since, accepts))
  {
    if !Takes(s.wire, accepts) { LossTimers(o, Unsendable(s, t, since), TransportFailure); }
  }

  lemma RejectionTimers(o: Options, s: State, t: string, reject: RejectReason, accepts: nat -> bool)
    requires t in s.subs.active
    ensures OldTimers(s, AckRejected(o, s, t, reject, accepts))
  {
    SentTimers(o, s.(subs := WithSlot(s.subs, t, Fallback(s.subs.active[t].slot))), t, 0, accepts);
    RetiredTimers(s, t, InternalError);
    RetiredTimers(s, t, RejectToError(reject));
  }

  // ------------------------------------------------------------------------------------------
  // Every way out.

  /** The input neither ends the session nor loses the connection. */
  predicate GoesOn(o: Options, s: State, i: Input) {
    && s.fault == NoFault && Lists(i.order, s.subs.active)
    && s.link.st != Idle && !Terminal(s.link.st) && Ordinary(s, i)
    && Ending(s, i) == None && Losing(o, Tick(s, i.elapsed), i) == None
  }

  /** A subscription the input is not about stays. */
  lemma OthersStay(o: Options, s: State, i: Input, t: string)
    requires Inv(o, s) && GoesOn(o, s, i) && t in s.subs.active && About(s, i) != Some(t)
    ensures t in Step(o, s, i).subs.active && Step(o, s, i).subs.active[t] == s.subs.active[t]
  {
    StepFate(o, s, i);
  }

  lemma InboundExit(o: Options, s: State, i: Input, t: string)
    requires Inv(o, s) && GoesOn(o, s, i) && i.event.Inbound? && s.wire.conn > 0 && t in s.subs.active && About(s, i) == Some(t)
    ensures var r, code := Step(o, s, i).subs, ExitCode(s, i, t);
      if code.Some? then Left(s.subs, r, t, code.value, code.value) else t in r.active
  {
    if MatchedAck(s, i.event.resp) {
      AcknowledgementTells(o, s, i);
    } else {
      AnsweredUnsubscribeExits(o, s, i, t);
    }
  }

  lemma PushedStays(o: Options, s: State, i: Input, t: string)
    requires GoesOn(o, s, i) && t in s.subs.active && (i.event.Pushed? || i.event.Subscribe?) && About(s, i) == Some(t)
    ensures t in Step(o, s, i).subs.active
  {
  }

  /** In one step that neither ends the session nor loses the connection a subscription leaves the
      table if and only if the input is one of the ways out: a posted unsubscribe, one made while
      there is no ready connection, one acknowledged, or a subscribe refused or rejected for good;
      its last word is the code. */
  lemma LeavesIff(o: Options, s: State, i: Input, t: string)
    requires Inv(o, s) && GoesOn(o, s, i) && t in s.subs.active
    ensures var r, code := Step(o, s, i).subs, ExitCode(s, i, t);
      if code.Some? then Left(s.subs, r, t, code.value, if i.event.UnsubscribeAsync? then s.subs.active[t].slot.error else code.value)
      else t in r.active
  {
    if About(s, i) != Some(t) {
      OthersStay(o, s, i, t);
    } else {
      match i.event
      case UnsubscribeAsync(_) => PostedUnsubscribeExits(o, s, i, t);
      case UnsubscribeSync(_) => UnsubscribeSyncExits(o, s, i, t);
      case Inbound(_) => if s.wire.conn > 0 { InboundExit(o, s, i, t); }
      case _ => PushedStays(o, s, i, t);
    }
  }

  /** A closed subscription stays as it is in every longer run, and nothing is ever told after its
      last word. */
  lemma NothingAfterClose(o: Options, ins: seq<Input>, k: nat, gone: Slot, slot: Slot)
    requires k <= |ins| && Run(o, ins).fault == NoFault && Run(o, ins[..k]).fault == NoFault
    requires gone in Run(o, ins[..k]).subs.retired
    ensures gone in Run(o, ins).subs.retired && PhaseOf(gone.log) == Over
    ensures Tracked(Run(o, ins).subs, slot) && gone.log <= slot.log ==> slot.log == gone.log
  {
    RunOnward(o, ins, k);
    RunKeeps(o, ins);
    if Tracked(Run(o, ins).subs, slot) && gone.log <= slot.log && slot.log != gone.log {
      StreamsAreWellFormed(o, ins, slot);
      OverIsTheEnd(gone.log, slot.log);
    }
  }

  lemma {:induction false} OverIsTheEnd(log: seq<Note>, longer: seq<Note>)
    requires PhaseOf(log) == Over && log < longer
    ensures PhaseOf(longer) == Broken
  {
    var front := longer[..|longer| - 1];
    if front != log {
      OverIsTheEnd(log, front);
    }
  }

  // ------------------------------------------------------------------------------------------
  // Entering the table.

  /** A new subscription: refused if the topic is taken, forgotten if its user is gone, recorded
      otherwise, and asked for at once on a ready connection that takes the request. */
  lemma SubscribeTells(o: Options, s: State, i: Input, t: string, semantics: Semantics, userClosed: bool)
    requires Inv(o, s) && s.fault == NoFault && Lists(i.order, s.subs.active) && i.event == Subscribe(t, semantics, userClosed)
    requires s.link.st == Ready && !userClosed && t !in s.subs.active ==> i.accepts(s.wire.nextId)
    ensures var r := Step(o, s, i);
      && r.link == s.link && r.table == s.table
      && if userClosed then r.subs == s.subs
         else if t in s.subs.active
         then r.subs.active == s.subs.active && Told(r.subs, [CloseNote(TopicAlreadySubscribed)], TopicAlreadySubscribed)
         else
           && t in r.subs.active && r.subs.active[t].slot.semantics == semantics && r.subs.active[t].slot.log == []
           && !r.subs.active[t].slot.resuming
           && (if s.link.st == Ready then Asked(s, r, t) else r.subs.active[t].slot.inflight == 0 && r.wire == s.wire)
  {
    if !userClosed && t in s.subs.active {
      var r := Shut(NewSlot(semantics, o.policy, o.queueSize), TopicAlreadySubscribed, TopicAlreadySubscribed);
      assert r.log == [CloseNote(TopicAlreadySubscribed)] && r in Step(o, s, i).subs.retired;
    }
  }

  // ------------------------------------------------------------------------------------------
  // Pushes.

  /** The pushes for topic t among the inputs. */
  function PushesTo(t: string, ins: seq<Input>): seq<Push> {
    if ins == [] then []
    else
      var last := ins[|ins| - 1];
      PushesTo(t, ins[..|ins| - 1]) + (if last.event.Pushed? && last.event.topic == t then [last.event.push] else [])
  }

  /** A stretch of a run in which the connection goes on and t is only pushed to. */
  ghost predicate Flows(o: Options, s: State, ins: seq<Input>, t: string) {
    ins != [] ==>
      var k := |ins| - 1;
      var before := RunFrom(o, s, ins[..k]);
      Flows(o, s, ins[..k], t) && GoesOn(o, before, ins[k]) && (About(before, ins[k]) == Some(t) ==> ins[k].event.Pushed?)
  }

  lemma PushStep(o: Options, s: State, i: Input, t: string)
    requires s.fault == NoFault && s.wire.conn > 0 && Lists(i.order, s.subs.active) && t in s.subs.active
    requires i.event.Pushed? && i.event.topic == t
    ensures var r := Step(o, s, i).subs.active; t in r && r[t] == s.subs.active[t].(slot := OnPush(s.subs.active[t].slot, i.event.push))
    ensures Step(o, s, i).link == s.link && Step(o, s, i).wire == s.wire && Step(o, s, i).fault == NoFault
  {
  }

  lemma OneFlow(o: Options, s: State, i: Input, t: string)
    requires Inv(o, s) && Serving(s) && t in s.subs.active && GoesOn(o, s, i)
    requires About(s, i) == Some(t) ==> i.event.Pushed?
    ensures var r := Step(o, s, i);
      && r.fault == NoFault && Serving(r) && t in r.subs.active
      && r.subs.active[t].slot == if i.event.Pushed? && i.event.topic == t then OnPush(s.subs.active[t].slot, i.event.push)
                                  else s.subs.active[t].slot
  {
    assert s.wire.conn > 0;
    if i.event.Pushed? && i.event.topic == t {
      PushStep(o, s, i, t);
    } else {
      StepFate(o, s, i);
      StepKeeps(o, s, i);
      GoesOnServing(o, s, i);
    }
  }

  lemma GoesOnServing(o: Options, s: State, i: Input)
    requires Inv(o, s) && s.fault == NoFault && Serving(s) && Good(o, Step(o, s, i))
    requires LeavesAlone(s, Step(o, s, i), CallDone(s, i), About(s, i))
    ensures Serving(Step(o, s, i))
  {
    if s.link.st == Reconnecting && Lists(i.order, s.subs.active) { BarrierStep(o, s, i); }
  }

  /** Pushing one more. */
  lemma PushesSnoc(slot: Slot, t: string, ins: seq<Input>)
    requires ins != []
    ensures var k := |ins| - 1;
      var before := PushAll(slot, PushesTo(t, ins[..k]));
      PushAll(slot, PushesTo(t, ins))
      == if ins[k].event.Pushed? && ins[k].event.topic == t then OnPush(before, ins[k].event.push) else before
  {
    var k := |ins| - 1;
    if ins[k].event.Pushed? && ins[k].event.topic == t {
      var ps, p := PushesTo(t, ins[..k]), ins[k].event.push;
      assert (ps + [p])[..|ps|] == ps;
    } else {
      assert PushesTo(t, ins) == PushesTo(t, ins[..k]);
    }
  }

  /** In use, with t as slot. */
  ghost predicate StillFlows(o: Options, r: State, slot: Slot, t: string) {
    Inv(o, r) && r.fault == NoFault && Serving(r) && t in r.subs.active && r.subs.active[t].slot == slot
  }

  /** A subscription of a connection that goes on is pushed exactly what arrives for it. */
  lemma {:induction false} StretchPushes(o: Options, s: State, ins: seq<Input>, t: string)
    requires Inv(o, s) && s.fault == NoFault && Serving(s) && t in s.subs.active && Flows(o, s, ins, t)
    ensures StillFlows(o, RunFrom(o, s, ins), PushAll(s.subs.active[t].slot, PushesTo(t, ins)), t)
  {
    if ins != [] {
      var k := |ins| - 1;
      StretchPushes(o, s, ins[..k], t);
      OneFlow(o, RunFrom(o, s, ins[..k]), ins[k], t);
      StepKeeps(o, RunFrom(o, s, ins[..k]), ins[k]);
      PushesSnoc(s.subs.active[t].slot, t, ins);
    }
  }

  /** So over any stretch of any run a flowing subscription is handed exactly the pushes for it:
      all of them, or of an event stream all that run ahead of everything before, with a gap
      exactly where numbers are missing. */
  lemma FlowingIsHandedAll(o: Options, s: State, ins: seq<Input>, t: string)
    requires Inv(o, s) && s.fault == NoFault && t in s.subs.active && s.subs.active[t].slot.state == Active
    requires Flows(o, s, ins, t)
    ensures var r := RunFrom(o, s, ins).subs.active;
      && t in r && s.subs.active[t].slot.log <= r[t].slot.log
      && var before, after, ps := s.subs.active[t].slot, r[t].slot, PushesTo(t, ins);
         && StreamDelivery.Frames(after.log)
            == StreamDelivery.Frames(before.log) + StreamDelivery.HandedOver(before.semantics, before.lastSeq, ps)
         && after.received == before.received + |StreamDelivery.HandedOver(before.semantics, before.lastSeq, ps)|
         && (before.semantics == Event ==> StreamDelivery.GapsFit(before.lastSeq, after.log[|before.log|..]))
  {
    var before, ps := s.subs.active[t].slot, PushesTo(t, ins);
    assert Fits(s.link, s.wire, s.subs.active[t]);
    StretchPushes(o, s, ins, t);
    StreamDelivery.FlowHandsOver(before, ps);
    if before.semantics == Event {
      StreamDelivery.GapsAreExact(before, ps);
    } else {
      StreamDelivery.TelemetryIsPlain(before, ps);
    }
  }
}
