/** The reconnect barrier: what one step inside it can do, how far it is from done, and when it
    can complete at all. */
module EngineBarrier {
  import opened Types
  import opened Stream
  import opened Engine
  import opened EngineInvariant
  import opened EngineKernel
  import opened EngineSubscriptions
  import opened EngineSteps

  /** After a reconnect handshake and before Ready. */
  predicate AtBarrier(s: State) {
    s.link.st == Reconnecting && s.wire.greeted
  }

  /** A greeted connection is in use. */
  predicate Serving(s: State) {
    s.link.st == Ready || AtBarrier(s)
  }

  /** No connection, and none being set up. */
  predicate Down(s: State) {
    s.link.st == TransientFailure || Terminal(s.link.st)
  }

  /** The input answers the handshake. */
  predicate AnswersHandshake(s: State, e: Event) {
    && e.Inbound? && !e.resp.hasSubscribe
    && e.resp.requestId in s.table.rpcs && s.table.rpcs[e.resp.requestId].Handshake?
  }

  function Unretried(active: map<string, Entry>): set<string> {
    set t | t in active && active[t].slot.inflight != 0 && !active[t].slot.retried
  }

  /** How many acknowledgements the barrier can still need: one for each outstanding subscribe,
      one more for each that may yet fall back to a subscribe from scratch. */
  function Load(active: map<string, Entry>): nat {
    |Outstanding(active)| + |Unretried(active)|
  }

  /** Whatever the reconnect resubscribed flows; whatever came later has not been sent. */
  predicate AllSettled(active: map<string, Entry>) {
    forall t :: t in active ==> if active[t].barrier then Live(active[t]) else Fresh(active[t])
  }

  /** The input carries the acknowledgement of an outstanding subscribe. */
  predicate IsMatchedAck(s: State, e: Event) {
    && e.Inbound? && e.resp.hasSubscribe
    && e.resp.requestId in s.subs.req
    && var t := s.subs.req[e.resp.requestId];
       t in s.subs.active && s.subs.active[t].slot.inflight == e.resp.requestId
  }

  /** The input unsubscribes a topic whose subscribe is outstanding. */
  predicate Leaves(s: State, e: Event) {
    match e
    case UnsubscribeAsync(t) => t in Outstanding(s.subs.active)
    case UnsubscribeSync(t) => t in Outstanding(s.subs.active)
    case _ => false
  }

  /** What a step from inside the barrier can lead to; steps is how much it must have advanced,
      gone how many outstanding subscriptions it took away. */
  ghost predicate Moves(s: State, s': State, steps: nat, gone: nat) {
    s'.fault == NoFault ==>
      match s'.link.st
      case Reconnecting =>
        && s'.wire.greeted && s'.wire.conn == s.wire.conn
        && s'.barrier.abandoned == s.barrier.abandoned + gone
        && Load(s'.subs.active) + steps <= Load(s.subs.active)
      case Ready =>
        && s'.wire.conn == s.wire.conn && s.barrier.abandoned == 0
        && Outstanding(s'.subs.active) == {} && AllSettled(s'.subs.active)
      case TransientFailure => true
      case Fatal => true
      case Shutdown => true
      case _ => false
  }

  // ------------------------------------------------------------------------------------------
  // The load of the table after a change of one entry.

  lemma LoadRemoved(active: map<string, Entry>, t: string)
    requires t in active
    ensures Load(active - {t}) + (if active[t].slot.inflight != 0 then 1 else 0) <= Load(active)
  {
    OutstandingShrinks(active, t);
    assert Unretried(active - {t}) == Unretried(active) - {t};
    assert |Unretried(active) - {t}| <= |Unretried(active)|;
  }

  lemma LoadSettled(active: map<string, Entry>, t: string, e: Entry)
    requires t in active && e.slot.inflight == 0
    ensures Load(active[t := e]) == Load(active - {t})
  {
    assert Outstanding(active[t := e]) == Outstanding(active - {t});
    assert Unretried(active[t := e]) == Unretried(active - {t});
  }

  /** Asked once more, for the last time. */
  lemma LoadAsked(active: map<string, Entry>, t: string, e: Entry)
    requires t in active && e.slot.inflight != 0 && e.slot.retried
    ensures Load(active[t := e]) == Load(active - {t}) + 1
  {
    assert Outstanding(active[t := e]) == Outstanding(active - {t}) + {t};
    assert Unretried(active[t := e]) == Unretried(active - {t});
  }

  /** Only whether a subscribe is outstanding counts, not its number. */
  lemma LoadSame(active: map<string, Entry>, t: string, e: Entry)
    requires if t in active then (e.slot.inflight != 0 <==> active[t].slot.inflight != 0) && e.slot.retried == active[t].slot.retried
             else e.slot.inflight == 0
    ensures Load(active[t := e]) == Load(active)
  {
    assert Outstanding(active[t := e]) == Outstanding(active);
    assert Unretried(active[t := e]) == Unretried(active);
  }

  // ------------------------------------------------------------------------------------------
  // Acknowledgements in the barrier.

  /** The last subscription settles the barrier; any other leaves it one less. */
  lemma FinishMoves(o: Options, s: State)
    requires Settled(o, s) && AtBarrier(s)
    ensures var r := FinishOne(s);
      && r.subs == s.subs && r.wire == s.wire && r.fault == s.fault
      && r.barrier.abandoned == s.barrier.abandoned
      && (r.link.st == Reconnecting
          || (r.link.st == Ready && s.barrier.abandoned == 0
              && Outstanding(s.subs.active) == {} && AllSettled(s.subs.active)))
  {
    forall t | t in s.subs.active && t !in Outstanding(s.subs.active)
      ensures if s.subs.active[t].barrier then Live(s.subs.active[t]) else Fresh(s.subs.active[t])
    {
      assert Fits(s.link, s.wire, s.subs.active[t]);
    }
  }

  lemma CloseMoves(o: Options, s: State, reason: ErrorCode)
    requires Core(o, s) && Alive(s)
    ensures var r := OnTransportClose(o, s, reason);
      r.fault != NoFault || r.link.st == TransientFailure || r.link.st == Fatal
  {
    CloseKeeps(o, s, reason);
  }

  /** Subscription t has been answered but not yet dealt with; load is what the barrier could
      still need before the answer. */
  ghost predicate Half(o: Options, s: State, t: string, load: nat) {
    && Answering(o, s, t) && AtBarrier(s) && s.fault == NoFault
    && Load(s.subs.active - {t}) + (if s.subs.active[t].slot.retried then 1 else 2) <= load
  }

  /** An outstanding subscription counts once, and once more while it may fall back. */
  lemma LoadOf(m: map<string, Entry>, t: string)
    requires t in m && m[t].slot.inflight != 0
    ensures Load(m - {t}) + (if m[t].slot.retried then 1 else 2) == Load(m)
  {
    OutstandingShrinks(m, t);
    assert Unretried(m - {t}) == Unretried(m) - {t};
    if m[t].slot.retried {
      assert Unretried(m) - {t} == Unretried(m);
    } else {
      assert t in Unretried(m);
    }
  }

  lemma MatchedHalf(o: Options, s: State, rid: nat)
    requires Inv(o, s) && s.fault == NoFault && AtBarrier(s) && rid in s.subs.req && rid != 0
    requires s.subs.req[rid] in s.subs.active && s.subs.active[s.subs.req[rid]].slot.inflight == rid
    ensures Half(o, Matched(s, rid), s.subs.req[rid], Load(s.subs.active))
  {
    var t := s.subs.req[rid];
    MatchedAckKeeps(o, s, rid);
    assert Matched(s, rid).subs.active - {t} == s.subs.active - {t};
    LoadOf(s.subs.active, t);
  }

  /** From the answered state s: nearer to the end, at it, or off the connection. */
  ghost predicate Advances(s: State, r: State, load: nat) {
    r.fault == NoFault ==>
      || r.link.st == TransientFailure || r.link.st == Fatal
      || (AtBarrier(r) && r.wire.conn == s.wire.conn && r.barrier.abandoned == s.barrier.abandoned
          && Load(r.subs.active) + 1 <= load)
      || (r.link.st == Ready && r.wire.conn == s.wire.conn && s.barrier.abandoned == 0
          && Outstanding(r.subs.active) == {} && AllSettled(r.subs.active))
  }

  lemma FinishAdvances(o: Options, s: State, s1: State, load: nat)
    requires Settled(o, s1) && AtBarrier(s1) && s1.fault == NoFault
    requires s1.wire == s.wire && s1.barrier == s.barrier && Load(s1.subs.active) + 1 <= load
    ensures Advances(s, FinishOne(s1), load)
  {
    FinishMoves(o, s1);
  }

  lemma RetiredAdvances(o: Options, s: State, t: string, error: ErrorCode, load: nat)
    requires Half(o, s, t, load)
    ensures Advances(s, FinishOne(s.(subs := Retire(s.subs, t, error, error))), load)
  {
    RetiredSettles(o, s, t, error, error);
    FinishAdvances(o, s, s.(subs := Retire(s.subs, t, error, error)), load);
  }

  lemma LostAdvances(o: Options, s: State, t: string, code: ErrorCode, load: nat)
    requires Half(o, s, t, load)
    ensures Advances(s, AbortToFatal(s, code), load) && Advances(s, OnTransportClose(o, s, code), load)
  {
    AbortKeeps(o, s, code);
    CloseMoves(o, s, code);
  }

  lemma FailedAdvances(o: Options, s: State, t: string, code: ErrorCode, load: nat)
    requires Half(o, s, t, load)
    ensures Advances(s, AckFailed(o, s, t, code), load)
  {
    if Classify(code) == FatalCategory || Classify(code) == Transient {
      LostAdvances(o, s, t, code, load);
    } else {
      RetiredAdvances(o, s, t, code, load);
    }
  }

  lemma AcceptedAdvances(o: Options, s: State, t: string, next: nat, load: nat)
    requires Half(o, s, t, load)
    ensures Advances(s, AckAccepted(s, t, next), load)
  {
    var e := s.subs.active[t];
    var slot := Accept(e.slot, next);
    assert EntryOk(e);
    AcceptKeeps(e.slot, next);
    AcceptedSettles(o, s, t, next);
    LoadSettled(s.subs.active, t, e.(slot := slot));
    FinishAdvances(o, s, s.(subs := WithSlot(s.subs, t, slot)), load);
  }

  lemma FallbackSent(o: Options, s: State, t: string, accepts: nat -> bool)
    requires t in s.subs.active && Takes(s.wire, accepts) && Below(s.wire.sent, s.wire.nextId) && 0 < s.wire.nextId
    ensures var r := SendSubscribe(o, s.(subs := WithSlot(s.subs, t, Fallback(s.subs.active[t].slot))), t, 0, accepts);
      && r.link == s.link && r.barrier == s.barrier && r.wire.conn == s.wire.conn && r.wire.greeted == s.wire.greeted
      && r.subs.active == s.subs.active[t := r.subs.active[t]]
      && r.subs.active[t].slot.inflight != 0 && r.subs.active[t].slot.retried
  {
    TakenSend(o, s.(subs := WithSlot(s.subs, t, Fallback(s.subs.active[t].slot))), t, 0, accepts);
  }

  lemma FallbackAdvances(o: Options, s: State, t: string, load: nat, accepts: nat -> bool)
    requires Half(o, s, t, load) && !s.subs.active[t].slot.retried
    ensures var s1 := s.(subs := WithSlot(s.subs, t, Fallback(s.subs.active[t].slot)));
      Advances(s, SendSubscribe(o, s1, t, 0, accepts), load)
  {
    var s1 := s.(subs := WithSlot(s.subs, t, Fallback(s.subs.active[t].slot)));
    if Takes(s.wire, accepts) {
      FallbackSent(o, s, t, accepts);
      AskedAdvances(o, s, SendSubscribe(o, s1, t, 0, accepts), t, load);
    } else {
      FallbackKept(o, s, t);
      RefusedAdvances(o, s1, t, accepts);
    }
  }

  lemma AskedAdvances(o: Options, s: State, r: State, t: string, load: nat)
    requires Half(o, s, t, load) && !s.subs.active[t].slot.retried
    requires r.link == s.link && r.barrier == s.barrier && r.wire.conn == s.wire.conn && r.wire.greeted
    requires t in r.subs.active && r.subs.active == s.subs.active[t := r.subs.active[t]]
    requires r.subs.active[t].slot.inflight != 0 && r.subs.active[t].slot.retried
    ensures Advances(s, r, load)
  {
    LoadAsked(s.subs.active, t, r.subs.active[t]);
  }

  lemma RefusedAdvances(o: Options, s: State, t: string, accepts: nat -> bool)
    requires Between(o, s, t) && Sendable(s.wire, s.subs.active[t], 0) && !Takes(s.wire, accepts)
    ensures var r := SendSubscribe(o, s, t, 0, accepts);
      r.fault == NoFault ==> r.link.st == TransientFailure || r.link.st == Fatal
  {
    var mid := Unsendable(s, t, 0);
    UnsendableKeeps(o, s, t, 0);
    CloseMoves(o, mid, TransportFailure);
    assert SendSubscribe(o, s, t, 0, accepts) == OnTransportClose(o, mid, TransportFailure);
  }

  lemma RejectedAdvances(o: Options, s: State, t: string, reject: RejectReason, load: nat, accepts: nat -> bool)
    requires Half(o, s, t, load)
    ensures Advances(s, AckRejected(o, s, t, reject, accepts), load)
  {
    var slot := s.subs.active[t].slot;
    if slot.semantics == Event && (reject == HistoryTooOld || reject == ReplayNotSupported) {
      if slot.retried {
        RetiredAdvances(o, s, t, InternalError, load);
      } else {
        FallbackAdvances(o, s, t, load, accepts);
      }
    } else {
      RetiredAdvances(o, s, t, RejectToError(reject), load);
    }
  }

  lemma MatchedAckMoves(o: Options, s: State, resp: Response, accepts: nat -> bool)
    requires Inv(o, s) && s.fault == NoFault && AtBarrier(s) && IsMatchedAck(s, Inbound(resp))
    ensures Moves(s, HandleSubscribeAck(o, s, resp, accepts), 1, 0)
  {
    var rid, t, load := resp.requestId, s.subs.req[resp.requestId], Load(s.subs.active);
    var s1 := Matched(s, rid);
    MatchedHalf(o, s, rid);
    if !resp.success {
      FailedAdvances(o, s1, t, resp.code, load);
    } else if resp.accepted {
      AcceptedAdvances(o, s1, t, resp.nextSeq, load);
    } else {
      RejectedAdvances(o, s1, t, resp.reject, load, accepts);
    }
    assert Advances(s1, HandleSubscribeAck(o, s, resp, accepts), load);
  }

  // ------------------------------------------------------------------------------------------
  // Every other step in the barrier.

  lemma ReplayMoves(o: Options, s: State, rid: nat, resp: Response)
    requires Inv(o, s) && s.fault == NoFault && AtBarrier(s)
    requires rid in s.table.rpcs
    ensures s.table.rpcs[rid] == Replay
    ensures var s1 := s.(table := s.table.(rpcs := s.table.rpcs - {rid}),
                         wire := if Succeeds(resp) then s.wire.(okd := s.wire.okd + {rid}) else s.wire);
      Moves(s, CompleteReplay(o, s1, resp), 0, 0)
  {
    SilentEntry(s.table, rid);
    var w := if Succeeds(resp) then s.wire.(okd := s.wire.okd + {rid}) else s.wire;
    var s1 := s.(table := s.table.(rpcs := s.table.rpcs - {rid}), wire := w, barrier := s.barrier.(estop := false));
    if !Succeeds(resp) {
      CloseMoves(o, s1, if resp.success then resp.rpcCode else resp.code);
    } else if s.barrier.pending == 0 {
      assert Outstanding(s.subs.active) == {};
      forall t | t in s.subs.active
        ensures if s.subs.active[t].barrier then Live(s.subs.active[t]) else Fresh(s.subs.active[t])
      {
        assert Fits(s.link, s.wire, s.subs.active[t]);
        assert t !in Outstanding(s.subs.active);
      }
    }
  }

  lemma InboundMoves(o: Options, s: State, resp: Response, accepts: nat -> bool, order: seq<string>)
    requires Inv(o, s) && s.fault == NoFault && AtBarrier(s)
    ensures Moves(s, HandleResponse(o, s, resp, accepts, order), if IsMatchedAck(s, Inbound(resp)) then 1 else 0, 0)
  {
    if resp.hasSubscribe {
      if IsMatchedAck(s, Inbound(resp)) { MatchedAckMoves(o, s, resp, accepts); }
    } else if resp.requestId in s.table.rpcs {
      ReplayMoves(o, s, resp.requestId, resp);
    }
  }

  lemma PushMoves(o: Options, s: State, t: string, p: Push)
    requires Inv(o, s) && AtBarrier(s)
    ensures Moves(s, HandlePush(s, t, p), 0, 0)
  {
    if t in s.subs.active {
      OnPushFrame(s.subs.active[t].slot, p);
      LoadSame(s.subs.active, t, s.subs.active[t].(slot := OnPush(s.subs.active[t].slot, p)));
    }
  }

  lemma UserMoves(o: Options, s: State, i: Input)
    requires Inv(o, s) && s.fault == NoFault && AtBarrier(s) && FromUser(i.event)
    ensures Moves(s, HandleUser(o, s, i), 0, if Leaves(s, i.event) then 1 else 0)
  {
    match i.event
    case Subscribe(t, semantics, _) =>
      if t !in s.subs.active {
        LoadSame(s.subs.active, t, Entry(NewSlot(semantics, o.policy, o.queueSize), false, 0, 0));
      }
    case UnsubscribeAsync(t) => if t in s.subs.active { LoadRemoved(s.subs.active, t); }
    case UnsubscribeSync(t) => if t in s.subs.active { LoadRemoved(s.subs.active, t); }
    case _ =>
  }

  lemma TimerMoves(o: Options, s: State, i: Input)
    requires Inv(o, s) && s.fault == NoFault && AtBarrier(s)
    ensures Moves(s, HandleTimer(o, s, i), 0, 0)
  {
    match i.event
    case RpcTimeout(rid) =>
      if rid in s.table.rpcs {
        SilentEntry(s.table, rid);
        CloseMoves(o, s.(table := s.table.(rpcs := s.table.rpcs - {rid}), barrier := s.barrier.(estop := false)), Timeout);
      }
    case AckTimeout(_, _) => CloseMoves(o, s, Timeout);
    case _ =>
  }

  lemma MessageMoves(o: Options, s: State, i: Input)
    requires Inv(o, s) && s.fault == NoFault && AtBarrier(s) && (i.event.Inbound? || i.event.Pushed?)
    ensures var e := i.event;
      Moves(s, if e.Inbound? then HandleResponse(o, s, e.resp, i.accepts, i.order) else HandlePush(s, e.topic, e.push),
            if IsMatchedAck(s, e) then 1 else 0, 0)
  {
    if i.event.Inbound? {
      InboundMoves(o, s, i.event.resp, i.accepts, i.order);
    } else {
      PushMoves(o, s, i.event.topic, i.event.push);
    }
  }

  lemma NotedMoves(s: State, s': State, steps: nat, gone: nat)
    requires Moves(Noted(s), s', steps, gone)
    ensures Moves(s, s', steps, gone)
  {
  }

  lemma SocketMoves(o: Options, s: State, i: Input)
    requires Inv(o, s) && s.fault == NoFault && AtBarrier(s)
    ensures Moves(s, HandleSocket(o, s, i), if IsMatchedAck(s, i.event) then 1 else 0, 0)
  {
    if i.event.TransportClosed? {
      CloseMoves(o, s, if i.event.clean then Cancelled else TransportFailure);
    } else if i.event.Inbound? || i.event.Pushed? {
      NotedKeeps(o, s);
      MessageMoves(o, Noted(s), i);
      NotedMoves(s, HandleSocket(o, s, i), if IsMatchedAck(s, i.event) then 1 else 0, 0);
    }
  }

  /** One step from inside the barrier stays in it no further from done, and one acknowledgement
      nearer if it was one; or it settles it, which takes that nothing was abandoned; or it loses
      the connection. */
  lemma BarrierStep(o: Options, s: State, i: Input)
    requires Inv(o, s) && s.fault == NoFault && AtBarrier(s)
    ensures var acts := Lists(i.order, s.subs.active);
      Moves(s, Step(o, s, i), if IsMatchedAck(s, i.event) && acts then 1 else 0, if Leaves(s, i.event) && acts then 1 else 0)
  {
    if Lists(i.order, s.subs.active) {
      var s1 := Tick(s, i.elapsed);
      ClockKeeps(o, s, i.elapsed);
      if FromUser(i.event) {
        UserMoves(o, s1, i);
      } else if FromSocket(i.event) {
        SocketMoves(o, s1, i);
      } else {
        TimerMoves(o, s1, i);
      }
    }
  }
}
