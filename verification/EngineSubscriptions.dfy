/** The subscription handlers keep the invariant: sending, acknowledging, leaving, and the two
    walks over the table. */
module EngineSubscriptions {
  import opened Types
  import opened Stream
  import opened Engine
  import opened EngineInvariant
  import opened EngineKernel

  // ------------------------------------------------------------------------------------------
  // Sending a subscribe.

  /** A subscription that may be sent now, asking for a replay only from its position. */
  predicate Sendable(w: Wire, e: Entry, since: nat) {
    && Quiet(e)
    && (since == 0 || (e.slot.lastSeq > 0 && since == e.slot.lastSeq + 1))
    && (e.sentOn == w.conn ==> e.sends < if e.slot.retried then 2 else 1)
  }

  /** The same subscriptions, sent as often. */
  predicate SameSends(a: map<string, Entry>, b: map<string, Entry>) {
    && a.Keys == b.Keys
    && forall t :: t in a ==> b[t].sentOn == a[t].sentOn && b[t].sends == a[t].sends
  }

  lemma PausedSends(m: Subs, t: string, slot: Slot, reason: ErrorCode)
    requires t in m.active
    ensures SameSends(m.active, PauseAll(WithSlot(m, t, slot), reason).active)
  {
    var p := PauseAll(WithSlot(m, t, slot), reason).active;
    assert p.Keys == m.active.Keys;
  }

  /** The state in which a refused send closes the transport. */
  function Unsendable(s: State, t: string, since: nat): State
    requires t in s.subs.active
  {
    var slot := BeginSubscribe(s.subs.active[t].slot, since, s.wire.nextId, s.link.st == Reconnecting);
    s.(wire := Take(s.wire, false, SubscribeReq(t, slot.expected)),
       subs := WithSlot(s.subs, t, slot.(inflight := 0)))
  }

  lemma UnsentIds(w: Wire, rpcs: map<nat, Job>, m: Subs, t: string, slot: Slot, what: Request)
    requires IdsInv(w, rpcs, m) && t in m.active && slot.inflight == 0
    ensures IdsInv(Take(w, false, what), rpcs, WithSlot(m, t, slot))
  {
  }

  lemma UnsendableKeeps(o: Options, s: State, t: string, since: nat)
    requires Core(o, s) && t in s.subs.active
    requires var slot := s.subs.active[t].slot;
      && (slot.state == Pending || slot.state == Paused)
      && (since == 0 || (slot.lastSeq > 0 && since == slot.lastSeq + 1))
    ensures Core(o, Unsendable(s, t, since))
  {
    var e := s.subs.active[t];
    assert EntryOk(e) && SendsOk(s.wire, e);
    var slot := BeginSubscribe(e.slot, since, s.wire.nextId, s.link.st == Reconnecting);
    BeginSubscribeKeeps(e.slot, since, s.wire.nextId, s.link.st == Reconnecting);
    assert SlotInv(slot.(inflight := 0));
    UnsentIds(s.wire, s.table.rpcs, s.subs, t, slot.(inflight := 0), SubscribeReq(t, slot.expected));
  }

  /** If the socket does not take it, the transport is closed. */
  lemma RefusedSendKeeps(o: Options, s: State, t: string, since: nat, accepts: nat -> bool)
    requires Core(o, s) && Alive(s) && t in s.subs.active
    requires var slot := s.subs.active[t].slot;
      && (slot.state == Pending || slot.state == Paused)
      && (since == 0 || (slot.lastSeq > 0 && since == slot.lastSeq + 1))
    requires !Takes(s.wire, accepts)
    ensures var r := SendSubscribe(o, s, t, since, accepts);
      && Good(o, r)
      && (!HasReplay(s.table.rpcs) ==>
            r.fault == s.fault
            && (r.link.st == Fatal
                || (r.link.st == TransientFailure && SameSends(s.subs.active, r.subs.active) && r.wire.conn == s.wire.conn)))
  {
    var mid := Unsendable(s, t, since);
    UnsendableKeeps(o, s, t, since);
    CloseKeeps(o, mid, TransportFailure);
    PausedSends(s.subs, t, mid.subs.active[t].slot, TransportFailure);
    CloseSameConn(o, mid, TransportFailure);
    assert SendSubscribe(o, s, t, since, accepts) == OnTransportClose(o, mid, TransportFailure);
  }

  lemma CloseSameConn(o: Options, s: State, reason: ErrorCode)
    ensures OnTransportClose(o, s, reason).wire.conn == s.wire.conn
  {
  }

  /** A new request number for one subscription. */
  lemma LinkedSend(m: Subs, t: string, e: Entry, rid: nat)
    requires Linked(m) && t in m.active && rid !in m.req && rid !in m.timers && e.slot.inflight == rid
    ensures Linked(m.(active := m.active[t := e], req := m.req[rid := t], timers := m.timers[rid := t]))
  {
    var r := m.(active := m.active[t := e], req := m.req[rid := t], timers := m.timers[rid := t]);
    forall u | u in r.active ensures LinkedAt(r, u, r.active[u].slot.inflight) {
      assert LinkedAt(m, u, m.active[u].slot.inflight);
    }
  }

  /** If it does, the subscription is outstanding under the new number, and nothing else changes. */
  lemma TakenSend(o: Options, s: State, t: string, since: nat, accepts: nat -> bool)
    requires t in s.subs.active && Takes(s.wire, accepts) && Below(s.wire.sent, s.wire.nextId)
    ensures var r, e := SendSubscribe(o, s, t, since, accepts), s.subs.active[t];
      var slot := BeginSubscribe(e.slot, since, s.wire.nextId, s.link.st == Reconnecting);
      && r == s.(subs := r.subs, wire := r.wire)
      && r.wire == s.wire.(nextId := s.wire.nextId + 1, sent := r.wire.sent) && SentGrows(s.wire, r.wire)
      && r.subs == s.subs.(
           active := s.subs.active[t := Entry(slot, e.barrier, s.wire.conn, if e.sentOn == s.wire.conn then e.sends + 1 else 1)],
           req := s.subs.req[s.wire.nextId := t], timers := s.subs.timers[s.wire.nextId := t])
  {
  }

  lemma SentIds(w: Wire, rpcs: map<nat, Job>, m: Subs, t: string, e: Entry, what: Request)
    requires IdsInv(w, rpcs, m) && w.conn > 0 && t in m.active && e.slot.inflight == w.nextId
    ensures IdsInv(Take(w, true, what), rpcs,
                   m.(active := m.active[t := e], req := m.req[w.nextId := t], timers := m.timers[w.nextId := t]))
  {
  }

  lemma TakenSendKeeps(o: Options, s: State, t: string, since: nat, accepts: nat -> bool)
    requires Core(o, s) && t in s.subs.active && Sendable(s.wire, s.subs.active[t], since)
    requires Linked(s.subs) && Takes(s.wire, accepts) && s.wire.greeted && s.wire.conn > 0
    ensures var r := SendSubscribe(o, s, t, since, accepts);
      && Core(o, r) && Linked(r.subs)
      && r.subs.active == s.subs.active[t := r.subs.active[t]]
      && Waiting(r.subs.active[t]) && r.subs.active[t].barrier == s.subs.active[t].barrier
      && r == s.(subs := r.subs, wire := r.wire)
      && r.wire == s.wire.(nextId := r.wire.nextId, sent := r.wire.sent)
      && SentGrows(s.wire, r.wire)
      && r.subs.active[t].slot.retried == s.subs.active[t].slot.retried
  {
    var e, rid, r := s.subs.active[t], s.wire.nextId, SendSubscribe(o, s, t, since, accepts);
    var slot := BeginSubscribe(e.slot, since, rid, s.link.st == Reconnecting);
    TakenSend(o, s, t, since, accepts);
    assert EntryOk(e) && SendsOk(s.wire, e);
    BeginSubscribeKeeps(e.slot, since, rid, s.link.st == Reconnecting);
    LinkedSend(s.subs, t, r.subs.active[t], rid);
    SentIds(s.wire, s.table.rpcs, s.subs, t, r.subs.active[t], SubscribeReq(t, slot.expected));
    assert r.wire == Take(s.wire, true, SubscribeReq(t, slot.expected));
  }

  lemma OutstandingGrows(active: map<string, Entry>, t: string, e: Entry)
    requires t in active && active[t].slot.inflight == 0 && e.slot.inflight != 0
    ensures Outstanding(active[t := e]) == Outstanding(active) + {t} && t !in Outstanding(active)
    ensures |Outstanding(active[t := e])| == |Outstanding(active)| + 1
  {
    assert Outstanding(active[t := e]) == Outstanding(active) + {t};
  }

  lemma OutstandingShrinks(active: map<string, Entry>, t: string)
    requires t in active
    ensures Outstanding(active - {t}) == Outstanding(active) - {t}
    ensures |Outstanding(active - {t})| + (if active[t].slot.inflight != 0 then 1 else 0) == |Outstanding(active)|
  {
    assert Outstanding(active - {t}) == Outstanding(active) - {t};
    if active[t].slot.inflight != 0 {
      assert t in Outstanding(active);
    } else {
      assert Outstanding(active) - {t} == Outstanding(active);
    }
  }

  lemma OutstandingSame(active: map<string, Entry>, t: string, e: Entry)
    requires t in active && (active[t].slot.inflight != 0 <==> e.slot.inflight != 0)
    ensures Outstanding(active[t := e]) == Outstanding(active)
  {
  }

  lemma OutstandingSettles(active: map<string, Entry>, t: string, e: Entry)
    requires t in active && active[t].slot.inflight != 0 && e.slot.inflight == 0
    ensures Outstanding(active[t := e]) == Outstanding(active) - {t}
    ensures |Outstanding(active[t := e])| + 1 == |Outstanding(active)|
  {
    assert Outstanding(active[t := e]) == Outstanding(active) - {t};
    assert t in Outstanding(active);
  }

  /** A longer log changes nothing else. */
  lemma GrowthKeeps(l: Link, w: Wire, w': Wire, rpcs: map<nat, Job>)
    requires SentGrows(w, w')
    ensures StopConfirmed(w) ==> StopConfirmed(w')
    ensures Shape(l, w, rpcs) ==> Shape(l, w', rpcs)
    ensures WireInv(l, w) ==> WireInv(l, w')
  {
    if StopConfirmed(w) {
      var rid :| rid in w.okd && WasSent(w, rid, EStopReq(true));
      assert WasSent(w', rid, EStopReq(true));
    }
  }

  /** All of the invariant but for subscription t, which is between two requests; in the barrier
      it is still counted. */
  ghost predicate Between(o: Options, s: State, t: string) {
    && Core(o, s) && LinkInv(o, s.link) && Linked(s.subs)
    && Shape(s.link, s.wire, s.table.rpcs) && StopInv(s) && WireInv(s.link, s.wire)
    && (s.link.st == Ready || (s.link.st == Reconnecting && s.wire.greeted))
    && t in s.subs.active && s.subs.active[t].slot.inflight == 0
    && (s.link.st == Reconnecting ==> s.subs.active[t].barrier)
    && (forall u :: u in s.subs.active && u != t ==> Fits(s.link, s.wire, s.subs.active[u]))
    && BarrierCounts(s, 1)
  }

  /** The new request makes the subscription outstanding again. */
  lemma SentKeeps(o: Options, s: State, r: State, t: string)
    requires Between(o, s, t) && Core(o, r) && Linked(r.subs) && r == s.(subs := r.subs, wire := r.wire)
    requires t in r.subs.active && r.subs.active == s.subs.active[t := r.subs.active[t]]
    requires Waiting(r.subs.active[t]) && r.subs.active[t].barrier == s.subs.active[t].barrier
    requires SentGrows(s.wire, r.wire)
    ensures Inv(o, r)
  {
    OutstandingGrows(s.subs.active, t, r.subs.active[t]);
    GrowthKeeps(s.link, s.wire, r.wire, s.table.rpcs);
    assert Doing(r.link, r.wire, r.subs.active);
  }

  lemma SendKeeps(o: Options, s: State, t: string, since: nat, accepts: nat -> bool)
    requires Between(o, s, t) && Sendable(s.wire, s.subs.active[t], since)
    ensures Good(o, SendSubscribe(o, s, t, since, accepts))
  {
    var r := SendSubscribe(o, s, t, since, accepts);
    if Takes(s.wire, accepts) {
      TakenSendKeeps(o, s, t, since, accepts);
      SentKeeps(o, s, r, t);
    } else {
      RefusedSendKeeps(o, s, t, since, accepts);
    }
  }

  // ------------------------------------------------------------------------------------------
  // Acknowledgements.

  /** Everything but the barrier's last word: one more subscription has just been settled. */
  ghost predicate Settled(o: Options, s: State) {
    && Core(o, s) && LinkInv(o, s.link) && Linked(s.subs)
    && Shape(s.link, s.wire, s.table.rpcs) && StopInv(s) && WireInv(s.link, s.wire)
    && (s.link.st == Ready || (s.link.st == Reconnecting && s.wire.greeted))
    && Doing(s.link, s.wire, s.subs.active)
    && BarrierCounts(s, 1)
  }

  lemma ReadyKeeps(o: Options, s: State)
    requires Core(o, s) && s.link.retry == None && s.wire.conn > 0
    requires s.link.st == Reconnecting && s.wire.greeted && s.wire.up
    requires s.table.rpcs == map[] && Linked(s.subs) && Doing(s.link, s.wire, s.subs.active)
    requires s.engaged ==> StopConfirmed(s.wire)
    ensures Inv(o, EnterReady(s)) && EnterReady(s).link.st == Ready
  {
    var tr := s.link.trace + [Ready];
    assert tr[..|tr| - 1] == s.link.trace;
  }

  lemma FinishKeeps(o: Options, s: State)
    requires Settled(o, s)
    ensures Inv(o, FinishOne(s)) && FinishOne(s).fault == s.fault
  {
    if s.link.st == Reconnecting {
      var s1 := s.(barrier := s.barrier.(pending := s.barrier.pending - 1));
      if s1.barrier.pending == 0 && !s1.barrier.estop {
        ReadyKeeps(o, s1);
      }
    }
  }

  lemma UnmatchedAckKeeps(o: Options, s: State, rid: nat)
    requires Inv(o, s) && rid in s.subs.req
    requires s.subs.req[rid] in s.subs.active ==> s.subs.active[s.subs.req[rid]].slot.inflight != rid
    ensures Inv(o, s.(subs := s.subs.(req := s.subs.req - {rid}, timers := s.subs.timers - {rid})))
  {
    var m := s.subs.(req := s.subs.req - {rid}, timers := s.subs.timers - {rid});
    forall t | t in m.active ensures LinkedAt(m, t, m.active[t].slot.inflight) {
      assert LinkedAt(s.subs, t, s.subs.active[t].slot.inflight);
    }
  }

  lemma MatchedLinked(m: Subs, rid: nat)
    requires Linked(m) && rid in m.req && m.req[rid] in m.active && m.active[m.req[rid]].slot.inflight == rid
    ensures var m' := m.(req := m.req - {rid}, timers := m.timers - {rid});
      Linked(WithSlot(m', m.req[rid], m.active[m.req[rid]].slot.(inflight := 0)))
  {
    var m' := m.(req := m.req - {rid}, timers := m.timers - {rid});
    var r := WithSlot(m', m.req[rid], m.active[m.req[rid]].slot.(inflight := 0));
    forall u | u in r.active ensures LinkedAt(r, u, r.active[u].slot.inflight) {
      assert LinkedAt(m, u, m.active[u].slot.inflight);
    }
  }

  lemma MatchedCore(o: Options, s: State, rid: nat)
    requires Core(o, s) && rid in s.subs.req && s.subs.req[rid] in s.subs.active
    ensures Core(o, Matched(s, rid))
  {
    var e := s.subs.active[s.subs.req[rid]];
    assert EntryOk(e) && SendsOk(s.wire, e);
  }

  lemma MatchedAckKeeps(o: Options, s: State, rid: nat)
    requires Inv(o, s) && rid in s.subs.req && rid != 0
    requires s.subs.req[rid] in s.subs.active && s.subs.active[s.subs.req[rid]].slot.inflight == rid
    ensures var t := s.subs.req[rid];
      Between(o, Matched(s, rid), t) && Matched(s, rid).subs.active[t].slot.state == Pending
  {
    var t, r := s.subs.req[rid], Matched(s, rid);
    assert Fits(s.link, s.wire, s.subs.active[t]);
    MatchedCore(o, s, rid);
    OutstandingSettles(s.subs.active, t, r.subs.active[t]);
    MatchedLinked(s.subs, rid);
  }

  lemma RetiredSettles(o: Options, s: State, t: string, error: ErrorCode, reason: ErrorCode)
    requires Between(o, s, t)
    ensures Settled(o, s.(subs := Retire(s.subs, t, error, reason)))
  {
    RetireKeeps(s.subs, t, error, reason);
    OutstandingShrinks(s.subs.active, t);
    var r := Retire(s.subs, t, error, reason);
    forall u | u in r.active ensures LinkedAt(r, u, r.active[u].slot.inflight) {
      assert LinkedAt(s.subs, u, s.subs.active[u].slot.inflight);
    }
  }

  lemma AcceptedSettles(o: Options, s: State, t: string, next: nat)
    requires Between(o, s, t) && s.subs.active[t].slot.state == Pending
    ensures Settled(o, s.(subs := WithSlot(s.subs, t, Accept(s.subs.active[t].slot, next))))
  {
    var e := s.subs.active[t];
    assert EntryOk(e) && SendsOk(s.wire, e) && LinkedAt(s.subs, t, 0);
    AcceptKeeps(e.slot, next);
    OutstandingSame(s.subs.active, t, e.(slot := Accept(e.slot, next)));
  }

  lemma FallbackKept(o: Options, s: State, t: string)
    requires Between(o, s, t) && s.subs.active[t].slot.state == Pending && !s.subs.active[t].slot.retried
    ensures var s' := s.(subs := WithSlot(s.subs, t, Fallback(s.subs.active[t].slot)));
      Between(o, s', t) && Sendable(s'.wire, s'.subs.active[t], 0)
  {
    var e := s.subs.active[t];
    assert EntryOk(e) && SendsOk(s.wire, e) && LinkedAt(s.subs, t, 0);
    FallbackKeeps(e.slot);
    OutstandingSame(s.subs.active, t, e.(slot := Fallback(e.slot)));
  }

  /** A matched acknowledgement before it is acted on. */
  ghost predicate Answering(o: Options, s: State, t: string) {
    Between(o, s, t) && s.subs.active[t].slot.state == Pending
  }

  lemma RetireAndFinish(o: Options, s: State, t: string, error: ErrorCode)
    requires Answering(o, s, t)
    ensures Inv(o, FinishOne(s.(subs := Retire(s.subs, t, error, error))))
  {
    RetiredSettles(o, s, t, error, error);
    FinishKeeps(o, s.(subs := Retire(s.subs, t, error, error)));
  }

  lemma SettledWhenReady(o: Options, s: State)
    requires Settled(o, s) && s.link.st == Ready
    ensures Inv(o, s)
  {
  }

  lemma AckFailedKeeps(o: Options, s: State, t: string, code: ErrorCode)
    requires Answering(o, s, t)
    ensures Good(o, AckFailed(o, s, t, code))
  {
    if Classify(code) == FatalCategory {
      AbortKeeps(o, s, code);
    } else if Classify(code) != Transient {
      RetireAndFinish(o, s, t, code);
    } else if s.link.st == Reconnecting {
      CloseKeeps(o, s, code);
    } else {
      RetiredSettles(o, s, t, code, code);
      SettledWhenReady(o, s.(subs := Retire(s.subs, t, code, code)));
    }
  }

  lemma AckAcceptedKeeps(o: Options, s: State, t: string, next: nat)
    requires Answering(o, s, t)
    ensures Inv(o, AckAccepted(s, t, next))
  {
    AcceptedSettles(o, s, t, next);
    FinishKeeps(o, s.(subs := WithSlot(s.subs, t, Accept(s.subs.active[t].slot, next))));
  }

  lemma AckRejectedKeeps(o: Options, s: State, t: string, reject: RejectReason, accepts: nat -> bool)
    requires Answering(o, s, t)
    ensures Good(o, AckRejected(o, s, t, reject, accepts))
  {
    var slot := s.subs.active[t].slot;
    if slot.semantics == Event && (reject == HistoryTooOld || reject == ReplayNotSupported) {
      if slot.retried {
        RetireAndFinish(o, s, t, InternalError);
      } else {
        FallbackKept(o, s, t);
        SendKeeps(o, s.(subs := WithSlot(s.subs, t, Fallback(slot))), t, 0, accepts);
      }
    } else {
      RetireAndFinish(o, s, t, RejectToError(reject));
    }
  }

  lemma AckKeeps(o: Options, s: State, resp: Response, accepts: nat -> bool)
    requires Inv(o, s)
    ensures Good(o, HandleSubscribeAck(o, s, resp, accepts))
  {
    var rid := resp.requestId;
    if rid in s.subs.req {
      var t := s.subs.req[rid];
      if t !in s.subs.active || s.subs.active[t].slot.inflight != rid {
        UnmatchedAckKeeps(o, s, rid);
      } else {
        assert rid != 0;
        MatchedAckKeeps(o, s, rid);
        if !resp.success {
          AckFailedKeeps(o, Matched(s, rid), t, resp.code);
        } else if resp.accepted {
          AckAcceptedKeeps(o, Matched(s, rid), t, resp.nextSeq);
        } else {
          AckRejectedKeeps(o, Matched(s, rid), t, resp.reject, accepts);
        }
      }
    }
  }

  // ------------------------------------------------------------------------------------------
  // Coming and going.

  lemma NewEntryKeeps(o: Options, s: State, t: string, semantics: Semantics)
    requires Inv(o, s) && t !in s.subs.active
    ensures Inv(o, s.(subs := s.subs.(active := s.subs.active[t := Entry(NewSlot(semantics, o.policy, o.queueSize), false, 0, 0)])))
  {
    var e := Entry(NewSlot(semantics, o.policy, o.queueSize), false, 0, 0);
    NewSlotInv(semantics, o.policy, o.queueSize);
    assert Outstanding(s.subs.active[t := e]) == Outstanding(s.subs.active);
    assert LinkedAt(s.subs, t, 0);
    var m := s.subs.(active := s.subs.active[t := e]);
    forall u | u in m.active ensures LinkedAt(m, u, m.active[u].slot.inflight) {
      if u != t { assert LinkedAt(s.subs, u, s.subs.active[u].slot.inflight); }
    }
  }

  lemma SubscribeKeeps(o: Options, s: State, t: string, semantics: Semantics, userClosed: bool, accepts: nat -> bool)
    requires Inv(o, s)
    ensures Good(o, OnSubscribe(o, s, t, semantics, userClosed, accepts))
  {
    var slot := NewSlot(semantics, o.policy, o.queueSize);
    NewSlotInv(semantics, o.policy, o.queueSize);
    if userClosed {
    } else if t in s.subs.active {
      ShutKeeps(slot, TopicAlreadySubscribed, TopicAlreadySubscribed);
    } else {
      NewEntryKeeps(o, s, t, semantics);
      if s.link.st == Ready {
        var s1 := s.(subs := s.subs.(active := s.subs.active[t := Entry(slot, false, 0, 0)]));
        SendKeeps(o, s1, t, 0, accepts);
      }
    }
  }

  /** Taking a subscription out between steps; if it was outstanding in the barrier it is counted
      as abandoned. */
  lemma LeaveKeeps(o: Options, s: State, t: string, error: ErrorCode, reason: ErrorCode)
    requires Inv(o, s) && t in s.subs.active
    ensures Inv(o, s.(subs := Retire(s.subs, t, error, reason), barrier := Abandon(s, t)))
  {
    RetireKeeps(s.subs, t, error, reason);
    OutstandingShrinks(s.subs.active, t);
    var r := Retire(s.subs, t, error, reason);
    forall u | u in r.active ensures LinkedAt(r, u, r.active[u].slot.inflight) {
      assert LinkedAt(s.subs, u, s.subs.active[u].slot.inflight);
    }
  }

  lemma TakeKeeps(o: Options, s: State, takes: bool, what: Request)
    requires Inv(o, s)
    ensures Inv(o, s.(wire := Take(s.wire, takes, what)))
  {
    GrowthKeeps(s.link, s.wire, Take(s.wire, takes, what), s.table.rpcs);
  }

  lemma UnsubscribeAsyncKeeps(o: Options, s: State, t: string, open: bool, accepts: nat -> bool)
    requires Inv(o, s)
    ensures Inv(o, OnUnsubscribeAsync(s, t, open, accepts))
  {
    if t in s.subs.active {
      var slot := s.subs.active[t].slot;
      LeaveKeeps(o, s, t, slot.error, Ok);
      var s1 := s.(subs := Retire(s.subs, t, slot.error, Ok), barrier := Abandon(s, t));
      TakeKeeps(o, s1, Takes(s.wire, accepts), UnsubscribeReq(t));
    }
  }

  /** A change of one slot that touches neither its state nor its requests. */
  predicate Similar(a: Slot, b: Slot) {
    b.state == a.state && b.inflight == a.inflight && b.retried == a.retried
  }

  lemma SimilarLinked(m: Subs, t: string, slot: Slot)
    requires Linked(m) && t in m.active && Similar(m.active[t].slot, slot)
    ensures Linked(WithSlot(m, t, slot)) && Outstanding(WithSlot(m, t, slot).active) == Outstanding(m.active)
  {
    var m' := WithSlot(m, t, slot);
    OutstandingSame(m.active, t, m.active[t].(slot := slot));
    forall u | u in m'.active ensures LinkedAt(m', u, m'.active[u].slot.inflight) {
      assert LinkedAt(m, u, m.active[u].slot.inflight);
    }
  }

  lemma SimilarSubs(l: Link, w: Wire, rpcs: map<nat, Job>, m: Subs, t: string, slot: Slot)
    requires SlotsInv(m) && SendsInv(w, m.active) && IdsInv(w, rpcs, m) && Doing(l, w, m.active)
    requires t in m.active && SlotInv(slot) && Similar(m.active[t].slot, slot)
    ensures var m' := WithSlot(m, t, slot);
      SlotsInv(m') && SendsInv(w, m'.active) && IdsInv(w, rpcs, m') && Doing(l, w, m'.active)
  {
    var e := m.active[t];
    assert EntryOk(e) && SendsOk(w, e) && Fits(l, w, e);
  }

  lemma SlotChangeKeeps(o: Options, s: State, t: string, slot: Slot)
    requires Inv(o, s) && t in s.subs.active
    requires SlotInv(slot) && Similar(s.subs.active[t].slot, slot)
    ensures Inv(o, s.(subs := WithSlot(s.subs, t, slot)))
  {
    SimilarSubs(s.link, s.wire, s.table.rpcs, s.subs, t, slot);
    SimilarLinked(s.subs, t, slot);
  }

  lemma PushKeeps(o: Options, s: State, t: string, p: Push)
    requires Inv(o, s)
    ensures Inv(o, HandlePush(s, t, p))
  {
    if t in s.subs.active {
      var slot := s.subs.active[t].slot;
      assert EntryOk(s.subs.active[t]);
      OnPushKeeps(slot, p);
      OnPushFrame(slot, p);
      SlotChangeKeeps(o, s, t, OnPush(slot, p));
    }
  }

  lemma OnPushFrame(s: Slot, p: Push)
    ensures Similar(s, OnPush(s, p))
  {
  }

  // ------------------------------------------------------------------------------------------
  // Walks over the table.

  predicate Distinct(ts: seq<string>) {
    forall i, j :: 0 <= i < j < |ts| ==> ts[i] != ts[j]
  }

  /** Not yet subscribed on this connection. */
  predicate Unsent(w: Wire, e: Entry) {
    e.sentOn == w.conn ==> e.sends == 0
  }

  predicate AllUnsent(w: Wire, active: map<string, Entry>, ts: seq<string>) {
    forall i :: 0 <= i < |ts| ==> ts[i] in active && Unsent(w, active[ts[i]])
  }

  lemma WaitingStep(o: Options, s: State, t: string, accepts: nat -> bool)
    requires Inv(o, s) && s.fault == NoFault && t in s.subs.active
    requires s.link.st == Ready || s.link.st == TransientFailure
    requires s.link.st == Ready ==> Unsent(s.wire, s.subs.active[t])
    requires Fresh(s.subs.active[t])
    ensures var s1 := SendSubscribe(o, s, t, 0, accepts);
      && Good(o, s1) && s1.fault == NoFault
      && (s1.link.st == Ready || s1.link.st == TransientFailure || s1.link.st == Fatal)
      && (s1.link.st == Ready ==>
            s.link.st == Ready && s1.subs.active == s.subs.active[t := s1.subs.active[t]] && s1.wire.conn == s.wire.conn)
  {
    assert EntryOk(s.subs.active[t]);
    if Takes(s.wire, accepts) {
      SendKeeps(o, s, t, 0, accepts);
      TakenSendKeeps(o, s, t, 0, accepts);
    } else {
      RefusedSendKeeps(o, s, t, 0, accepts);
      NoReplayNow(o, s);
    }
  }

  /** The first Ready: each step of the walk keeps the whole invariant. */
  lemma {:induction false} SubscribeWaitingKeeps(o: Options, s: State, ts: seq<string>, accepts: nat -> bool)
    requires Inv(o, s) && s.fault == NoFault && Distinct(ts)
    requires s.link.st == Ready || s.link.st == TransientFailure
    requires s.link.st == Ready ==> AllUnsent(s.wire, s.subs.active, ts)
    ensures Good(o, SubscribeWaiting(o, s, ts, accepts))
    decreases |ts|
  {
    if ts != [] && ts[0] in s.subs.active {
      var t := ts[0];
      if Fresh(s.subs.active[t]) {
        var s1 := SendSubscribe(o, s, t, 0, accepts);
        WaitingStep(o, s, t, accepts);
        if s1.link.st == Fatal {
          FaultStays(o, Trampled(s1), ts[1..], accepts);
        } else {
          SubscribeWaitingKeeps(o, s1, ts[1..], accepts);
        }
      } else {
        SubscribeWaitingKeeps(o, s, ts[1..], accepts);
      }
    }
  }

  lemma FaultStays(o: Options, s: State, ts: seq<string>, accepts: nat -> bool)
    requires s.fault != NoFault
    ensures SubscribeWaiting(o, s, ts, accepts) == s && Resubscribe(o, s, ts, accepts) == s
  {
  }

  lemma NoReplayNow(o: Options, s: State)
    requires Inv(o, s) && s.link.st != Reconnecting
    ensures !HasReplay(s.table.rpcs)
  {
  }

  /** The subscriptions of ts are still to be sent, all others are outstanding. */
  predicate Halfway(active: map<string, Entry>, ts: seq<string>) {
    forall t :: t in active ==> if t in ts then Quiet(active[t]) else Waiting(active[t]) && active[t].barrier
  }

  lemma HalfwayStep(w: Wire, active: map<string, Entry>, ts: seq<string>, e: Entry)
    requires ts != [] && Distinct(ts) && Halfway(active, ts) && AllUnsent(w, active, ts)
    requires Waiting(e) && e.barrier
    ensures Halfway(active[ts[0] := e], ts[1..]) && AllUnsent(w, active[ts[0] := e], ts[1..]) && Distinct(ts[1..])
    ensures |active[ts[0] := e]| == |active|
  {
    assert ts[0] in active;
    assert forall u :: u in ts <==> u == ts[0] || u in ts[1..];
    assert ts[0] !in ts[1..];
    assert active[ts[0] := e].Keys == active.Keys;
  }

  /** In the middle of a resubscription walk that is going well: ts is still to be sent. */
  ghost predicate Walking(o: Options, s: State, ts: seq<string>) {
    && Core(o, s) && LinkInv(o, s.link) && Linked(s.subs)
    && StopInv(s) && WireInv(s.link, s.wire)
    && s.link.st == Reconnecting && s.wire.greeted && s.wire.up && s.table.rpcs == map[]
    && s.barrier == Barrier(|s.subs.active|, s.engaged, 0)
    && Distinct(ts) && AllUnsent(s.wire, s.subs.active, ts)
    && Halfway(s.subs.active, ts)
  }

  /** What a resubscription walk leaves behind. */
  ghost predicate Walked(o: Options, s: State) {
    s.fault == NoFault ==>
      if s.link.st == Reconnecting then Walking(o, s, []) else s.link.st == TransientFailure && Inv(o, s)
  }

  lemma ReadiedKeeps(o: Options, s: State, t: string)
    requires Core(o, s) && t in s.subs.active
    requires Unsent(s.wire, s.subs.active[t])
    ensures Core(o, Readied(s, t))
  {
    assert EntryOk(s.subs.active[t]) && SendsOk(s.wire, s.subs.active[t]);
    assert SlotInv(s.subs.active[t].slot.(retried := false));
  }

  lemma ReadiedSendable(o: Options, s: State, ts: seq<string>)
    requires ts != [] && Walking(o, s, ts)
    ensures var s0 := Readied(s, ts[0]);
      && Core(o, s0) && Linked(s0.subs) && s0 == s.(subs := s0.subs)
      && s0.subs.active == s.subs.active[ts[0] := s0.subs.active[ts[0]]] && s0.subs.active[ts[0]].barrier
      && Sendable(s0.wire, s0.subs.active[ts[0]], ResumeFrom(o, s.subs.active[ts[0]].slot))
  {
    ReadiedKeeps(o, s, ts[0]);
    assert EntryOk(s.subs.active[ts[0]]);
  }

  lemma WalkingOn(o: Options, s: State, s1: State, ts: seq<string>)
    requires ts != [] && Walking(o, s, ts) && Core(o, s1) && Linked(s1.subs)
    requires s1 == s.(subs := s1.subs, wire := s1.wire) && SentGrows(s.wire, s1.wire)
    requires ts[0] in s1.subs.active && s1.subs.active == s.subs.active[ts[0] := s1.subs.active[ts[0]]]
    requires Waiting(s1.subs.active[ts[0]]) && s1.subs.active[ts[0]].barrier
    ensures Walking(o, s1, ts[1..])
  {
    GrowthKeeps(s.link, s.wire, s1.wire, s.table.rpcs);
    HalfwayStep(s.wire, s.subs.active, ts, s1.subs.active[ts[0]]);
  }

  lemma FrameChain(s: State, s0: State, s1: State, t: string)
    requires t in s.subs.active && t in s0.subs.active && t in s1.subs.active
    requires s0 == s.(subs := s0.subs) && s1 == s0.(subs := s1.subs, wire := s1.wire)
    requires s0.subs.active == s.subs.active[t := s0.subs.active[t]]
    requires s1.subs.active == s0.subs.active[t := s1.subs.active[t]]
    ensures s1 == s.(subs := s1.subs, wire := s1.wire)
    ensures s1.subs.active == s.subs.active[t := s1.subs.active[t]]
  {
  }

  lemma ResubscribeTaken(o: Options, s: State, ts: seq<string>, accepts: nat -> bool)
    requires ts != [] && Walking(o, s, ts) && Takes(s.wire, accepts)
    ensures var s1 := ResubscribeOne(o, s, ts[0], accepts);
      && Core(o, s1) && Linked(s1.subs)
      && s1 == s.(subs := s1.subs, wire := s1.wire) && SentGrows(s.wire, s1.wire)
      && s1.subs.active == s.subs.active[ts[0] := s1.subs.active[ts[0]]]
      && Waiting(s1.subs.active[ts[0]]) && s1.subs.active[ts[0]].barrier
  {
    var t := ts[0];
    var s0, since := Readied(s, t), ResumeFrom(o, s.subs.active[t].slot);
    ReadiedSendable(o, s, ts);
    TakenSendKeeps(o, s0, t, since, accepts);
    FrameChain(s, s0, SendSubscribe(o, s0, t, since, accepts), t);
  }

  lemma WalkStep(o: Options, s: State, ts: seq<string>, accepts: nat -> bool)
    requires s.fault == NoFault && ts != [] && Walking(o, s, ts) && Takes(s.wire, accepts)
    ensures var s1 := ResubscribeOne(o, s, ts[0], accepts);
      s1.fault == NoFault && Walking(o, s1, ts[1..])
  {
    ResubscribeTaken(o, s, ts, accepts);
    WalkingOn(o, s, ResubscribeOne(o, s, ts[0], accepts), ts);
  }

  lemma ReadiedFrame(s: State, t: string)
    requires t in s.subs.active
    ensures var s0 := Readied(s, t);
      && s0 == s.(subs := s0.subs) && SameSends(s.subs.active, s0.subs.active)
      && s0.subs.active[t].slot == s.subs.active[t].slot.(retried := false)
  {
  }

  lemma SameSendsChain(a: map<string, Entry>, b: map<string, Entry>, c: map<string, Entry>)
    requires SameSends(a, b) && SameSends(b, c)
    ensures SameSends(a, c)
  {
  }

  lemma FailedStep(o: Options, s: State, t: string, accepts: nat -> bool)
    requires Core(o, s) && Alive(s) && s.fault == NoFault && t in s.subs.active
    requires s.table.rpcs == map[] && !Takes(s.wire, accepts)
    requires Quiet(s.subs.active[t]) && Unsent(s.wire, s.subs.active[t])
    ensures var s1 := ResubscribeOne(o, s, t, accepts);
      && Inv(o, s1) && s1.fault == NoFault
      && (s1.link.st == Fatal
          || (s1.link.st == TransientFailure && SameSends(s.subs.active, s1.subs.active) && s1.wire.conn == s.wire.conn))
  {
    var s0, s1, since := Readied(s, t), ResubscribeOne(o, s, t, accepts), ResumeFrom(o, s.subs.active[t].slot);
    ReadiedKeeps(o, s, t);
    ReadiedFrame(s, t);
    RefusedSendKeeps(o, s0, t, since, accepts);
    assert s1 == SendSubscribe(o, s0, t, since, accepts);
    if s1.link.st == TransientFailure {
      SameSendsChain(s.subs.active, s0.subs.active, s1.subs.active);
    }
  }

  /** After a failed send every further send of the walk fails too, and closes again. */
  lemma {:induction false} FailedWalkKeeps(o: Options, s: State, ts: seq<string>, accepts: nat -> bool)
    requires Inv(o, s) && s.fault == NoFault && s.link.st == TransientFailure
    requires AllUnsent(s.wire, s.subs.active, ts)
    ensures Walked(o, Resubscribe(o, s, ts, accepts))
    decreases |ts|
  {
    if ts != [] {
      var t := ts[0];
      assert Fits(s.link, s.wire, s.subs.active[t]);
      var s1 := ResubscribeOne(o, s, t, accepts);
      FailedStep(o, s, t, accepts);
      if s1.link.st == TransientFailure {
        assert AllUnsent(s1.wire, s1.subs.active, ts[1..]);
        FailedWalkKeeps(o, s1, ts[1..], accepts);
      } else {
        FaultStays(o, Trampled(s1), ts[1..], accepts);
      }
    }
  }

  lemma RefusedWalkKeeps(o: Options, s: State, ts: seq<string>, accepts: nat -> bool)
    requires s.fault == NoFault && Walking(o, s, ts) && ts != [] && !Takes(s.wire, accepts)
    ensures Walked(o, Resubscribe(o, s, ts, accepts))
  {
    var s1 := ResubscribeOne(o, s, ts[0], accepts);
    FailedStep(o, s, ts[0], accepts);
    if s1.link.st == TransientFailure {
      assert AllUnsent(s1.wire, s1.subs.active, ts[1..]);
      FailedWalkKeeps(o, s1, ts[1..], accepts);
    } else {
      FaultStays(o, Trampled(s1), ts[1..], accepts);
    }
  }

  lemma {:induction false} ResubscribeKeeps(o: Options, s: State, ts: seq<string>, accepts: nat -> bool)
    requires s.fault == NoFault && Walking(o, s, ts)
    ensures Walked(o, Resubscribe(o, s, ts, accepts))
    decreases |ts|
  {
    if ts != [] {
      if Takes(s.wire, accepts) {
        WalkStep(o, s, ts, accepts);
        ResubscribeKeeps(o, ResubscribeOne(o, s, ts[0], accepts), ts[1..], accepts);
      } else {
        RefusedWalkKeeps(o, s, ts, accepts);
      }
    }
  }
}
