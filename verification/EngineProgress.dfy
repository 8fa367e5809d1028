/** Whether a reconnect can complete: exactly when nothing was unsubscribed while its subscribe
    was outstanding. */
module EngineProgress {
  import opened Types
  import opened Stream
  import opened Engine
  import opened EngineInvariant
  import opened EngineKernel
  import opened EngineSubscriptions
  import opened EngineSteps
  import opened EngineBarrier
  import opened EngineHistory

  // ------------------------------------------------------------------------------------------
  // Abandoned: the barrier never completes on this connection.

  lemma UnmatchedWhenDown(o: Options, s: State, resp: Response, accepts: nat -> bool, order: seq<string>)
    requires Inv(o, s) && Down(s)
    ensures HandleResponse(o, s, resp, accepts, order).link == s.link
  {
    if resp.hasSubscribe && resp.requestId in s.subs.req && s.subs.req[resp.requestId] in s.subs.active {
      assert Fits(s.link, s.wire, s.subs.active[s.subs.req[resp.requestId]]);
    }
  }

  lemma DownSocketStep(o: Options, s: State, i: Input)
    requires Inv(o, s) && Down(s)
    ensures var s' := HandleSocket(o, s, i); s'.fault == NoFault ==> Down(s')
  {
    match i.event
    case Inbound(resp) =>
      NotedKeeps(o, s);
      UnmatchedWhenDown(o, Noted(s), resp, i.accepts, i.order);
    case TransportClosed(clean) =>
      if s.link.st == TransientFailure { CloseMoves(o, s, if clean then Cancelled else TransportFailure); }
    case _ =>
  }

  /** A retry that opens no socket ends where it began. */
  lemma RefusedRetry(o: Options, s: State, dial: Dial, accepts: nat -> bool)
    requires Inv(o, s) && s.link.st == TransientFailure
    ensures var s' := OnRetryTimer(o, s, dial, accepts);
      s'.fault == NoFault ==> Down(s') || s'.wire.conn > s.wire.conn
  {
  }

  lemma DownTimerStep(o: Options, s: State, i: Input)
    requires Inv(o, s) && Down(s)
    ensures var s' := HandleTimer(o, s, i); s'.fault == NoFault ==> Down(s') || s'.wire.conn > s.wire.conn
  {
    match i.event
    case AckTimeout(_, _) => if s.link.st == TransientFailure { CloseMoves(o, s, Timeout); }
    case RetryTimer(dial) => if s.link.st == TransientFailure { RefusedRetry(o, s, dial, i.accepts); }
    case _ =>
  }

  /** Without a connection, only a new socket leads anywhere. */
  lemma DownStep(o: Options, s: State, i: Input)
    requires Inv(o, s) && s.fault == NoFault && Down(s)
    ensures var s' := Step(o, s, i); s'.fault == NoFault ==> Down(s') || s'.wire.conn > s.wire.conn
  {
    if Lists(i.order, s.subs.active) {
      ClockKeeps(o, s, i.elapsed);
      if FromUser(i.event) {
      } else if FromSocket(i.event) {
        DownSocketStep(o, Tick(s, i.elapsed), i);
      } else {
        DownTimerStep(o, Tick(s, i.elapsed), i);
      }
    }
  }

  ghost predicate Hopeless(o: Options, s: State, conn: nat) {
    s.fault == NoFault ==>
      Inv(o, s) && (s.wire.conn > conn || (s.wire.conn == conn && (Down(s) || (AtBarrier(s) && s.barrier.abandoned > 0))))
  }

  lemma HopelessStep(o: Options, s: State, i: Input, conn: nat)
    requires Hopeless(o, s, conn)
    ensures Hopeless(o, Step(o, s, i), conn)
  {
    if s.fault == NoFault {
      StepKeeps(o, s, i);
      StepOnward(o, s, i);
      if Down(s) {
        DownStep(o, s, i);
      } else if AtBarrier(s) && s.barrier.abandoned > 0 {
        BarrierStep(o, s, i);
      }
    }
  }

  /** If a subscription left while its subscribe was outstanding, the pending count never reaches
      zero: whatever happens, this connection does not become Ready. */
  lemma {:induction false} AbandonedNeverReady(o: Options, s: State, ins: seq<Input>)
    requires Inv(o, s) && s.fault == NoFault && AtBarrier(s) && s.barrier.abandoned > 0
    ensures Hopeless(o, RunFrom(o, s, ins), s.wire.conn)
    ensures var r := RunFrom(o, s, ins);
      r.fault == NoFault && r.wire.conn == s.wire.conn ==> r.link.st != Ready
  {
    if ins != [] {
      var k := |ins| - 1;
      AbandonedNeverReady(o, s, ins[..k]);
      HopelessStep(o, RunFrom(o, s, ins[..k]), ins[k], s.wire.conn);
    }
  }

  // ------------------------------------------------------------------------------------------
  // Not abandoned: the barrier can complete.

  /** A table can always be walked. */
  lemma {:induction false} OrderOf(active: map<string, Entry>) returns (ts: seq<string>)
    ensures Lists(ts, active)
    decreases |active|
  {
    if active == map[] {
      ts := [];
    } else {
      var t :| t in active;
      assert |active - {t}| < |active| by {
        assert (active - {t}).Keys == active.Keys - {t};
      }
      var rest := OrderOf(active - {t});
      ts := [t] + rest;
    }
  }

  function Accepting(rid: nat): Response {
    Response(rid, true, Ok, false, false, Ok, true, true, NoReason, 0)
  }

  function Confirming(rid: nat): Response {
    Response(rid, true, Ok, false, false, Ok, false, false, NoReason, 0)
  }

  /** A response on an open socket that takes every request. */
  function Answer(resp: Response, order: seq<string>): Input {
    Input(Inbound(resp), 0, (n: nat) => true, true, order)
  }

  /** One more subscription is acknowledged: nearer to Ready, or there. */
  ghost predicate Nearer(s: State, s': State) {
    && s'.fault == NoFault && s'.wire.conn == s.wire.conn
    && (s'.link.st == Ready
        || (AtBarrier(s') && s'.barrier.abandoned == 0
            && Load(s'.subs.active) < Load(s.subs.active)))
  }

  lemma AcceptedStays(o: Options, s: State, t: string, next: nat)
    requires t in s.subs.active && s.link.st == Reconnecting
    ensures var r := AckAccepted(s, t, next);
      r.fault == s.fault && (r.link.st == Ready || r.link.st == Reconnecting)
  {
  }

  lemma AcceptAck(o: Options, s: State, t: string, accepts: nat -> bool)
    requires Inv(o, s) && s.fault == NoFault && AtBarrier(s) && s.barrier.abandoned == 0
    requires t in Outstanding(s.subs.active)
    ensures Nearer(s, HandleSubscribeAck(o, s, Accepting(s.subs.active[t].slot.inflight), accepts))
  {
    var rid := s.subs.active[t].slot.inflight;
    assert LinkedAt(s.subs, t, rid);
    MatchedHalf(o, s, rid);
    AcceptedAdvances(o, Matched(s, rid), t, 0, Load(s.subs.active));
    AcceptedStays(o, Matched(s, rid), t, 0);
    assert HandleSubscribeAck(o, s, Accepting(rid), accepts) == AckAccepted(Matched(s, rid), t, 0);
  }

  lemma AcceptStep(o: Options, s: State, t: string, order: seq<string>)
    requires Inv(o, s) && s.fault == NoFault && AtBarrier(s) && s.barrier.abandoned == 0
    requires t in Outstanding(s.subs.active) && Lists(order, s.subs.active)
    ensures var s' := Step(o, s, Answer(Accepting(s.subs.active[t].slot.inflight), order));
      Inv(o, s') && Nearer(s, s')
  {
    var i := Answer(Accepting(s.subs.active[t].slot.inflight), order);
    var s0 := Noted(Tick(s, 0));
    StepKeeps(o, s, i);
    ClockKeeps(o, s, 0);
    NotedKeeps(o, Tick(s, 0));
    AcceptAck(o, s0, t, i.accepts);
    assert Step(o, s, i) == HandleSubscribeAck(o, s0, i.event.resp, i.accepts);
  }

  lemma ConfirmStep(o: Options, s: State, rid: nat, order: seq<string>)
    requires Inv(o, s) && s.fault == NoFault && AtBarrier(s)
    requires s.barrier.pending == 0 && rid in s.table.rpcs && Lists(order, s.subs.active)
    ensures var s' := Step(o, s, Answer(Confirming(rid), order));
      s'.fault == NoFault && s'.wire.conn == s.wire.conn && s'.link.st == Ready
  {
    assert s.table.rpcs[rid] == Replay;
  }

  lemma {:induction false} RunFromStep(o: Options, s: State, i: Input, ins: seq<Input>)
    ensures RunFrom(o, s, [i] + ins) == RunFrom(o, Step(o, s, i), ins)
  {
    var all := [i] + ins;
    var k := |all| - 1;
    if ins == [] {
      assert all[..k] == [] && all[k] == i;
      assert RunFrom(o, s, all[..k]) == s;
    } else {
      assert all[..k] == [i] + ins[..|ins| - 1] && all[k] == ins[|ins| - 1];
      RunFromStep(o, s, i, ins[..|ins| - 1]);
    }
  }

  /** If nothing was abandoned, some sequence of answers takes this connection to Ready. */
  lemma {:induction false} BarrierCompletes(o: Options, s: State) returns (ins: seq<Input>)
    requires Inv(o, s) && s.fault == NoFault && AtBarrier(s) && s.barrier.abandoned == 0
    ensures var r := RunFrom(o, s, ins);
      r.fault == NoFault && r.wire.conn == s.wire.conn && r.link.st == Ready
    decreases Load(s.subs.active)
  {
    var order := OrderOf(s.subs.active);
    if Outstanding(s.subs.active) == {} {
      var rid :| rid in s.table.rpcs;
      ConfirmStep(o, s, rid, order);
      ins := [Answer(Confirming(rid), order)];
      RunFromStep(o, s, ins[0], []);
    } else {
      var t :| t in Outstanding(s.subs.active);
      var i := Answer(Accepting(s.subs.active[t].slot.inflight), order);
      AcceptStep(o, s, t, order);
      var rest := [];
      if Step(o, s, i).link.st != Ready {
        rest := BarrierCompletes(o, Step(o, s, i));
      }
      ins := [i] + rest;
      RunFromStep(o, s, i, rest);
    }
  }

  ghost predicate CanBecomeReady(o: Options, s: State) {
    exists ins :: BecomesReady(o, s, ins)
  }

  predicate BecomesReady(o: Options, s: State, ins: seq<Input>) {
    var r := RunFrom(o, s, ins);
    r.fault == NoFault && r.wire.conn == s.wire.conn && r.link.st == Ready
  }

  /** A reconnect in the barrier can complete on its connection if and only if no subscription
      left the table while its subscribe was outstanding. */
  lemma CompletesIffNothingAbandoned(o: Options, before: seq<Input>)
    requires var s := Run(o, before); s.fault == NoFault && AtBarrier(s)
    ensures var s := Run(o, before); CanBecomeReady(o, s) <==> s.barrier.abandoned == 0
  {
    var s := Run(o, before);
    RunKeeps(o, before);
    if s.barrier.abandoned == 0 {
      var ins := BarrierCompletes(o, s);
      assert BecomesReady(o, s, ins);
    } else {
      forall ins ensures !BecomesReady(o, s, ins) {
        AbandonedNeverReady(o, s, ins);
      }
    }
  }
}
