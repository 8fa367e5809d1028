/** A lost connection can always be recovered: no reachable TransientFailure is a dead end. */
module EngineRecovery {
  import opened Types
  import opened Stream
  import opened Engine
  import opened EngineInvariant
  import opened EngineKernel
  import opened EngineSubscriptions
  import opened EngineSteps
  import opened EngineBarrier
  import opened EngineProgress
  import opened EngineFaults

  /** Every request of the walk is taken: all subscribes are outstanding afterwards. */
  lemma {:induction false} WalkTaken(o: Options, s: State, ts: seq<string>, accepts: nat -> bool)
    requires s.fault == NoFault && Walking(o, s, ts) && TakesNext(s.wire, accepts, |ts|)
    ensures var r := Resubscribe(o, s, ts, accepts);
      r.fault == NoFault && Walking(o, r, []) && r.wire.conn == s.wire.conn
    decreases |ts|
  {
    if ts != [] {
      TakenTurn(o, s, ts, accepts);
      WalkTaken(o, ResubscribeOne(o, s, ts[0], accepts), ts[1..], accepts);
    }
  }

  lemma TakenTurn(o: Options, s: State, ts: seq<string>, accepts: nat -> bool)
    requires ts != [] && s.fault == NoFault && Walking(o, s, ts) && TakesNext(s.wire, accepts, |ts|)
    ensures var s1 := ResubscribeOne(o, s, ts[0], accepts);
      && s1.fault == NoFault && Walking(o, s1, ts[1..]) && TakesNext(s1.wire, accepts, |ts| - 1)
      && s1.wire.conn == s.wire.conn
      && Resubscribe(o, s, ts, accepts) == Resubscribe(o, s1, ts[1..], accepts)
  {
    var s1 := ResubscribeOne(o, s, ts[0], accepts);
    assert accepts(s.wire.nextId);
    WalkStep(o, s, ts, accepts);
    TakenWalkStep(o, s, ts, accepts);
    TakesNextStep(s.wire, s1.wire, accepts, |ts|);
    SendSameConn(o, Readied(s, ts[0]), ts[0], ResumeFrom(o, s.subs.active[ts[0]].slot), accepts);
  }

  /** Subscription t has been asked for again on the current connection: with a replay from just
      after the last frame handed over if it keeps a position and the option is on, from scratch
      otherwise. It may fall back once, and will be told that it is resumed if it was paused or
      ever flowed. */
  predicate Asked(o: Options, before: Slot, t: string, s: State) {
    && t in s.subs.active
    && var slot := s.subs.active[t].slot;
       && slot.state == Pending && !slot.retried && slot.lastSeq == before.lastSeq && slot.log == before.log
       && slot.everActive == before.everActive && (slot.resuming <==> before.state == Paused || before.everActive)
       && if before.semantics == Event && before.lastSeq > 0 && o.replayHistory
          then WasSent(s.wire, slot.inflight, SubscribeReq(t, before.lastSeq + 1))
          else WasSent(s.wire, slot.inflight, SubscribeReq(t, 0))
  }

  /** A turn of the walk leaves the others alone and asks for the frame after the last one. */
  lemma TurnAsks(o: Options, s: State, ts: seq<string>, accepts: nat -> bool)
    requires ts != [] && s.fault == NoFault && Walking(o, s, ts) && Takes(s.wire, accepts)
    ensures var s1 := ResubscribeOne(o, s, ts[0], accepts);
      && SentGrows(s.wire, s1.wire) && ts[0] in s1.subs.active
      && s1.subs.active == s.subs.active[ts[0] := s1.subs.active[ts[0]]]
      && Asked(o, s.subs.active[ts[0]].slot, ts[0], s1)
  {
    ResubscribeTaken(o, s, ts, accepts);
    OneAsked(o, s, ts[0], accepts);
  }

  lemma OneAsked(o: Options, s: State, t: string, accepts: nat -> bool)
    requires t in s.subs.active && Takes(s.wire, accepts) && Below(s.wire.sent, s.wire.nextId) && s.link.st == Reconnecting
    ensures Asked(o, s.subs.active[t].slot, t, ResubscribeOne(o, s, t, accepts))
  {
    TakenSend(o, Readied(s, t), t, ResumeFrom(o, s.subs.active[t].slot), accepts);
  }

  lemma {:induction false} WalkKeepsOthers(o: Options, s: State, ts: seq<string>, u: string, accepts: nat -> bool)
    requires s.fault == NoFault && Walking(o, s, ts) && TakesNext(s.wire, accepts, |ts|)
    requires u in s.subs.active && u !in ts
    ensures var r := Resubscribe(o, s, ts, accepts);
      u in r.subs.active && r.subs.active[u] == s.subs.active[u] && SentGrows(s.wire, r.wire)
    decreases |ts|
  {
    if ts != [] {
      assert accepts(s.wire.nextId);
      TakenTurn(o, s, ts, accepts);
      TurnAsks(o, s, ts, accepts);
      WalkKeepsOthers(o, ResubscribeOne(o, s, ts[0], accepts), ts[1..], u, accepts);
    }
  }

  /** After a walk whose requests are all taken, every subscription has been asked for again on
      this connection, from the position it had before. */
  lemma {:induction false} WalkAsksAll(o: Options, s: State, ts: seq<string>, t: string, accepts: nat -> bool)
    requires s.fault == NoFault && Walking(o, s, ts) && TakesNext(s.wire, accepts, |ts|) && t in ts
    ensures var r := Resubscribe(o, s, ts, accepts);
      t in s.subs.active && Asked(o, s.subs.active[t].slot, t, r)
    decreases |ts|
  {
    var s1 := ResubscribeOne(o, s, ts[0], accepts);
    assert accepts(s.wire.nextId);
    TakenTurn(o, s, ts, accepts);
    TurnAsks(o, s, ts, accepts);
    if t == ts[0] {
      assert t !in ts[1..];
      WalkKeepsOthers(o, s1, ts[1..], t, accepts);
    } else {
      assert t in ts[1..];
      WalkAsksAll(o, s1, ts[1..], t, accepts);
    }
  }

  lemma SendSameConn(o: Options, s: State, t: string, since: nat, accepts: nat -> bool)
    requires t in s.subs.active
    ensures SendSubscribe(o, s, t, since, accepts).wire.conn == s.wire.conn
  {
  }

  /** The barrier with every subscription asked for again and counted. */
  ghost predicate Reopened(o: Options, s: State, r: State) {
    && r.fault == NoFault && AtBarrier(r) && r.wire.conn == s.wire.conn
    && r.barrier == Barrier(|s.subs.active|, s.engaged, 0)
    && r.subs.active.Keys == s.subs.active.Keys
    && forall t :: t in s.subs.active ==> Asked(o, s.subs.active[t].slot, t, r)
  }

  /** As a reconnect handshake opens it: an engaged stop is sent again on this connection. */
  ghost predicate Opening(o: Options, s: State, r: State) {
    && Reopened(o, s, r)
    && if s.engaged then exists rid: nat :: r.table.rpcs == map[rid := Replay] && WasSent(r.wire, rid, EStopReq(true))
       else r.table.rpcs == map[]
  }

  lemma {:induction false} WalkKeys(o: Options, s: State, ts: seq<string>, accepts: nat -> bool)
    requires s.fault == NoFault && Walking(o, s, ts) && TakesNext(s.wire, accepts, |ts|)
    ensures var r := Resubscribe(o, s, ts, accepts);
      r.subs.active.Keys == s.subs.active.Keys && r.wire.nextId == s.wire.nextId + |ts| && r.engaged == s.engaged
    decreases |ts|
  {
    if ts != [] {
      assert accepts(s.wire.nextId);
      TakenTurn(o, s, ts, accepts);
      TurnAsks(o, s, ts, accepts);
      TakenWalkStep(o, s, ts, accepts);
      SendFrame(o, Readied(s, ts[0]), ts[0], ResumeFrom(o, s.subs.active[ts[0]].slot), accepts);
      WalkKeys(o, ResubscribeOne(o, s, ts[0], accepts), ts[1..], accepts);
    }
  }

  /** After the walk the stop, if engaged, is sent. */
  lemma StopSent(o: Options, s: State, accepts: nat -> bool)
    requires Walking(o, s, []) && accepts(s.wire.nextId)
    ensures var r := DoEStopReplay(o, s, accepts);
      && r.fault == s.fault && r.link == s.link && r.barrier == s.barrier && r.subs == s.subs
      && r.table.rpcs == map[s.wire.nextId := Replay] && SentGrows(s.wire, r.wire)
      && WasSent(r.wire, s.wire.nextId, EStopReq(true))
  {
  }

  lemma AskedStays(o: Options, before: Slot, t: string, s: State, r: State)
    requires Asked(o, before, t, s) && r.subs == s.subs && SentGrows(s.wire, r.wire)
    ensures Asked(o, before, t, r)
  {
  }

  lemma WalkReopens(o: Options, s: State, accepts: nat -> bool, order: seq<string>)
    requires Answered(o, s) && s.link.st == Reconnecting && s.fault == NoFault && Lists(order, s.subs.active)
    requires TakesNext(s.wire, accepts, |order| + 1)
    ensures var s3 := Resubscribe(o, BarrierOpened(o, s), order, accepts);
      Reopened(o, s, s3) && Walking(o, s3, []) && accepts(s3.wire.nextId)
  {
    var s2 := BarrierOpened(o, s);
    BarrierOpens(o, s, order);
    WalkTaken(o, s2, order, accepts);
    WalkKeys(o, s2, order, accepts);
    WalkFrame(o, s2, order, accepts);
    forall t | t in s.subs.active ensures Asked(o, s.subs.active[t].slot, t, Resubscribe(o, s2, order, accepts)) {
      WalkAsksAll(o, s2, order, t, accepts);
    }
  }

  lemma StopReopens(o: Options, s: State, s3: State, accepts: nat -> bool)
    requires Reopened(o, s, s3) && Walking(o, s3, []) && accepts(s3.wire.nextId) && s.engaged
    ensures Opening(o, s, DoEStopReplay(o, s3, accepts))
  {
    var r := DoEStopReplay(o, s3, accepts);
    StopSent(o, s3, accepts);
    forall t | t in s.subs.active ensures Asked(o, s.subs.active[t].slot, t, r) {
      AskedStays(o, s.subs.active[t].slot, t, s3, r);
    }
  }

  lemma BarrierAsks(o: Options, s: State, accepts: nat -> bool, order: seq<string>)
    requires Answered(o, s) && s.link.st == Reconnecting && s.fault == NoFault && Lists(order, s.subs.active)
    requires TakesNext(s.wire, accepts, |order| + 1)
    ensures var s3 := Resubscribe(o, BarrierOpened(o, s), order, accepts);
      Opening(o, s, if s3.fault == NoFault && s3.barrier.estop then DoEStopReplay(o, s3, accepts) else s3)
  {
    WalkReopens(o, s, accepts, order);
    if s.engaged { StopReopens(o, s, Resubscribe(o, BarrierOpened(o, s), order, accepts), accepts); }
  }

  /** An accepted reconnect handshake on a socket that takes what follows: Ready at once if there
      is nothing to restore, the barrier with everything asked for otherwise. */
  lemma ReconnectAsksAll(o: Options, s: State, i: Input)
    requires Inv(o, s) && s.fault == NoFault && Lists(i.order, s.subs.active) && AnswersHandshake(s, i.event)
    requires i.event.resp.success && i.event.resp.hasHandshake && s.link.st == Reconnecting
    requires TakesNext(s.wire, i.accepts, |i.order| + 1)
    ensures var r := Step(o, s, i);
      if s.subs.active == map[] && !s.engaged then r.fault == NoFault && r.link.st == Ready && r.wire.conn == s.wire.conn
      else Opening(o, s, r)
  {
    var resp := i.event.resp;
    var s1 := Noted(Tick(s, i.elapsed));
    var okd := if Succeeds(resp) then s1.wire.okd + {resp.requestId} else s1.wire.okd;
    var s2 := s1.(table := s1.table.(rpcs := s1.table.rpcs - {resp.requestId}), wire := s1.wire.(okd := okd));
    ClockKeeps(o, s, i.elapsed);
    NotedKeeps(o, Tick(s, i.elapsed));
    HandshakeAnswered(o, s1, resp.requestId, okd);
    InboundStep(o, s, i);
    if |s.subs.active| > 0 || s.engaged { BarrierAsks(o, s2, i.accepts, i.order); }
  }

  /** After a reconnect handshake on a socket that takes everything: Ready or the barrier. */
  ghost predicate Restoring(o: Options, s: State) {
    && s.fault == NoFault && Inv(o, s)
    && (s.link.st == Ready || (AtBarrier(s) && s.barrier.abandoned == 0))
  }

  lemma GreetedTaken(o: Options, s: State, resp: Response, order: seq<string>)
    requires Answered(o, s) && s.link.st == Reconnecting && s.fault == NoFault && Lists(order, s.subs.active)
    requires resp.success && resp.hasHandshake
    ensures var r := CompleteHandshake(o, s, true, resp, (n: nat) => true, order);
      r.fault == NoFault && (r.link.st == Ready || (AtBarrier(r) && r.barrier.abandoned == 0))
  {
    if |s.subs.active| > 0 || s.engaged {
      var s2 := BarrierOpened(o, s);
      BarrierOpens(o, s, order);
      WalkTaken(o, s2, order, (n: nat) => true);
    }
  }

  lemma GreetedStep(o: Options, s: State, rid: nat, order: seq<string>)
    requires Inv(o, s) && s.fault == NoFault && s.link.st == Reconnecting && Lists(order, s.subs.active)
    requires rid in s.table.rpcs && s.table.rpcs[rid] == Handshake(true)
    ensures Restoring(o, Step(o, s, Answer(Greeting(rid), order)))
  {
    var i := Answer(Greeting(rid), order);
    var s1 := Noted(Tick(s, 0));
    StepKeeps(o, s, i);
    ClockKeeps(o, s, 0);
    NotedKeeps(o, Tick(s, 0));
    var okd := s1.wire.okd + {rid};
    HandshakeAnswered(o, s1, rid, okd);
    var s2 := s1.(table := s1.table.(rpcs := s1.table.rpcs - {rid}), wire := s1.wire.(okd := okd));
    GreetedTaken(o, s2, i.event.resp, order);
    assert Step(o, s, i) == CompleteHandshake(o, s2, true, i.event.resp, i.accepts, order);
  }

  function Retrying(order: seq<string>): Input {
    Input(RetryTimer(Up), 0, (n: nat) => true, true, order)
  }

  lemma RetryStep(o: Options, s: State, order: seq<string>)
    requires Inv(o, s) && s.fault == NoFault && s.link.st == TransientFailure && Lists(order, s.subs.active)
    ensures var s' := Step(o, s, Retrying(order));
      && s'.fault == NoFault && Inv(o, s') && s'.link.st == Reconnecting && s'.subs == s.subs
      && s'.link.attempt == s.link.attempt + 1
      && s.wire.nextId in s'.table.rpcs && s'.table.rpcs[s.wire.nextId] == Handshake(true)
  {
    StepKeeps(o, s, Retrying(order));
  }

  lemma Restored(o: Options, s: State) returns (ins: seq<Input>)
    requires Restoring(o, s)
    ensures RunFrom(o, s, ins).fault == NoFault && RunFrom(o, s, ins).link.st == Ready
  {
    if s.link.st == Ready {
      ins := [];
    } else {
      ins := BarrierCompletes(o, s);
    }
  }

  /** From every lost connection that a run can reach, some sequence of inputs leads back to Ready. */
  lemma RecoveryIsPossible(o: Options, before: seq<Input>) returns (ins: seq<Input>)
    requires Run(o, before).fault == NoFault && Run(o, before).link.st == TransientFailure
    ensures RunFrom(o, Run(o, before), ins).fault == NoFault
    ensures RunFrom(o, Run(o, before), ins).link.st == Ready
  {
    var s := Run(o, before);
    RunKeeps(o, before);
    var order := OrderOf(s.subs.active);
    var s1 := Step(o, s, Retrying(order));
    RetryStep(o, s, order);
    var greeting := Answer(Greeting(s.wire.nextId), order);
    GreetedStep(o, s1, s.wire.nextId, order);
    var rest := Restored(o, Step(o, s1, greeting));
    ins := [Retrying(order)] + ([greeting] + rest);
    RunFromStep(o, s1, greeting, rest);
    RunFromStep(o, s, Retrying(order), [greeting] + rest);
  }
}
