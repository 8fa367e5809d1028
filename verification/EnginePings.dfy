/** The heartbeat asks before it gives up: a pending ping deadline stands for a ping that went out
    since the last message and is still unanswered, and a connection is declared dead only after
    as many pings as may be missed. */
module EnginePings {
  import opened Types
  import opened Stream
  import opened Engine
  import opened EngineInvariant
  import opened EngineKernel
  import opened EngineSubscriptions
  import opened EngineSteps
  import opened EngineBarrier
  import opened EngineMemory
  import opened EngineServing
  import opened EngineHistory
  import opened EngineHeartbeat
  import opened EngineTheorems
  import Heartbeat

  /** Request rid is a heartbeat ping that went out on this connection and is unanswered. */
  predicate PingPends(s: State, rid: nat) {
    rid in s.table.rpcs && s.table.rpcs[rid] == HeartbeatPing && WasSent(s.wire, rid, PingReq)
  }

  /** Between s and r a heartbeat ping went out. */
  predicate SendsPing(s: State, r: State) {
    PingPends(r, s.wire.nextId)
  }

  /** How many heartbeat pings went out since the last inbound message of a run. */
  ghost function Pings(o: Options, ins: seq<Input>): nat {
    if ins == [] then 0
    else
      var k := |ins| - 1;
      (if Hears(Run(o, ins[..k]), ins[k]) then 0 else Pings(o, ins[..k]))
      + (if SendsPing(Run(o, ins[..k]), Run(o, ins)) then 1 else 0)
  }

  /** The first request number that was free after the last inbound message of a run. */
  ghost function HeardAt(o: Options, ins: seq<Input>): nat {
    if ins == [] then 0
    else
      var k := |ins| - 1;
      if Hears(Run(o, ins[..k]), ins[k]) then Run(o, ins).wire.nextId else HeardAt(o, ins[..k])
  }

  // ------------------------------------------------------------------------------------------
  // One step.

  /** Unanswered pings stay in the table of a connection that goes on. */
  ghost predicate KeepsPings(s: State, r: State) {
    r.fault == NoFault && Serving(r) ==>
      forall rid :: rid in s.table.rpcs && s.table.rpcs[rid] == HeartbeatPing
        ==> rid in r.table.rpcs && r.table.rpcs[rid] == HeartbeatPing
  }

  lemma LostKeepsPings(o: Options, s: State, r: State, reason: ErrorCode)
    requires Core(o, r) && Alive(r)
    ensures KeepsPings(s, OnTransportClose(o, r, reason))
  {
    CloseMoves(o, r, reason);
  }

  /** A heartbeat that the connection survives has sent its ping. */
  lemma HeartbeatAsks(o: Options, s: State, accepts: nat -> bool)
    requires Inv(o, s) && s.link.st == Ready
    ensures var r := SendHeartbeat(o, s, accepts);
      KeepsPings(s, r) && (r.fault == NoFault && Serving(r) ==> SendsPing(s, r))
  {
    PingGoesOn(o, s, s, accepts);
    if !Takes(s.wire, accepts) {
      var s2 := s.(table := s.table.(rpcs := s.table.rpcs[s.wire.nextId := HeartbeatPing]),
                   wire := Take(s.wire, false, PingReq));
      TakeKeeps(o, s, false, PingReq);
      AddSilentEntry(s.table, s.wire.nextId, HeartbeatPing);
      CloseMoves(o, s2, TransportFailure);
    }
  }

  lemma UserKeepsPings(o: Options, s: State, i: Input)
    requires Inv(o, s) && s.fault == NoFault && Serving(s) && FromUser(i.event)
    ensures KeepsPings(s, HandleUser(o, s, i))
  {
    match i.event
    case Subscribe(t, semantics, userClosed) =>
      if !userClosed && t !in s.subs.active && s.link.st == Ready {
        NewEntryKeeps(o, s, t, semantics);
        var s1 := s.(subs := s.subs.(active := s.subs.active[t := Entry(NewSlot(semantics, o.policy, o.queueSize), false, 0, 0)]));
        if !Takes(s1.wire, i.accepts) { RefusedAdvances(o, s1, t, i.accepts); }
      }
    case _ =>
  }

  lemma IdleAsks(o: Options, s: State, open: bool, accepts: nat -> bool)
    requires Inv(o, s) && s.fault == NoFault && Serving(s)
    ensures var r := OnIdleTimer(o, s, open, accepts);
      KeepsPings(s, r) && (r.fault == NoFault && Serving(r) && r.hb.deadline != s.hb.deadline ==> SendsPing(s, r))
  {
    var h := Heartbeat.OnIdle(o.heartbeat, s.hb, s.clock, s.wire.up && open).0;
    Heartbeat.StepsAreSound(o.heartbeat, s.hb, s.clock, s.wire.up && open);
    HeartbeatChangeKeeps(o, s, h);
    if s.link.st == Ready { HeartbeatAsks(o, s.(hb := h), accepts); }
  }

  /** The deadline handler for each thing its heartbeat may ask for. */
  lemma DeadlineCases(o: Options, s: State, open: bool, accepts: nat -> bool)
    requires Inv(o, s) && s.hb.deadline.Some? && s.hb.deadline.value <= s.clock && s.link.st == Ready
    ensures var (h, ask) := Heartbeat.OnDeadline(o.heartbeat, s.hb, s.clock, s.wire.up && open);
      && Inv(o, s.(hb := h))
      && (ask != Heartbeat.SendPing ==> h.deadline == None)
      && OnPingDeadline(o, s, open, accepts) == match ask
           case DeclareDead => OnTransportClose(o, s.(hb := h), TransportFailure)
           case SendPing => SendHeartbeat(o, s.(hb := h), accepts)
           case Nothing => s.(hb := h)
  {
    Heartbeat.StepsAreSound(o.heartbeat, s.hb, s.clock, s.wire.up && open);
    HeartbeatChangeKeeps(o, s, Heartbeat.OnDeadline(o.heartbeat, s.hb, s.clock, s.wire.up && open).0);
  }

  lemma DeadlineAsks(o: Options, s: State, open: bool, accepts: nat -> bool)
    requires Inv(o, s) && s.fault == NoFault && Serving(s)
    ensures var r := OnPingDeadline(o, s, open, accepts);
      && KeepsPings(s, r)
      && (r.fault == NoFault && Serving(r) && r.hb != s.hb && r.hb.deadline.Some? ==> SendsPing(s, r))
  {
    if s.hb.deadline.Some? && s.hb.deadline.value <= s.clock && s.link.st == Ready {
      var (h, ask) := Heartbeat.OnDeadline(o.heartbeat, s.hb, s.clock, s.wire.up && open);
      DeadlineCases(o, s, open, accepts);
      match ask
      case DeclareDead => LostKeepsPings(o, s, s.(hb := h), TransportFailure);
      case SendPing => HeartbeatAsks(o, s.(hb := h), accepts);
      case Nothing =>
    }
  }

  /** An idle tick of a ready connection after an interval of silence, with the socket open, sends a
      ping or loses the connection. */
  lemma IdleTickAsks(o: Options, s: State, i: Input)
    requires Inv(o, s) && s.fault == NoFault && s.link.st == Ready && Lists(i.order, s.subs.active) && i.event.IdleTimer? && i.open
    requires s.hb.idle.Some? && s.hb.idle.value <= s.clock + i.elapsed
    requires s.clock + i.elapsed - s.hb.lastInbound >= o.heartbeat.interval
    ensures if i.accepts(s.wire.nextId) then SendsPing(s, Step(o, s, i)) && Step(o, s, i).link == s.link
            else Step(o, s, i).link.st != Ready
  {
  }

  lemma TimerKeepsPings(o: Options, s: State, i: Input)
    requires Inv(o, s) && s.fault == NoFault && Serving(s) && !FromUser(i.event) && !FromSocket(i.event)
    ensures KeepsPings(s, HandleTimer(o, s, i))
  {
    match i.event
    case RpcTimeout(rid) =>
      if rid in s.table.rpcs && s.table.rpcs[rid] == Replay {
        SilentEntry(s.table, rid);
        LostKeepsPings(o, s, s.(table := s.table.(rpcs := s.table.rpcs - {rid}), barrier := s.barrier.(estop := false)), Timeout);
      }
    case AckTimeout(_, _) => LostKeepsPings(o, s, s, Timeout);
    case IdleTimer => IdleAsks(o, s, i.open, i.accepts);
    case PingDeadline => DeadlineAsks(o, s, i.open, i.accepts);
    case _ =>
  }

  /** Pings that the heartbeat has to account for: those missed and the one it waits for. */
  function Owed(h: Heartbeat.Hb): nat {
    h.missCount + (if h.deadline.Some? then 1 else 0)
  }

  /** One step of a connection that goes on: a message clears the account; without one the account
      grows only by a ping that goes out, a deadline is set only for such a ping, and no ping
      leaves the table. */
  lemma PingStep(o: Options, s: State, i: Input)
    requires Inv(o, s) && s.fault == NoFault && Serving(s) && Lists(i.order, s.subs.active)
    requires Step(o, s, i).fault == NoFault && Serving(Step(o, s, i))
    ensures var r := Step(o, s, i);
      && r.wire.conn == s.wire.conn
      && if Hears(s, i) then Owed(r.hb) == 0
         else
           && Owed(r.hb) <= Owed(s.hb) + (if SendsPing(s, r) then 1 else 0)
           && (r.hb.deadline.Some? ==> SendsPing(s, r) || s.hb.deadline.Some?)
           && KeepsPings(s, r)
  {
    var s1 := Tick(s, i.elapsed);
    ClockKeeps(o, s, i.elapsed);
    ServingStep(o, s, i);
    assert s.wire.conn > 0;
    if FromUser(i.event) {
      UserKeepsPings(o, s1, i);
    } else if i.event.TransportClosed? {
      LostKeepsPings(o, s1, s1, if i.event.clean then Cancelled else TransportFailure);
    } else if !FromSocket(i.event) {
      TimerKeepsPings(o, s1, i);
      if i.event.IdleTimer? { IdleAsks(o, s1, i.open, i.accepts); }
      if i.event.PingDeadline? { DeadlineAsks(o, s1, i.open, i.accepts); }
    }
  }

  // ------------------------------------------------------------------------------------------
  // Runs.

  lemma {:induction false} HeardBelow(o: Options, ins: seq<Input>)
    ensures HeardAt(o, ins) <= Run(o, ins).wire.nextId
  {
    if ins != [] {
      var k := |ins| - 1;
      HeardBelow(o, ins[..k]);
      RunLogged(o, ins[..k]);
      StepOnward(o, Run(o, ins[..k]), ins[k]);
    }
  }

  lemma {:induction false} PingsCoverOwed(o: Options, ins: seq<Input>)
    requires Run(o, ins).fault == NoFault && Serving(Run(o, ins))
    ensures Owed(Run(o, ins).hb) <= Pings(o, ins)
  {
    var k := |ins| - 1;
    var s := Run(o, ins[..k]);
    RunKeeps(o, ins[..k]);
    if !Serving(s) {
      ServingBegins(o, s, ins[k]);
    } else {
      PingsCoverOwed(o, ins[..k]);
      if Lists(ins[k].order, s.subs.active) { PingStep(o, s, ins[k]); }
    }
  }

  /** Whenever the heartbeat of a connection in use waits for an answer, a ping of its own went out
      on this connection after the last inbound message and is unanswered in the table. */
  lemma {:induction false} DeadlineMeansPing(o: Options, ins: seq<Input>) returns (rid: nat)
    requires Run(o, ins).fault == NoFault && Serving(Run(o, ins)) && Run(o, ins).hb.deadline.Some?
    ensures PingPends(Run(o, ins), rid) && rid >= HeardAt(o, ins)
  {
    var k := |ins| - 1;
    var s, r := Run(o, ins[..k]), Run(o, ins);
    RunKeeps(o, ins[..k]);
    HeardBelow(o, ins[..k]);
    if !Serving(s) {
      ServingBegins(o, s, ins[k]);
      assert false;
    } else if !Lists(ins[k].order, s.subs.active) {
      rid := DeadlineMeansPing(o, ins[..k]);
    } else {
      PingStep(o, s, ins[k]);
      if SendsPing(s, r) {
        rid := s.wire.nextId;
      } else {
        rid := DeadlineMeansPing(o, ins[..k]);
        RunLogged(o, ins[..k]);
        StepOnward(o, s, ins[k]);
      }
    }
  }

  /** A connection is declared dead only after max(1, max_missed_pings) pings since the last
      inbound message. */
  lemma DeadMeansAsked(o: Options, ins: seq<Input>, i: Input)
    requires DeclaresDead(o, Run(o, ins), i)
    ensures Pings(o, ins) >= Heartbeat.MaxNat(1, o.heartbeat.maxMissed)
  {
    PingsCoverOwed(o, ins);
  }
}
