/** The heartbeat over runs: dead only after silence; whether a ready connection has its heartbeat
    timer at all; and silence that is detected, or never is. */
module EngineHeartbeat {
  import opened Types
  import opened Stream
  import opened Engine
  import opened EngineInvariant
  import opened EngineKernel
  import opened EngineSubscriptions
  import opened EngineSteps
  import opened EngineBarrier
  import opened EngineMemory
  import opened EngineServing
  import opened EngineProgress
  import opened EngineFaults
  import Heartbeat

  /** The input makes the heartbeat declare the connection dead. */
  predicate DeclaresDead(o: Options, s: State, i: Input) {
    var now := s.clock + i.elapsed;
    && s.fault == NoFault && i.event == PingDeadline && s.link.st == Ready
    && s.hb.deadline.Some? && s.hb.deadline.value <= now
    && Heartbeat.OnDeadline(o.heartbeat, s.hb, now, s.wire.up && i.open).1 == Heartbeat.DeclareDead
  }

  /** No connection is declared dead before it has been silent for one interval and then for
      max(1, maxMissed) ping timeouts. */
  lemma DeadMeansSilent(o: Options, ins: seq<Input>, i: Input)
    requires DeclaresDead(o, Run(o, ins), i)
    ensures Run(o, ins).clock + i.elapsed - LastHeard(o, ins) >= Heartbeat.LeastSilence(o.heartbeat)
  {
    var s := Run(o, ins);
    RunKeeps(o, ins);
    RunRemembers(o, ins);
    Heartbeat.WaitingIsSound(o.heartbeat, s.hb, s.clock, s.clock + i.elapsed);
    Heartbeat.DeadOnlyAfterSilence(o.heartbeat, s.hb, s.clock + i.elapsed, s.wire.up && i.open);
  }

  /** A timer that fires exactly on time, on an open socket that takes every request. */
  function OnTime(s: State, t: Heartbeat.Timer, order: seq<string>): Input
    requires Heartbeat.ExpiryOf(s.hb, t).Some? && s.clock <= Heartbeat.ExpiryOf(s.hb, t).value
  {
    Input(if t.IdleTimer? then IdleTimer else PingDeadline, Heartbeat.ExpiryOf(s.hb, t).value - s.clock,
          (n: nat) => true, true, order)
  }

  /** Such a timer does to a ready connection what it does to the heartbeat alone, unless it
      declares the connection dead. */
  lemma TimerFires(o: Options, s: State, t: Heartbeat.Timer, order: seq<string>)
    requires Inv(o, s) && s.fault == NoFault && s.link.st == Ready && Lists(order, s.subs.active)
    requires Heartbeat.ExpiryOf(s.hb, t).Some? && s.clock <= Heartbeat.ExpiryOf(s.hb, t).value
    ensures var s', (h, ask) := Step(o, s, OnTime(s, t, order)), Heartbeat.Fire(o.heartbeat, s.hb, t);
      if ask == Heartbeat.DeclareDead then s'.link.st == TransientFailure || s'.link.st == Fatal
      else s'.fault == NoFault && s'.link.st == Ready && s'.hb == h && s'.subs == s.subs
           && s'.clock == Heartbeat.ExpiryOf(s.hb, t).value
  {
  }

  // ------------------------------------------------------------------------------------------
  // Whether the idle timer is armed.

  /** The input handles an expired idle timer without arming it again: outside Ready, or after an
      interval of silence with no open socket. */
  predicate LosesTick(o: Options, s: State, i: Input) {
    var now := s.clock + i.elapsed;
    && s.fault == NoFault && Lists(i.order, s.subs.active) && i.event.IdleTimer?
    && s.hb.idle.Some? && s.hb.idle.value <= now
    && (s.link.st != Ready || (now - s.hb.lastInbound >= o.heartbeat.interval && !(s.wire.up && i.open)))
  }

  /** The input is an accepted answer to the handshake. */
  predicate Greets(s: State, i: Input) {
    Hears(s, i) && AnswersHandshake(s, i.event) && i.event.resp.success && i.event.resp.hasHandshake
  }

  /** How many idle expiries were lost since the last handshake of a run. */
  ghost function LostTicks(o: Options, ins: seq<Input>): nat {
    if ins == [] then 0
    else
      var k := |ins| - 1;
      var before := Run(o, ins[..k]);
      if Greets(before, ins[k]) then 0
      else LostTicks(o, ins[..k]) + (if LosesTick(o, before, ins[k]) then 1 else 0)
  }

  lemma ServingNotGreeted(o: Options, s: State, i: Input)
    requires Inv(o, s) && Serving(s)
    ensures !Greets(s, i)
  {
  }

  lemma ServingIdle(o: Options, s: State, i: Input)
    requires Inv(o, s) && s.fault == NoFault && Serving(s)
    requires Step(o, s, i).fault == NoFault && Serving(Step(o, s, i))
    ensures Step(o, s, i).hb.idle.Some? <==> s.hb.idle.Some? && !LosesTick(o, s, i)
  {
    if Lists(i.order, s.subs.active) {
      ServingStep(o, s, i);
    }
  }

  /** On a connection in use, with a positive interval, the idle timer is armed if and only if no
      idle expiry was lost since its handshake. */
  lemma {:induction false} IdleArmedIff(o: Options, ins: seq<Input>)
    requires Run(o, ins).fault == NoFault && Serving(Run(o, ins)) && o.heartbeat.interval > 0
    ensures Run(o, ins).hb.idle.Some? <==> LostTicks(o, ins) == 0
  {
    var k := |ins| - 1;
    var s := Run(o, ins[..k]);
    RunKeeps(o, ins[..k]);
    if Serving(s) {
      IdleArmedIff(o, ins[..k]);
      ServingNotGreeted(o, s, ins[k]);
      ServingIdle(o, s, ins[k]);
    } else {
      ServingBegins(o, s, ins[k]);
    }
  }

  // ------------------------------------------------------------------------------------------
  // A connection whose silence is never detected.

  /** Ready, and neither heartbeat timer armed. */
  predicate Deaf(s: State) {
    s.link.st == Ready && s.hb.idle == None && s.hb.deadline == None
  }

  /** Nothing makes up for a lost timer: whatever happens, a deaf connection stays deaf as long as
      it lasts, and its heartbeat never declares it dead. */
  lemma DeafStaysDeaf(o: Options, s: State, i: Input)
    requires Inv(o, s) && s.fault == NoFault && Deaf(s)
    ensures !DeclaresDead(o, s, i)
    ensures var r := Step(o, s, i); r.fault == NoFault && Serving(r) ==> r.hb.idle == None && r.hb.deadline == None
  {
    if Lists(i.order, s.subs.active) {
      ServingStep(o, s, i);
    }
  }

  /** Its timers, should one still be reported, change neither the connection nor the heartbeat,
      after any length of silence. */
  lemma DeafHearsNothing(o: Options, s: State, i: Input)
    requires Deaf(s) && (i.event.IdleTimer? || i.event.PingDeadline?)
    ensures var r := Step(o, s, i); r.link == s.link && r.hb == s.hb && r.wire == s.wire && r.fault == s.fault
  {
  }

  /** A barrier that lasts longer than one interval leaves such a connection: engage the stop, lose
      the connection, reconnect, and let the idle timer expire before the replay is answered. */
  function SlowBarrier(o: Options): seq<Input>
    requires o.heartbeat.interval > 0
  {
    LosingTwice()[..7] + [Input(IdleTimer, o.heartbeat.interval, (n: nat) => true, true, []), Plain(Inbound(Confirming(4)))]
  }

  lemma TickInBarrier(o: Options, s: State) returns (r: State)
    requires o.heartbeat.interval > 0 && Replaying(o, s) && Inv(o, s)
    ensures r == Step(o, s, Input(IdleTimer, o.heartbeat.interval, (n: nat) => true, true, []))
    ensures AtBarrier(r) && r.fault == NoFault && r.barrier.pending == 0 && r.table.rpcs == map[4 := Replay]
    ensures r.subs.active == map[] && r.hb.idle == None && r.hb.deadline == None
  {
    var i := Input(IdleTimer, o.heartbeat.interval, (n: nat) => true, true, []);
    assert Lists(i.order, s.subs.active);
    r := Step(o, s, i);
    assert r == OnIdleTimer(o, Tick(s, i.elapsed), i.open, i.accepts);
  }

  lemma ConfirmedDeaf(o: Options, s: State) returns (r: State)
    requires Inv(o, s) && AtBarrier(s) && s.fault == NoFault && s.barrier.pending == 0
    requires s.table.rpcs == map[4 := Replay] && s.subs.active == map[] && s.hb.idle == None && s.hb.deadline == None
    ensures r == Step(o, s, Plain(Inbound(Confirming(4)))) && r.fault == NoFault && Deaf(r)
  {
    var i := Plain(Inbound(Confirming(4)));
    assert i == Answer(Confirming(4), []);
    ConfirmStep(o, s, 4, []);
    ServingStep(o, s, i);
    r := Step(o, s, i);
  }

  lemma SlowBarrierIsDeaf(o: Options)
    requires WithinLimit(o, 1) && o.heartbeat.interval > 0
    ensures Run(o, SlowBarrier(o)).fault == NoFault && Deaf(Run(o, SlowBarrier(o)))
  {
    var tick := Input(IdleTimer, o.heartbeat.interval, (n: nat) => true, true, []);
    var s7 := ReplayRun(o);
    RunKeeps(o, LosingTwice()[..7]);
    var s8 := TickInBarrier(o, s7);
    StepKeeps(o, s7, tick);
    var s9 := ConfirmedDeaf(o, s8);
    TwoMore(o, LosingTwice()[..7], tick, Plain(Inbound(Confirming(4))));
  }

  // ------------------------------------------------------------------------------------------
  // Silence that is detected.

  /** The input comes no later than any armed heartbeat timer expires. */
  predicate Punctual(s: State, i: Input) {
    && (s.hb.idle.Some? ==> s.clock + i.elapsed <= s.hb.idle.value)
    && (s.hb.deadline.Some? ==> s.clock + i.elapsed <= s.hb.deadline.value)
  }

  /** Exact timers: throughout the run no armed heartbeat timer was overdue. */
  predicate Exact(o: Options, s: State, ins: seq<Input>) {
    ins != [] ==>
      var k := |ins| - 1;
      Exact(o, s, ins[..k]) && Punctual(RunFrom(o, s, ins[..k]), ins[k])
  }

  predicate NotOverdue(s: State) {
    && (s.hb.idle.Some? ==> s.clock <= s.hb.idle.value)
    && (s.hb.deadline.Some? ==> s.clock <= s.hb.deadline.value)
  }

  lemma PunctualStep(o: Options, s: State, i: Input)
    requires Inv(o, s) && s.fault == NoFault && Serving(s) && NotOverdue(s) && Punctual(s, i) && o.heartbeat.interval > 0
    requires Step(o, s, i).fault == NoFault && Serving(Step(o, s, i))
    ensures NotOverdue(Step(o, s, i)) && (Lists(i.order, s.subs.active) ==> Step(o, s, i).clock == s.clock + i.elapsed)
  {
    if Lists(i.order, s.subs.active) {
      ServingStep(o, s, i);
      StepClock(o, s, i);
    }
  }

  /** Handlers do not move the clock. */
  predicate SameClock(s: State, r: State) { r.clock == s.clock }

  lemma {:induction false} WalkClock(o: Options, s: State, ts: seq<string>, accepts: nat -> bool)
    ensures SameClock(s, Resubscribe(o, s, ts, accepts)) && SameClock(s, SubscribeWaiting(o, s, ts, accepts))
    decreases |ts|
  {
    if ts != [] && s.fault == NoFault && ts[0] in s.subs.active {
      SendClock(o, Readied(s, ts[0]), ts[0], ResumeFrom(o, s.subs.active[ts[0]].slot), accepts);
      SendClock(o, s, ts[0], 0, accepts);
      WalkClock(o, Trampled(ResubscribeOne(o, s, ts[0], accepts)), ts[1..], accepts);
      WalkClock(o, Trampled(SubscribeOne(o, s, ts[0], accepts)), ts[1..], accepts);
    }
  }

  lemma SendClock(o: Options, s: State, t: string, since: nat, accepts: nat -> bool)
    requires t in s.subs.active
    ensures SameClock(s, SendSubscribe(o, s, t, since, accepts))
  {
  }

  lemma AckClock(o: Options, s: State, resp: Response, accepts: nat -> bool)
    ensures SameClock(s, HandleSubscribeAck(o, s, resp, accepts))
  {
  }

  lemma HandshakeClock(o: Options, s: State, reconnect: bool, resp: Response, accepts: nat -> bool, order: seq<string>)
    ensures SameClock(s, CompleteHandshake(o, s, reconnect, resp, accepts, order))
  {
    var s1 := s.(hb := Heartbeat.Start(o.heartbeat, s.hb, s.clock), wire := s.wire.(greeted := true));
    WalkClock(o, s1.(link := Enter(s.link, Ready)), order, accepts);
    WalkClock(o, s1.(barrier := Barrier(|s.subs.active|, s.engaged, 0)), order, accepts);
  }

  lemma SocketClock(o: Options, s: State, i: Input)
    ensures FromSocket(i.event) ==> SameClock(s, HandleSocket(o, s, i))
  {
    if i.event.Inbound? {
      var resp := i.event.resp;
      AckClock(o, Noted(s), resp, i.accepts);
      if resp.requestId in s.table.rpcs && s.table.rpcs[resp.requestId].Handshake? {
        HandshakeClock(o, Taken(Noted(s), resp), s.table.rpcs[resp.requestId].reconnect, resp, i.accepts, i.order);
      }
    }
  }

  lemma UserClock(o: Options, s: State, i: Input)
    ensures SameClock(s, HandleUser(o, s, i))
  {
  }

  lemma TimerClock(o: Options, s: State, i: Input)
    ensures SameClock(s, HandleTimer(o, s, i))
  {
  }

  lemma StepClock(o: Options, s: State, i: Input)
    requires s.fault == NoFault && Lists(i.order, s.subs.active)
    ensures Step(o, s, i).clock == s.clock + i.elapsed
  {
    var s1 := Tick(s, i.elapsed);
    SocketClock(o, s1, i);
    UserClock(o, s1, i);
    TimerClock(o, s1, i);
  }

  lemma {:induction false} ExactIsNotOverdue(o: Options, ins: seq<Input>)
    requires Run(o, ins).fault == NoFault && Serving(Run(o, ins)) && Exact(o, Initial(), ins) && o.heartbeat.interval > 0
    ensures NotOverdue(Run(o, ins))
  {
    var k := |ins| - 1;
    var s := Run(o, ins[..k]);
    RunKeeps(o, ins[..k]);
    if Serving(s) {
      ExactIsNotOverdue(o, ins[..k]);
      PunctualStep(o, s, ins[k]);
    } else {
      ServingBegins(o, s, ins[k]);
      StepClock(o, s, ins[k]);
    }
  }

  /** The last input of the run was an inbound message, and it left the connection in use. */
  ghost predicate JustHeard(o: Options, ins: seq<Input>) {
    && Run(o, ins).fault == NoFault && Serving(Run(o, ins)) && ins != []
    && Hears(Run(o, ins[..|ins| - 1]), ins[|ins| - 1])
  }

  /** Right after an inbound message a connection that has lost no idle expiry, in a run with exact
      timers, is in the shape from which silence is detected. */
  lemma SilenceBegins(o: Options, ins: seq<Input>)
    requires JustHeard(o, ins) && LostTicks(o, ins) == 0 && Exact(o, Initial(), ins) && o.heartbeat.interval > 0
    ensures var s := Run(o, ins);
      && Inv(o, s) && NotOverdue(s) && s.hb.lastInbound == s.clock
      && Heartbeat.Silent(o.heartbeat, s.hb, 0)
  {
    var k := |ins| - 1;
    var before, s := Run(o, ins[..k]), Run(o, ins);
    RunKeeps(o, ins[..k]);
    RunKeeps(o, ins);
    IdleArmedIff(o, ins);
    ExactIsNotOverdue(o, ins);
    StepClock(o, before, ins[k]);
    if Serving(before) {
      ServingStep(o, before, ins[k]);
    } else {
      ServingBegins(o, before, ins[k]);
    }
  }

  /** One input of a silent stretch: no message, exact timers, an open socket when a timer fires,
      and the connection Ready afterwards. */
  predicate SilentInput(o: Options, s: State, i: Input) {
    && !Hears(s, i) && Punctual(s, i) && (i.event.IdleTimer? || i.event.PingDeadline? ==> i.open)
    && Step(o, s, i).fault == NoFault && Step(o, s, i).link.st == Ready
  }

  predicate SilentStretch(o: Options, s: State, ins: seq<Input>) {
    ins != [] ==>
      var k := |ins| - 1;
      SilentStretch(o, s, ins[..k]) && SilentInput(o, RunFrom(o, s, ins[..k]), ins[k])
  }

  /** Where a stretch of silence has got to. */
  ghost predicate InSilence(o: Options, s: State, ticks: nat, last: int) {
    && Inv(o, s) && s.fault == NoFault && s.link.st == Ready && NotOverdue(s)
    && Heartbeat.Silent(o.heartbeat, s.hb, ticks) && s.hb.lastInbound == last
  }

  /** The input fires timer t. */
  predicate FiresTimer(s: State, i: Input, t: Heartbeat.Timer) {
    && Lists(i.order, s.subs.active)
    && i.event == (if t.IdleTimer? then IdleTimer else PingDeadline)
    && Heartbeat.ExpiryOf(s.hb, t).Some? && s.clock + i.elapsed == Heartbeat.ExpiryOf(s.hb, t).value
  }

  /** Exactly on time and with the socket open, a timer of a connection that stays Ready does to
      the heartbeat what the silent model says, and has not declared it dead. */
  lemma FiredBeat(o: Options, s: State, i: Input, t: Heartbeat.Timer)
    requires Inv(o, s) && s.fault == NoFault && s.link.st == Ready && FiresTimer(s, i, t) && i.open
    requires Step(o, s, i).fault == NoFault && Step(o, s, i).link.st == Ready
    ensures Step(o, s, i).hb == Heartbeat.Fire(o.heartbeat, s.hb, t).0
    ensures Heartbeat.Fire(o.heartbeat, s.hb, t).1 != Heartbeat.DeclareDead
  {
    ServingStep(o, s, i);
    if Heartbeat.Fire(o.heartbeat, s.hb, t).1 == Heartbeat.DeclareDead {
      DeadStep(o, s, i);
    }
  }

  lemma DeadHandler(o: Options, s: State, open: bool)
    requires Inv(o, s) && s.fault == NoFault && s.link.st == Ready && s.hb.deadline.Some? && s.hb.deadline.value <= s.clock
    ensures var r := OnTransportClose(o, s.(hb := Heartbeat.OnDeadline(o.heartbeat, s.hb, s.clock, open).0), TransportFailure);
      r.fault == NoFault && (r.link.st == TransientFailure || r.link.st == Fatal)
  {
    var h := Heartbeat.OnDeadline(o.heartbeat, s.hb, s.clock, open).0;
    Heartbeat.StepsAreSound(o.heartbeat, s.hb, s.clock, open);
    HeartbeatChangeKeeps(o, s, h);
    NoReplayNow(o, s);
    CloseKeeps(o, s.(hb := h), TransportFailure);
  }

  lemma DeadStep(o: Options, s: State, i: Input)
    requires Inv(o, s) && DeclaresDead(o, s, i) && Lists(i.order, s.subs.active)
    ensures Step(o, s, i).fault == NoFault
    ensures Step(o, s, i).link.st == TransientFailure || Step(o, s, i).link.st == Fatal
  {
    var s1 := Tick(s, i.elapsed);
    ClockKeeps(o, s, i.elapsed);
    DeadHandler(o, s1, s.wire.up && i.open);
    assert Step(o, s, i) == OnPingDeadline(o, s1, i.open, i.accepts);
  }

  /** Every other input of the stretch leaves the heartbeat alone. */
  lemma OtherBeat(o: Options, s: State, i: Input)
    requires Inv(o, s) && s.fault == NoFault && s.link.st == Ready && SilentInput(o, s, i) && Lists(i.order, s.subs.active)
    requires !FiresTimer(s, i, Heartbeat.IdleTimer) && !FiresTimer(s, i, Heartbeat.DeadlineTimer)
    ensures Step(o, s, i).hb == s.hb
  {
    ServingStep(o, s, i);
    assert s.wire.conn > 0;
  }

  lemma SilentInputStep(o: Options, s: State, i: Input, ticks: nat, last: int) returns (ticks': nat)
    requires o.heartbeat.pingTimeout < o.heartbeat.interval
    requires InSilence(o, s, ticks, last) && SilentInput(o, s, i)
    ensures InSilence(o, Step(o, s, i), ticks', last)
  {
    ticks' := ticks;
    StepKeeps(o, s, i);
    if Lists(i.order, s.subs.active) {
      PunctualStep(o, s, i);
      if FiresTimer(s, i, Heartbeat.IdleTimer) {
        FiredBeat(o, s, i, Heartbeat.IdleTimer);
        ticks' := Heartbeat.SilentStep(o.heartbeat, s.hb, Heartbeat.IdleTimer, ticks);
      } else if FiresTimer(s, i, Heartbeat.DeadlineTimer) {
        FiredBeat(o, s, i, Heartbeat.DeadlineTimer);
        ticks' := Heartbeat.SilentStep(o.heartbeat, s.hb, Heartbeat.DeadlineTimer, ticks);
      } else {
        OtherBeat(o, s, i);
      }
    }
  }

  lemma {:induction false} StretchIsSilent(o: Options, s: State, ins: seq<Input>, ticks: nat) returns (ticks': nat)
    requires o.heartbeat.pingTimeout < o.heartbeat.interval
    requires InSilence(o, s, ticks, s.hb.lastInbound) && SilentStretch(o, s, ins)
    ensures InSilence(o, RunFrom(o, s, ins), ticks', s.hb.lastInbound)
  {
    if ins == [] {
      ticks' := ticks;
    } else {
      var k := |ins| - 1;
      var mid := StretchIsSilent(o, s, ins[..k], ticks);
      ticks' := SilentInputStep(o, RunFrom(o, s, ins[..k]), ins[k], mid, s.hb.lastInbound);
    }
  }

  /** Detection over runs: with pingTimeout < interval and exact timers, a connection that has lost
      no idle expiry cannot stay Ready through more than 1 + max(1, maxMissed) intervals of
      silence, whatever else happens in the meantime. */
  lemma SilenceEndsReady(o: Options, before: seq<Input>, ins: seq<Input>)
    requires o.heartbeat.pingTimeout < o.heartbeat.interval
    requires JustHeard(o, before) && Run(o, before).link.st == Ready
    requires LostTicks(o, before) == 0 && Exact(o, Initial(), before)
    requires SilentStretch(o, Run(o, before), ins)
    ensures RunFrom(o, Run(o, before), ins).clock - LastHeard(o, before)
         <= Heartbeat.Span(1 + Heartbeat.MaxNat(1, o.heartbeat.maxMissed), o.heartbeat.interval)
  {
    SilenceBegins(o, before);
    RunRemembers(o, before);
    var ticks := StretchIsSilent(o, Run(o, before), ins, 0);
    Heartbeat.SilentBound(o.heartbeat, RunFrom(o, Run(o, before), ins).hb, ticks);
  }

  // ------------------------------------------------------------------------------------------
  // Death is declared.

  /** Nothing but the heartbeat's timers, each when it is due first. */
  predicate Schedule(o: Options, s: State, ts: seq<Heartbeat.Timer>, order: seq<string>)
    decreases |ts|
  {
    ts != [] ==>
      && s.fault == NoFault && s.link.st == Ready && Heartbeat.DueFirst(s.hb, ts[0])
      && s.clock <= Heartbeat.ExpiryOf(s.hb, ts[0]).value
      && Schedule(o, Step(o, s, OnTime(s, ts[0], order)), ts[1..], order)
  }

  /** No timer is left to go on with. */
  ghost predicate Maximal(o: Options, s: State, ts: seq<Heartbeat.Timer>, order: seq<string>) {
    Schedule(o, s, ts, order) && forall t :: !Schedule(o, s, ts + [t], order)
  }

  /** The state in which the last timer of a schedule fires. */
  function Before(o: Options, s: State, ts: seq<Heartbeat.Timer>, order: seq<string>): State
    requires ts != [] && Schedule(o, s, ts, order)
    decreases |ts|
  {
    if |ts| == 1 then s else Before(o, Step(o, s, OnTime(s, ts[0], order)), ts[1..], order)
  }

  lemma SomeTimerIsDue(o: Options, s: State, ticks: nat, order: seq<string>) returns (t: Heartbeat.Timer)
    requires InSilence(o, s, ticks, s.hb.lastInbound)
    ensures Schedule(o, s, [t], order)
  {
    t := if s.hb.deadline.Some? && s.hb.deadline.value < s.hb.idle.value then Heartbeat.DeadlineTimer else Heartbeat.IdleTimer;
    assert [t][1..] == [];
  }

  /** A timer that is due first either declares the connection dead in time or leads on. */
  lemma ScheduledStep(o: Options, s: State, t: Heartbeat.Timer, ticks: nat, order: seq<string>) returns (ticks': nat)
    requires o.heartbeat.pingTimeout < o.heartbeat.interval
    requires InSilence(o, s, ticks, s.hb.lastInbound) && Lists(order, s.subs.active) && Schedule(o, s, [t], order)
    ensures var i, s' := OnTime(s, t, order), Step(o, s, OnTime(s, t, order));
      && s.clock + i.elapsed <= s.hb.lastInbound + Heartbeat.Span(1 + Heartbeat.MaxNat(1, o.heartbeat.maxMissed), o.heartbeat.interval)
      && (if s'.link.st == Ready
          then InSilence(o, s', ticks', s.hb.lastInbound) && s'.subs == s.subs
               && Heartbeat.Left(o.heartbeat, s'.hb, ticks') < Heartbeat.Left(o.heartbeat, s.hb, ticks)
          else DeclaresDead(o, s, i))
  {
    var i := OnTime(s, t, order);
    ticks' := Heartbeat.SilentStep(o.heartbeat, s.hb, t, ticks);
    TimerFires(o, s, t, order);
    StepKeeps(o, s, i);
    if Step(o, s, i).link.st == Ready { PunctualStep(o, s, i); }
  }

  lemma EmptyIsNotMaximal(o: Options, s: State, ticks: nat, order: seq<string>)
    requires InSilence(o, s, ticks, s.hb.lastInbound)
    ensures !Maximal(o, s, [], order)
  {
    var t := SomeTimerIsDue(o, s, ticks, order);
    assert [] + [t] == [t];
  }

  lemma DiesLater(o: Options, s: State, ts: seq<Heartbeat.Timer>, order: seq<string>)
    requires ts != [] && Schedule(o, s, ts, order)
    requires var s' := Step(o, s, OnTime(s, ts[0], order)); s'.hb.lastInbound == s.hb.lastInbound && DiesInTime(o, s', ts[1..], order)
    ensures DiesInTime(o, s, ts, order)
  {
    assert Before(o, s, ts, order) == Before(o, Step(o, s, OnTime(s, ts[0], order)), ts[1..], order);
  }

  /** In silence only boundedly many timers can fire. */
  lemma {:induction false} ScheduleIsShort(o: Options, s: State, ts: seq<Heartbeat.Timer>, ticks: nat, order: seq<string>)
    requires o.heartbeat.pingTimeout < o.heartbeat.interval
    requires InSilence(o, s, ticks, s.hb.lastInbound) && Lists(order, s.subs.active) && Schedule(o, s, ts, order)
    ensures |ts| <= Heartbeat.Left(o.heartbeat, s.hb, ticks) + 1
    decreases |ts|
  {
    if ts != [] {
      var s' := Step(o, s, OnTime(s, ts[0], order));
      assert Schedule(o, s, [ts[0]], order) && Schedule(o, s', ts[1..], order);
      var ticks' := ScheduledStep(o, s, ts[0], ticks, order);
      if s'.link.st == Ready {
        ScheduleIsShort(o, s', ts[1..], ticks', order);
      } else {
        assert ts[1..] == [];
      }
    }
  }

  /** In silence every maximal schedule of due timers ends with the heartbeat declaring the
      connection dead, in time. */
  lemma {:induction false} MaximalSchedule(o: Options, s: State, ts: seq<Heartbeat.Timer>, ticks: nat, order: seq<string>)
    requires o.heartbeat.pingTimeout < o.heartbeat.interval
    requires InSilence(o, s, ticks, s.hb.lastInbound) && Lists(order, s.subs.active) && Maximal(o, s, ts, order)
    ensures DiesInTime(o, s, ts, order)
    decreases |ts|
  {
    EmptyIsNotMaximal(o, s, ticks, order);
    var s' := Step(o, s, OnTime(s, ts[0], order));
    assert Schedule(o, s, [ts[0]], order) && Schedule(o, s', ts[1..], order);
    var ticks' := ScheduledStep(o, s, ts[0], ticks, order);
    if s'.link.st == Ready {
      MaximalTail(o, s, ts, order);
      MaximalSchedule(o, s', ts[1..], ticks', order);
      DiesLater(o, s, ts, order);
    } else {
      assert ts[1..] == [] && |ts| == 1;
    }
  }

  lemma MaximalTail(o: Options, s: State, ts: seq<Heartbeat.Timer>, order: seq<string>)
    requires ts != [] && Maximal(o, s, ts, order)
    ensures Maximal(o, Step(o, s, OnTime(s, ts[0], order)), ts[1..], order)
  {
    forall t ensures !Schedule(o, Step(o, s, OnTime(s, ts[0], order)), ts[1..] + [t], order) {
      assert (ts + [t])[0] == ts[0] && (ts + [t])[1..] == ts[1..] + [t];
      assert !Schedule(o, s, ts + [t], order);
    }
  }

  /** The last timer of the schedule declares the connection dead, within 1 + max(1, maxMissed)
      intervals of the last inbound message. */
  predicate DiesInTime(o: Options, s: State, ts: seq<Heartbeat.Timer>, order: seq<string>) {
    && ts != [] && Schedule(o, s, ts, order) && o.heartbeat.interval >= 0
    && var e, t := Before(o, s, ts, order), ts[|ts| - 1];
       && Heartbeat.ExpiryOf(e.hb, t).Some? && e.clock <= Heartbeat.ExpiryOf(e.hb, t).value
       && DeclaresDead(o, e, OnTime(e, t, order))
       && Heartbeat.ExpiryOf(e.hb, t).value
          <= s.hb.lastInbound + Heartbeat.Span(1 + Heartbeat.MaxNat(1, o.heartbeat.maxMissed), o.heartbeat.interval)
  }

  /** The same for runs: once nothing more arrives, a Ready connection that has lost no idle expiry
      is declared dead by every maximal schedule of its timers, after at most
      2 max(1, maxMissed) + 2 of them and within 1 + max(1, maxMissed) intervals. */
  lemma SilenceIsDeclaredDead(o: Options, ins: seq<Input>, ts: seq<Heartbeat.Timer>, order: seq<string>)
    requires o.heartbeat.pingTimeout < o.heartbeat.interval
    requires JustHeard(o, ins) && Run(o, ins).link.st == Ready
    requires LostTicks(o, ins) == 0 && Exact(o, Initial(), ins)
    requires Lists(order, Run(o, ins).subs.active) && Maximal(o, Run(o, ins), ts, order)
    ensures DiesInTime(o, Run(o, ins), ts, order) && |ts| <= 2 * Heartbeat.MaxNat(1, o.heartbeat.maxMissed) + 2
  {
    SilenceBegins(o, ins);
    Heartbeat.SilentBound(o.heartbeat, Run(o, ins).hb, 0);
    ScheduleIsShort(o, Run(o, ins), ts, 0, order);
    MaximalSchedule(o, Run(o, ins), ts, 0, order);
  }
}
