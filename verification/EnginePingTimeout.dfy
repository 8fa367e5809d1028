/** Detection takes a ping timeout below the interval: the options allow any, but an idle tick arms
    the deadline anew, so a longer one never passes. */
module EnginePingTimeout {
  import opened Types
  import opened Stream
  import opened Engine
  import opened EngineInvariant
  import opened EngineSteps
  import opened EngineBarrier
  import opened EngineServing
  import opened EngineHeartbeat
  import Heartbeat

  /** Where both timers are armed, the idle timer expires first. */
  predicate IdleFirst(s: State) {
    s.hb.idle.Some? && s.hb.deadline.Some? ==> s.hb.idle.value < s.hb.deadline.value
  }

  lemma IdleFirstStep(o: Options, s: State, i: Input)
    requires 0 < o.heartbeat.interval < o.heartbeat.pingTimeout
    requires Inv(o, s) && s.fault == NoFault && Serving(s) && IdleFirst(s) && Punctual(s, i)
    requires Step(o, s, i).fault == NoFault && Serving(Step(o, s, i))
    ensures IdleFirst(Step(o, s, i))
  {
    if Lists(i.order, s.subs.active) {
      ServingStep(o, s, i);
      assert s.hb.deadline.Some? ==> s.hb.deadline.value > s.hb.lastInbound + o.heartbeat.interval;
    }
  }

  lemma {:induction false} RunIdleFirst(o: Options, ins: seq<Input>)
    requires 0 < o.heartbeat.interval < o.heartbeat.pingTimeout
    requires Run(o, ins).fault == NoFault && Serving(Run(o, ins)) && Exact(o, Initial(), ins)
    ensures IdleFirst(Run(o, ins))
  {
    var k := |ins| - 1;
    var s := Run(o, ins[..k]);
    RunKeeps(o, ins[..k]);
    if Serving(s) {
      RunIdleFirst(o, ins[..k]);
      IdleFirstStep(o, s, ins[k]);
    } else {
      ServingBegins(o, s, ins[k]);
    }
  }

  /** With exact timers and a ping timeout above the interval the heartbeat never declares a
      connection dead while its idle timer runs, however long it has been silent. */
  lemma LongPingDeclaresNothing(o: Options, ins: seq<Input>, i: Input)
    requires 0 < o.heartbeat.interval < o.heartbeat.pingTimeout
    requires Exact(o, Initial(), ins) && Punctual(Run(o, ins), i) && DeclaresDead(o, Run(o, ins), i)
    ensures LostTicks(o, ins) > 0
  {
    RunIdleFirst(o, ins);
    IdleArmedIff(o, ins);
  }

  /** Silence can go on: Ready, with the idle timer due no later than any deadline. */
  ghost predicate CanTick(o: Options, s: State) {
    && Inv(o, s) && s.fault == NoFault && s.link.st == Ready && NotOverdue(s) && s.hb.idle.Some?
    && (s.hb.deadline.Some? ==> s.hb.idle.value <= s.hb.deadline.value)
  }

  lemma TickStep(o: Options, s: State, order: seq<string>)
    requires 0 < o.heartbeat.interval <= o.heartbeat.pingTimeout && CanTick(o, s) && Lists(order, s.subs.active)
    ensures var s' := Step(o, s, OnTime(s, Heartbeat.IdleTimer, order)); CanTick(o, s') && s'.subs == s.subs
  {
    TimerFires(o, s, Heartbeat.IdleTimer, order);
    StepKeeps(o, s, OnTime(s, Heartbeat.IdleTimer, order));
    assert s.hb.deadline.Some? ==> s.hb.deadline.value >= s.hb.lastInbound + o.heartbeat.interval;
  }

  /** n idle ticks. */
  function Ticks(n: nat): seq<Heartbeat.Timer> {
    if n == 0 then [] else [Heartbeat.IdleTimer] + Ticks(n - 1)
  }

  lemma {:induction false} TicksForever(o: Options, s: State, n: nat, order: seq<string>)
    requires 0 < o.heartbeat.interval <= o.heartbeat.pingTimeout && CanTick(o, s) && Lists(order, s.subs.active)
    ensures |Ticks(n)| == n && Schedule(o, s, Ticks(n), order)
    decreases n
  {
    if n > 0 {
      TickStep(o, s, order);
      TicksForever(o, Step(o, s, OnTime(s, Heartbeat.IdleTimer, order)), n - 1, order);
      assert Ticks(n)[1..] == Ticks(n - 1);
    }
  }

  /** No more than n timers can fire in silence before the connection is given up. */
  ghost predicate EndsWithin(o: Options, s: State, order: seq<string>, n: nat) {
    forall ts :: Schedule(o, s, ts, order) ==> |ts| <= n
  }

  /** Silence on a Ready connection that has lost no idle expiry always ends if and only if the
      ping timeout is below the interval. */
  lemma SilenceEndsIff(o: Options, ins: seq<Input>, order: seq<string>)
    requires o.heartbeat.interval > 0 && JustHeard(o, ins) && Run(o, ins).link.st == Ready
    requires LostTicks(o, ins) == 0 && Exact(o, Initial(), ins) && Lists(order, Run(o, ins).subs.active)
    ensures (exists n: nat :: EndsWithin(o, Run(o, ins), order, n)) <==> o.heartbeat.pingTimeout < o.heartbeat.interval
  {
    var s := Run(o, ins);
    SilenceBegins(o, ins);
    if o.heartbeat.pingTimeout < o.heartbeat.interval {
      var most := Heartbeat.Left(o.heartbeat, s.hb, 0) + 1;
      forall ts | Schedule(o, s, ts, order) ensures |ts| <= most {
        ScheduleIsShort(o, s, ts, 0, order);
      }
      assert EndsWithin(o, s, order, most);
    } else {
      forall n: nat ensures !EndsWithin(o, s, order, n) {
        TicksForever(o, s, n + 1, order);
      }
    }
  }
}
