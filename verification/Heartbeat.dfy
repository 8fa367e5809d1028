/** The liveness check of a ready connection: an idle timer that sends pings, a deadline for each
    ping, and a miss count. Times are integer milliseconds of the steady clock. */
module Heartbeat {
  import opened Types

  datatype Config = Config(interval: int, pingTimeout: nat, maxMissed: nat)

  /** idle and deadline hold the expiry time of an armed timer; the deadline is armed exactly
      while a ping deadline is active. */
  datatype Hb = Hb(lastInbound: int, missCount: nat, deadline: Option<int>, idle: Option<int>)

  function Stopped(): Hb { Hb(0, 0, None, None) }

  function Start(c: Config, h: Hb, now: int): Hb {
    Hb(now, 0, None, if c.interval <= 0 then h.idle else Some(now + c.interval))
  }

  function OnInbound(h: Hb, now: int): Hb {
    h.(lastInbound := now, missCount := 0, deadline := None)
  }

  /** Both timers cancelled. */
  function Halt(h: Hb): Hb {
    h.(deadline := None, idle := None)
  }

  /** What a timer handler asks of its caller. */
  datatype Ask = Nothing | SendPing | DeclareDead

  /** The idle timer has fired in state Ready; open tells whether the socket is. A ping re-arms
      the deadline here and the idle timer once it is sent. */
  function OnIdle(c: Config, h: Hb, now: int, open: bool): (Hb, Ask) {
    if now - h.lastInbound < c.interval then
      (h.(idle := Some(now + (c.interval - (now - h.lastInbound)))), Nothing)
    else if !open then (h.(idle := None), Nothing)
    else (h.(idle := Some(now + c.interval), deadline := Some(now + c.pingTimeout)), SendPing)
  }

  /** The ping deadline has passed in state Ready. */
  function OnDeadline(c: Config, h: Hb, now: int, open: bool): (Hb, Ask) {
    var h1 := h.(deadline := None, missCount := h.missCount + 1);
    if h1.missCount >= c.maxMissed then (h1, DeclareDead)
    else if !open then (h1, Nothing)
    else (h1.(deadline := Some(now + c.pingTimeout)), SendPing)
  }

  /** n periods in a row. */
  function Span(n: nat, period: nat): nat {
    if n == 0 then 0 else Span(n - 1, period) + period
  }

  lemma {:induction false} SpanIsProduct(n: nat, period: nat)
    ensures Span(n, period) == n * period
  {
    if n > 0 { SpanIsProduct(n - 1, period); }
  }

  lemma {:induction false} SpanMonotone(m: nat, n: nat, period: nat)
    requires m <= n
    ensures Span(m, period) <= Span(n, period)
    decreases n
  {
    if m < n { SpanMonotone(m, n - 1, period); }
  }

  function MaxNat(a: nat, b: nat): nat { if a >= b then a else b }

  /** Silence that must have passed before a connection may be declared dead. */
  function LeastSilence(c: Config): int {
    c.interval + Span(MaxNat(1, c.maxMissed), c.pingTimeout)
  }

  // ------------------------------------------------------------------------------------------
  // Soundness.

  /** At clock reading now: misses and the pending deadline are late enough after the last
      inbound message, and the idle timer is not armed beyond one interval ahead. */
  predicate Sound(c: Config, h: Hb, now: int) {
    && h.lastInbound <= now
    && (h.missCount > 0 ==> now >= h.lastInbound + c.interval + Span(h.missCount, c.pingTimeout))
    && (h.deadline.Some? ==> h.deadline.value >= h.lastInbound + c.interval + Span(h.missCount + 1, c.pingTimeout))
    && (h.idle.Some? && c.interval > 0 ==> h.idle.value <= now + c.interval)
  }

  lemma StepsAreSound(c: Config, h: Hb, now: int, open: bool)
    requires Sound(c, h, now)
    ensures Sound(c, Start(c, h, now), now)
    ensures Sound(c, OnInbound(h, now), now)
    ensures Sound(c, Halt(h), now)
    ensures Sound(c, OnIdle(c, h, now, open).0, now)
    ensures h.deadline.Some? && h.deadline.value <= now ==> Sound(c, OnDeadline(c, h, now, open).0, now)
  {
    assert Span(h.missCount + 2, c.pingTimeout) == Span(h.missCount + 1, c.pingTimeout) + c.pingTimeout;
  }

  /** Time passing keeps soundness. */
  lemma WaitingIsSound(c: Config, h: Hb, now: int, later: int)
    requires Sound(c, h, now) && now <= later
    ensures Sound(c, h, later)
  {
  }

  /** A connection is declared dead only after LeastSilence of silence. */
  lemma DeadOnlyAfterSilence(c: Config, h: Hb, now: int, open: bool)
    requires Sound(c, h, now) && h.deadline.Some? && h.deadline.value <= now
    requires OnDeadline(c, h, now, open).1 == DeclareDead
    ensures now - h.lastInbound >= LeastSilence(c)
  {
    SpanMonotone(MaxNat(1, c.maxMissed), h.missCount + 1, c.pingTimeout);
  }

  // ------------------------------------------------------------------------------------------
  // Detection. In a silent run nothing arrives, the socket stays open, every ping is sent, and
  // each timer fires at its expiry; when both are due, either may go first.

  datatype Timer = IdleTimer | DeadlineTimer

  function ExpiryOf(h: Hb, t: Timer): Option<int> {
    if t.IdleTimer? then h.idle else h.deadline
  }

  predicate DueFirst(h: Hb, t: Timer) {
    && ExpiryOf(h, t).Some?
    && (h.idle.Some? ==> ExpiryOf(h, t).value <= h.idle.value)
    && (h.deadline.Some? ==> ExpiryOf(h, t).value <= h.deadline.value)
  }

  function Fire(c: Config, h: Hb, t: Timer): (Hb, Ask)
    requires ExpiryOf(h, t).Some?
  {
    var now := ExpiryOf(h, t).value;
    if t.IdleTimer? then OnIdle(c, h.(idle := None), now, true) else OnDeadline(c, h, now, true)
  }

  /** ticks idle timers have sent a ping since the last inbound message. */
  predicate Silent(c: Config, h: Hb, ticks: nat) {
    && c.interval >= 0 && h.idle.Some?
    && (if ticks == 0 then
          h.missCount == 0 && h.deadline == None && h.lastInbound <= h.idle.value <= h.lastInbound + c.interval
        else
          && h.idle.value == h.lastInbound + Span(ticks + 1, c.interval)
          && h.deadline.Some? && h.missCount + 1 >= ticks
          && h.missCount < MaxNat(1, c.maxMissed)
          && (h.missCount < ticks ==> h.deadline.value == h.idle.value - c.interval + c.pingTimeout))
  }

  /** The next timer keeps the silent shape or declares the connection dead in time. */
  lemma SilentStep(c: Config, h: Hb, t: Timer, ticks: nat) returns (ticks': nat)
    requires c.pingTimeout < c.interval
    requires Silent(c, h, ticks) && DueFirst(h, t)
    ensures var (h', ask) := Fire(c, h, t);
      && ExpiryOf(h, t).value <= h.lastInbound + Span(1 + MaxNat(1, c.maxMissed), c.interval)
      && h'.lastInbound == h.lastInbound
      && (ask != DeclareDead ==> Silent(c, h', ticks') && Left(c, h', ticks') < Left(c, h, ticks))
  {
    var k := MaxNat(1, c.maxMissed);
    assert ticks <= k;
    SpanMonotone(ticks + 1, k + 1, c.interval);
    assert Span(1, c.interval) == c.interval;
    assert Span(ticks + 2, c.interval) == Span(ticks + 1, c.interval) + c.interval;
    if t.IdleTimer? && h.idle.value - h.lastInbound >= c.interval {
      ticks' := ticks + 1;
    } else {
      ticks' := ticks;
    }
  }

  /** Timers that can still fire before the connection is declared dead. */
  function Left(c: Config, h: Hb, ticks: nat): nat {
    var k := MaxNat(1, c.maxMissed);
    (if ticks <= k then k - ticks else 0)
    + (if h.missCount <= k then k - h.missCount else 0)
    + (if ticks == 0 && h.idle.Some? && h.idle.value < h.lastInbound + c.interval then 1 else 0)
  }

  /** In silence the idle timer always expires within 1 + max(1, maxMissed) intervals of the last
      inbound message, and only boundedly many timers are left. */
  lemma SilentBound(c: Config, h: Hb, ticks: nat)
    requires c.pingTimeout < c.interval && Silent(c, h, ticks)
    ensures Left(c, h, ticks) <= 2 * MaxNat(1, c.maxMissed) + 1
    ensures h.idle.value <= h.lastInbound + Span(1 + MaxNat(1, c.maxMissed), c.interval)
  {
    var k := MaxNat(1, c.maxMissed);
    assert ticks <= k;
    SpanMonotone(ticks + 1, k + 1, c.interval);
    assert Span(1, c.interval) == c.interval;
  }
}
