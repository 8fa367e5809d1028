/** The client-side rate limiter and the watchdog. Tokens are reals; times are clock ticks. */
module RateLimiter {

  const EPSILON: real := 0.000000001

  /** Tokens earned per clock tick, capacity, current tokens and the tick of the last attempt. */
  datatype Bucket = Bucket(rate: real, burst: real, tokens: real, last: int)

  function MinReal(a: real, b: real): real { if a <= b then a else b }

  function MaxReal(a: real, b: real): real { if a >= b then a else b }

  /** Tokens earned over a span of ticks; a span may be negative. */
  function Credit(rate: real, ticks: int): real
    decreases if ticks < 0 then -ticks else ticks
  {
    if ticks == 0 then 0.0
    else if ticks > 0 then Credit(rate, ticks - 1) + rate
    else Credit(rate, ticks + 1) - rate
  }

  lemma {:induction false} CreditIsProduct(rate: real, ticks: int)
    ensures Credit(rate, ticks) == ticks as real * rate
    decreases if ticks < 0 then -ticks else ticks
  {
    if ticks > 0 {
      CreditIsProduct(rate, ticks - 1);
      assert (ticks - 1) as real == ticks as real - 1.0;
    } else if ticks < 0 {
      CreditIsProduct(rate, ticks + 1);
      assert (ticks + 1) as real == ticks as real + 1.0;
    }
  }

  lemma CreditAdds(rate: real, a: int, b: int)
    ensures Credit(rate, a + b) == Credit(rate, a) + Credit(rate, b)
  {
    CreditIsProduct(rate, a);
    CreditIsProduct(rate, b);
    CreditIsProduct(rate, a + b);
    assert (a + b) as real == a as real + b as real;
  }

  lemma {:induction false} CreditNonNegative(rate: real, ticks: nat)
    requires rate >= 0.0
    ensures Credit(rate, ticks) >= 0.0
  {
    if ticks > 0 { CreditNonNegative(rate, ticks - 1); }
  }

  /** The tokens at time now if nothing is taken. */
  function Refill(b: Bucket, now: int): real {
    MinReal(b.burst, b.tokens + Credit(b.rate, now - b.last))
  }

  /** One attempt at time now: the new bucket and whether a token was granted. */
  function Attempt(b: Bucket, now: int): (Bucket, bool) {
    var filled := Refill(b, now);
    if filled >= 1.0 - EPSILON then (b.(tokens := MaxReal(0.0, filled - 1.0), last := now), true)
    else (b.(tokens := filled, last := now), false)
  }

  /** The bucket after attempts at the given times, in that order. */
  function After(b: Bucket, times: seq<int>): Bucket {
    if times == [] then b else Attempt(After(b, times[..|times| - 1]), times[|times| - 1]).0
  }

  /** Whether the i-th attempt was granted. */
  predicate Granted(b: Bucket, times: seq<int>, i: nat)
    requires i < |times|
  {
    Attempt(After(b, times[..i]), times[i]).1
  }

  /** How many of the attempts were granted. */
  function Grants(b: Bucket, times: seq<int>): nat {
    if times == [] then 0
    else Grants(b, times[..|times| - 1]) + (if Granted(b, times, |times| - 1) then 1 else 0)
  }

  /** What n grants cost at the least. */
  function Cost(n: nat): real {
    if n == 0 then 0.0 else Cost(n - 1) + (1.0 - EPSILON)
  }

  lemma {:induction false} CostIsLinear(n: nat)
    ensures Cost(n) == n as real * (1.0 - EPSILON)
  {
    if n > 0 {
      CostIsLinear(n - 1);
      assert n as real == (n - 1) as real + 1.0;
    }
  }

  /** Tokens less the credit of the ticks since start never rise at an attempt, and fall by at
      least 1 - EPSILON at a grant, whatever the clock does. */
  lemma PotentialFalls(b: Bucket, now: int, start: int)
    ensures var (b', ok) := Attempt(b, now);
      && b'.tokens - Credit(b.rate, now - start)
         <= b.tokens - Credit(b.rate, b.last - start) - (if ok then 1.0 - EPSILON else 0.0)
      && b'.rate == b.rate && b'.burst == b.burst && b'.last == now
  {
    CreditAdds(b.rate, now - b.last, b.last - start);
  }

  lemma {:induction false} PotentialOverRun(b: Bucket, times: seq<int>)
    ensures var e := After(b, times);
      && e.rate == b.rate && e.burst == b.burst
      && e.tokens - Credit(b.rate, e.last - b.last) <= b.tokens - Cost(Grants(b, times))
  {
    if times != [] {
      var front := times[..|times| - 1];
      PotentialOverRun(b, front);
      PotentialFalls(After(b, front), times[|times| - 1], b.last);
    }
  }

  /** Long-run bound from a full bucket: n grants, the last attempt being one of them, cost no
      more than the burst and the credit of the elapsed ticks, even for times out of order. */
  lemma GrantBound(b: Bucket, times: seq<int>)
    requires b.tokens == b.burst
    requires times != [] && Granted(b, times, |times| - 1)
    ensures Cost(Grants(b, times)) <= b.burst + Credit(b.rate, times[|times| - 1] - b.last)
  {
    PotentialOverRun(b, times);
    assert After(b, times).tokens >= 0.0;
  }

  predicate Nondecreasing(times: seq<int>) {
    forall i, j :: 0 <= i < j < |times| ==> times[i] <= times[j]
  }

  /** Refilling in two steps is refilling once. */
  lemma RefillTwice(b: Bucket, mid: int, now: int)
    requires b.rate >= 0.0 && b.tokens <= b.burst && b.last <= mid <= now
    ensures Refill(b.(tokens := Refill(b, mid), last := mid), now) == Refill(b, now)
  {
    CreditAdds(b.rate, mid - b.last, now - mid);
    CreditNonNegative(b.rate, now - mid);
  }

  /** Attempts that are all refused only refill: the bucket is the one never asked at all. */
  lemma {:induction false} RefusalsOnlyRefill(b: Bucket, times: seq<int>)
    requires b.rate >= 0.0 && b.tokens <= b.burst
    requires times != [] && Nondecreasing([b.last] + times)
    requires Grants(b, times) == 0
    ensures var t := times[|times| - 1]; After(b, times) == b.(tokens := Refill(b, t), last := t)
  {
    var k := |times| - 1;
    var front := times[..k];
    if k == 0 {
      assert After(b, front) == b;
    } else {
      NondecreasingFront(b.last, times);
      RefusalsOnlyRefill(b, front);
      RefillTwice(b, times[k - 1], times[k]);
    }
  }

  lemma NondecreasingFront(first: int, times: seq<int>)
    requires |times| >= 2 && Nondecreasing([first] + times)
    ensures Nondecreasing([first] + times[..|times| - 1])
    ensures first <= times[|times| - 2] <= times[|times| - 1]
  {
    var all, k := [first] + times, |times|;
    assert [first] + times[..k - 1] == all[..k];
    assert all[0] <= all[k - 1] <= all[k];
  }

  /** With capacity 1 a grant empties the bucket. */
  lemma GrantEmpties(b: Bucket, now: int)
    requires b.burst == 1.0 && Attempt(b, now).1
    ensures Attempt(b, now).0 == b.(tokens := 0.0, last := now)
  {
  }

  lemma SameRefillAfterRefusals(b: Bucket, refused: seq<int>, now: int)
    requires b.rate >= 0.0 && b.tokens <= b.burst
    requires Nondecreasing([b.last] + refused + [now])
    requires Grants(b, refused) == 0
    ensures Refill(After(b, refused), now) == Refill(b, now)
  {
    if refused != [] {
      var all, k := [b.last] + refused + [now], |refused|;
      assert [b.last] + refused == all[..k + 1];
      assert all[0] <= all[k] <= all[k + 1];
      RefusalsOnlyRefill(b, refused);
      RefillTwice(b, refused[k - 1], now);
    }
  }

  lemma RefusedAfterGrant(b: Bucket, refused: seq<int>, now: int)
    requires b.rate >= 0.0 && b.burst == 1.0 && b.tokens == 0.0
    requires Nondecreasing([b.last] + refused + [now])
    requires Grants(b, refused) == 0
    ensures Attempt(After(b, refused), now).1 <==> Credit(b.rate, now - b.last) >= 1.0 - EPSILON
  {
    SameRefillAfterRefusals(b, refused, now);
    GrantedWhenFull(After(b, refused), now);
    GrantedWhenFull(b, now);
  }

  lemma {:induction false} AfterConcat(b: Bucket, xs: seq<int>, ys: seq<int>)
    ensures After(b, xs + ys) == After(After(b, xs), ys)
  {
    if ys == [] {
      assert xs + ys == xs;
    } else {
      var k := |ys| - 1;
      assert (xs + ys)[..|xs + ys| - 1] == xs + ys[..k];
      AfterConcat(b, xs, ys[..k]);
    }
  }

  /** The attempts after the i-th, seen from the bucket it left. */
  lemma GrantedLater(b: Bucket, times: seq<int>, i: nat, k: nat)
    requires i < |times| && k < |times| - i - 1
    ensures Granted(b, times, i + 1 + k) <==> Granted(After(b, times[..i + 1]), times[i + 1..], k)
  {
    AfterConcat(b, times[..i + 1], times[i + 1..][..k]);
    assert times[..i + 1] + times[i + 1..][..k] == times[..i + 1 + k];
  }

  /** With capacity 1 the i-th attempt, if granted, leaves the bucket empty at its time. */
  lemma EmptyAfterGrant(b: Bucket, times: seq<int>, i: nat)
    requires b.burst == 1.0 && i < |times| && Granted(b, times, i)
    ensures After(b, times[..i + 1]) == b.(tokens := 0.0, last := times[i])
  {
    assert times[..i + 1][..i] == times[..i];
    PotentialOverRun(b, times[..i]);
    GrantEmpties(After(b, times[..i]), times[i]);
  }

  lemma {:induction false} CostNonNegative(n: nat)
    ensures Cost(n) >= 0.0
  {
    if n > 0 { CostNonNegative(n - 1); }
  }

  /** With capacity 1 any two grants of a sequence of attempts are at least (1 - EPSILON) / rate
      apart: the ticks between them have earned 1 - EPSILON, whatever the clock did meanwhile. */
  lemma GrantsAreApart(b: Bucket, times: seq<int>, i: nat, j: nat)
    requires b.burst == 1.0 && i < j < |times| && Granted(b, times, i) && Granted(b, times, j)
    ensures Credit(b.rate, times[j] - times[i]) >= 1.0 - EPSILON
  {
    var c, mid := After(b, times[..i + 1]), times[i + 1..j];
    EmptyAfterGrant(b, times, i);
    GrantedLater(b, times, i, j - i - 1);
    assert times[i + 1..][..j - i - 1] == mid;
    PotentialOverRun(c, mid);
    CostNonNegative(Grants(c, mid));
    PotentialFalls(After(c, mid), times[j], c.last);
  }

  lemma {:induction false} NoGrants(b: Bucket, times: seq<int>)
    requires forall k :: 0 <= k < |times| ==> !Granted(b, times, k)
    ensures Grants(b, times) == 0
  {
    if times != [] {
      var front := times[..|times| - 1];
      forall k | 0 <= k < |front| ensures !Granted(b, front, k) {
        assert !Granted(b, times, k) && front[..k] == times[..k];
      }
      NoGrants(b, front);
    }
  }

  /** With capacity 1 and a nondecreasing clock, the next attempt after a grant and any refusals is
      granted exactly when the ticks since that grant have earned 1 - EPSILON. */
  lemma SpacingOfGrants(b: Bucket, times: seq<int>, i: nat, j: nat)
    requires b.rate >= 0.0 && b.burst == 1.0 && Nondecreasing(times)
    requires i < j < |times| && Granted(b, times, i)
    requires forall k :: i < k < j ==> !Granted(b, times, k)
    ensures Granted(b, times, j) <==> Credit(b.rate, times[j] - times[i]) >= 1.0 - EPSILON
  {
    var c, refused := After(b, times[..i + 1]), times[i + 1..j];
    EmptyAfterGrant(b, times, i);
    forall k | 0 <= k < |refused| ensures !Granted(c, refused, k) {
      assert !Granted(b, times, i + 1 + k);
      GrantedLater(b, times, i, k);
      assert refused[..k] == times[i + 1..][..k];
    }
    NoGrants(c, refused);
    assert [c.last] + refused + [times[j]] == times[i..j + 1];
    RefusedAfterGrant(c, refused, times[j]);
    GrantedLater(b, times, i, j - i - 1);
    assert times[i + 1..][..j - i - 1] == refused;
  }

  lemma GrantedWhenFull(b: Bucket, now: int)
    ensures Attempt(b, now).1 <==> Refill(b, now) >= 1.0 - EPSILON
  {
  }

  /** n attempts at the same time. */
  function AtOnce(now: int, n: nat): seq<int> { if n == 0 then [] else AtOnce(now, n - 1) + [now] }

  /** From a full bucket any number of attempts up to the capacity is granted at once, each for one
      token. */
  lemma {:induction false} BurstIsGranted(b: Bucket, now: int, n: nat)
    requires b.rate >= 0.0 && b.tokens == b.burst && b.last <= now && n as real <= b.burst
    ensures |AtOnce(now, n)| == n && Grants(b, AtOnce(now, n)) == n
    ensures n > 0 ==> After(b, AtOnce(now, n)) == b.(tokens := b.burst - n as real, last := now)
  {
    if n > 0 {
      var front := AtOnce(now, n - 1);
      BurstIsGranted(b, now, n - 1);
      assert AtOnce(now, n)[..n - 1] == front;
      assert (n - 1) as real + 1.0 == n as real;
      CreditNonNegative(b.rate, now - b.last);
    }
  }

  class TokenBucket {
    const rate: real
    const burst: real
    var tokens: real
    var last: int

    function View(): Bucket
      reads this
    {
      Bucket(rate, burst, tokens, last)
    }

    constructor (rate: real, burst: real, now: int)
      ensures View() == Bucket(rate, burst, burst, now)
    {
      this.rate, this.burst := rate, burst;
      tokens, last := burst, now;
    }

    method TryAcquire(now: int) returns (ok: bool)
      modifies this
      ensures View() == Attempt(old(View()), now).0
      ensures ok == Attempt(old(View()), now).1
    {
      var elapsed := (now - last) as real;
      CreditIsProduct(rate, now - last);
      tokens := MinReal(burst, tokens + elapsed * rate);
      last := now;
      if tokens >= 1.0 - EPSILON {
        tokens := MaxReal(0.0, tokens - 1.0);
        return true;
      }
      return false;
    }
  }

  /** Watchdog inputs: a feed or a check, each at a time. */
  datatype Poke = Feed(at: int) | Check(at: int)

  datatype WatchdogState = WatchdogState(lastFeed: int, fired: bool)

  /** The state after one input, and whether it reported a timeout. */
  function PokeWatchdog(timeout: int, w: WatchdogState, p: Poke): (WatchdogState, bool) {
    match p
    case Feed(at) => (WatchdogState(at, false), false)
    case Check(at) =>
      if w.fired then (w, false)
      else if at - w.lastFeed >= timeout then (w.(fired := true), true)
      else (w, false)
  }

  function RunWatchdog(timeout: int, w: WatchdogState, ps: seq<Poke>): (WatchdogState, seq<bool>) {
    if ps == [] then (w, [])
    else
      var (w1, r) := RunWatchdog(timeout, w, ps[..|ps| - 1]);
      var (w2, hit) := PokeWatchdog(timeout, w1, ps[|ps| - 1]);
      (w2, r + [hit])
  }

  /** Since the last feed the watchdog reports exactly once, at the first check that is late,
      and never if no check is late. */
  lemma {:induction false} OneReportPerFeed(timeout: int, start: int, ps: seq<Poke>)
    requires forall p <- ps :: p.Check?
    ensures var (w, r) := RunWatchdog(timeout, WatchdogState(start, false), ps);
      && |r| == |ps| && w.lastFeed == start
      && (w.fired <==> exists i :: 0 <= i < |ps| && ps[i].at - start >= timeout)
      && forall i :: 0 <= i < |ps| ==>
           (r[i] <==> ps[i].at - start >= timeout
                      && forall j :: 0 <= j < i ==> ps[j].at - start < timeout)
  {
    if ps != [] {
      var front := ps[..|ps| - 1];
      OneReportPerFeed(timeout, start, front);
      assert forall i :: 0 <= i < |front| ==> front[i] == ps[i];
      assert ps[|ps| - 1] in ps;
    }
  }

  class Watchdog {
    const timeout: int
    var lastFeed: int
    var fired: bool

    function View(): WatchdogState
      reads this
    {
      WatchdogState(lastFeed, fired)
    }

    constructor (timeout: int, now: int)
      ensures View() == WatchdogState(now, false) && this.timeout == timeout
    {
      this.timeout := timeout;
      lastFeed, fired := now, false;
    }

    method FeedAt(now: int)
      modifies this
      ensures View() == PokeWatchdog(timeout, old(View()), Feed(now)).0
    {
      lastFeed := now;
      fired := false;
    }

    method CheckAt(now: int) returns (late: bool)
      modifies this
      ensures (View(), late) == PokeWatchdog(timeout, old(View()), Check(now))
    {
      if fired { return false; }
      if now - lastFeed >= timeout {
        fired := true;
        return true;
      }
      return false;
    }
  }
}
