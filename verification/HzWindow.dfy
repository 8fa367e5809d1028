/** The sliding 60-second delivery counter: 60 buckets indexed by second modulo 60, compared
    with the full log of delivery times. */
module HzWindow {

  const WINDOW: int := 60

  /** Deliveries made in second sec. */
  function Count(log: seq<int>, sec: int): nat {
    if log == [] then 0
    else Count(log[..|log| - 1], sec) + (if log[|log| - 1] == sec then 1 else 0)
  }

  predicate InWindow(sec: int, cur: int) {
    cur - WINDOW < sec <= cur
  }

  /** Deliveries made in the WINDOW seconds that end with second cur. */
  function WindowCount(log: seq<int>, cur: int): nat {
    if log == [] then 0
    else WindowCount(log[..|log| - 1], cur) + (if InWindow(log[|log| - 1], cur) then 1 else 0)
  }

  /** The one second of the window ending at cur that bucket i stands for. */
  function SecondOf(i: int, cur: int): int {
    cur - (cur - i) % WINDOW
  }

  lemma SecondOfIsTheOne(i: int, cur: int, sec: int)
    requires 0 <= i < WINDOW
    ensures InWindow(SecondOf(i, cur), cur) && SecondOf(i, cur) % WINDOW == i
    ensures InWindow(sec, cur) ==> (SecondOf(i, cur) == sec <==> i == sec % WINDOW)
  {
  }

  /** One second later only the bucket of the new second changes its meaning. */
  lemma SecondOfNext(i: int, cur: int)
    requires 0 <= i < WINDOW
    ensures SecondOf(i, cur + 1) == if i == (cur + 1) % WINDOW then cur + 1 else SecondOf(i, cur)
  {
  }

  predicate UpTo(log: seq<int>, last: int) {
    forall i :: 0 <= i < |log| ==> log[i] <= last
  }

  lemma {:induction false} NoneLater(log: seq<int>, last: int, sec: int)
    requires UpTo(log, last) && sec > last
    ensures Count(log, sec) == 0
  {
    if log != [] {
      NoneLater(log[..|log| - 1], last, sec);
    }
  }

  /** The counts the first n buckets should hold, added up. */
  function BucketTotal(log: seq<int>, cur: int, n: nat): nat {
    if n == 0 then 0 else BucketTotal(log, cur, n - 1) + Count(log, SecondOf(n - 1, cur))
  }

  lemma {:induction false} BucketTotalSnoc(log: seq<int>, sec: int, cur: int, n: nat)
    requires n <= WINDOW
    ensures BucketTotal(log + [sec], cur, n)
         == BucketTotal(log, cur, n) + (if InWindow(sec, cur) && sec % WINDOW < n then 1 else 0)
  {
    if n > 0 {
      BucketTotalSnoc(log, sec, cur, n - 1);
      SecondOfIsTheOne(n - 1, cur, sec);
      assert (log + [sec])[..|log|] == log;
    }
  }

  /** Buckets that agree with the log add up to exactly the deliveries in the window. */
  lemma {:induction false} BucketsCoverWindow(log: seq<int>, cur: int)
    ensures BucketTotal(log, cur, WINDOW) == WindowCount(log, cur)
  {
    if log == [] {
      EmptyTotal(cur, WINDOW);
    } else {
      var front, sec := log[..|log| - 1], log[|log| - 1];
      BucketsCoverWindow(front, cur);
      BucketTotalSnoc(front, sec, cur, WINDOW);
      assert front + [sec] == log;
    }
  }

  lemma {:induction false} EmptyTotal(cur: int, n: nat)
    ensures BucketTotal([], cur, n) == 0
  {
    if n > 0 { EmptyTotal(cur, n - 1); }
  }

  class HzBuckets {
    const buckets: array<nat>
    var epochMs: int
    /** The seconds of all deliveries so far. */
    ghost var log: seq<int>

    ghost predicate Valid()
      reads this, buckets
    {
      && buckets.Length == WINDOW
      && 0 <= epochMs
      && (epochMs == 0 ==> log == [])
      && UpTo(log, epochMs / 1000)
      && Agree(epochMs / 1000)
    }

    /** Every bucket holds the deliveries of the second it stands for in the window ending at cur. */
    ghost predicate Agree(cur: int)
      reads this, buckets
      requires buckets.Length == WINDOW
    {
      forall i :: 0 <= i < WINDOW ==> buckets[i] == Count(log, SecondOf(i, cur))
    }

    constructor ()
      ensures Valid() && log == [] && fresh(buckets)
    {
      buckets := new nat[WINDOW](_ => 0);
      epochMs := 0;
      log := [];
    }

    /** Brings the buckets up to the clock reading nowMs, which lies after 1970 and not in a
        second before the last reading. */
    method Slide(nowMs: int) returns (cur: int)
      requires Valid()
      requires 0 < nowMs && epochMs / 1000 <= nowMs / 1000
      modifies this, buckets
      ensures Valid() && log == old(log)
      ensures cur == nowMs / 1000 == epochMs / 1000 && 0 < epochMs
    {
      cur := nowMs / 1000;
      var last := epochMs / 1000;
      if cur == last && epochMs > 0 { return; }
      if epochMs == 0 {
        epochMs := nowMs;
        return;
      }
      var gap := cur - last;
      if gap > WINDOW { gap := WINDOW; }
      for i := 1 to gap + 1
        invariant log == old(log) && epochMs == old(epochMs)
        invariant Agree(last + i - 1)
      {
        ghost var prev, next := last + i - 1, last + i;
        forall r | 0 <= r < WINDOW
          ensures SecondOf(r, next) == if r == next % WINDOW then next else SecondOf(r, prev)
        {
          SecondOfNext(r, prev);
        }
        NoneLater(log, last, next);
        buckets[(last + i) % WINDOW] := 0;
      }
      if gap < cur - last {
        forall r | 0 <= r < WINDOW
          ensures Count(log, SecondOf(r, last + WINDOW)) == 0 == Count(log, SecondOf(r, cur))
        {
          SecondOfIsTheOne(r, last + WINDOW, 0);
          SecondOfIsTheOne(r, cur, 0);
          NoneLater(log, last, SecondOf(r, last + WINDOW));
          NoneLater(log, last, SecondOf(r, cur));
        }
      }
      epochMs := nowMs;
    }

    /** Counts one delivery at clock reading nowMs. */
    method Record(nowMs: int)
      requires Valid()
      requires 0 < nowMs && epochMs / 1000 <= nowMs / 1000
      modifies this, buckets
      ensures Valid() && log == old(log) + [nowMs / 1000] && epochMs / 1000 == nowMs / 1000
    {
      var cur := Slide(nowMs);
      ghost var before := log;
      buckets[cur % WINDOW] := buckets[cur % WINDOW] + 1;
      log := log + [cur];
      forall r | 0 <= r < WINDOW ensures buckets[r] == Count(log, SecondOf(r, cur)) {
        SecondOfIsTheOne(r, cur, cur);
        assert log[..|log| - 1] == before;
      }
    }

    /** What diagnostics reports: the deliveries of the 60 seconds up to the clock reading. */
    method Total(nowMs: int) returns (total: nat)
      requires Valid()
      requires 0 < nowMs && epochMs / 1000 <= nowMs / 1000
      modifies this, buckets
      ensures Valid() && log == old(log)
      ensures total == WindowCount(log, nowMs / 1000)
    {
      var cur := Slide(nowMs);
      total := 0;
      for i := 0 to WINDOW
        invariant Valid() && log == old(log) && cur == epochMs / 1000
        invariant total == BucketTotal(log, cur, i)
      {
        total := total + buckets[i];
      }
      BucketsCoverWindow(log, cur);
    }
  }
}
