/** The callback dispatcher: a queue fed by any thread and emptied by one worker. */
module Dispatcher {
  import opened Types

  /** accepted and executed record every task taken in and every task run, in order. */
  datatype State<T> = State(queue: seq<T>, running: bool, accepted: seq<T>, executed: seq<T>)

  datatype Step<T> = Post(task: T) | Stop | WorkerTurn

  function Initial<T>(): State<T> { State([], true, [], []) }

  /** One atomic step; a worker turn with nothing to do waits or leaves. */
  function Next<T>(s: State<T>, e: Step<T>): State<T> {
    match e
    case Post(t) =>
      if s.running then s.(queue := s.queue + [t], accepted := s.accepted + [t]) else s
    case Stop => s.(running := false)
    case WorkerTurn =>
      if s.queue == [] then s
      else s.(queue := s.queue[1..], executed := s.executed + [s.queue[0]])
  }

  function Run<T>(es: seq<Step<T>>): State<T> {
    if es == [] then Initial() else Next(Run(es[..|es| - 1]), es[|es| - 1])
  }

  predicate Stopped<T>(es: seq<Step<T>>) {
    es != [] && (es[|es| - 1].Stop? || Stopped(es[..|es| - 1]))
  }

  /** What was posted before the queue was stopped. */
  function TakenIn<T>(es: seq<Step<T>>): seq<T> {
    if es == [] then []
    else
      var front, e := es[..|es| - 1], es[|es| - 1];
      TakenIn(front) + (if e.Post? && !Stopped(front) then [e.task] else [])
  }

  lemma {:induction false} AcceptedIsTakenIn<T>(es: seq<Step<T>>)
    ensures Run(es).accepted == TakenIn(es) && (Run(es).running <==> !Stopped(es))
  {
    if es != [] { AcceptedIsTakenIn(es[..|es| - 1]); }
  }

  lemma TurnShifts<T>(s: State<T>)
    requires s.queue != []
    ensures s.executed + [s.queue[0]] + s.queue[1..] == s.executed + s.queue
  {
  }

  lemma {:induction false} InOrder<T>(es: seq<Step<T>>)
    ensures Run(es).executed + Run(es).queue == Run(es).accepted
  {
    if es != [] {
      var s, e := Run(es[..|es| - 1]), es[|es| - 1];
      InOrder(es[..|es| - 1]);
      if e.WorkerTurn? && s.queue != [] {
        TurnShifts(s);
      } else if e.Post? && s.running {
        assert s.executed + (s.queue + [e.task]) == s.executed + s.queue + [e.task];
      }
    }
  }

  /** First in, first out, in every run: what has run and what waits is what was posted before the
      queue was stopped. */
  lemma Fifo<T>(es: seq<Step<T>>)
    ensures Run(es).executed + Run(es).queue == TakenIn(es)
    ensures Run(es).accepted == TakenIn(es) && (Run(es).running <==> !Stopped(es))
  {
    InOrder(es);
    AcceptedIsTakenIn(es);
  }

  function Turns<T>(n: nat): seq<Step<T>> { if n == 0 then [] else Turns(n - 1) + [WorkerTurn] }

  /** The worker makes progress: n turns run the next n tasks, or all that wait, even after a stop. */
  lemma {:induction false} TurnsRun<T>(es: seq<Step<T>>, n: nat)
    ensures var s, r, k := Run(es), Run(es + Turns(n)), if n <= |Run(es).queue| then n else |Run(es).queue|;
      r.executed == s.executed + s.queue[..k] && r.queue == s.queue[k..] && r.accepted == s.accepted
  {
    if n == 0 {
      assert es + Turns(0) == es;
    } else {
      TurnsRun(es, n - 1);
      assert (es + Turns(n))[..|es + Turns(n)| - 1] == es + Turns(n - 1);
    }
  }

  function Select<T>(ts: seq<T>, mine: T -> bool): seq<T> {
    if ts == [] then []
    else Select(ts[..|ts| - 1], mine) + (if mine(ts[|ts| - 1]) then [ts[|ts| - 1]] else [])
  }

  lemma {:induction false} SelectConcat<T>(a: seq<T>, b: seq<T>, mine: T -> bool)
    ensures Select(a + b, mine) == Select(a, mine) + Select(b, mine)
  {
    if b == [] {
      assert a + b == a;
    } else {
      SelectConcat(a, b[..|b| - 1], mine);
      assert (a + b)[..|a + b| - 1] == a + b[..|b| - 1];
    }
  }

  /** The callbacks of one subscription run in the order they were raised, without a hole; once
      the worker has nothing left after Stop, all of them have run. */
  lemma PerSubscriptionOrder<T>(es: seq<Step<T>>, mine: T -> bool)
    ensures var s := Run(es); Select(s.executed, mine) <= Select(s.accepted, mine)
    ensures var s := Run(es); s.queue == [] ==> Select(s.executed, mine) == Select(s.accepted, mine)
  {
    Fifo(es);
    var s := Run(es);
    SelectConcat(s.executed, s.queue, mine);
    if s.queue == [] {
      assert s.executed + s.queue == s.executed;
    }
  }

  class TaskQueue<T> {
    var queue: seq<T>
    var running: bool
    ghost var accepted: seq<T>
    ghost var executed: seq<T>

    ghost function View(): State<T>
      reads this
    {
      State(queue, running, accepted, executed)
    }

    constructor ()
      ensures View() == Initial()
    {
      queue, running := [], true;
      accepted, executed := [], [];
    }

    method PostTask(t: T)
      modifies this
      ensures View() == Next(old(View()), Post(t))
    {
      if !running { return; }
      queue := queue + [t];
      accepted := accepted + [t];
    }

    method Shutdown()
      modifies this
      ensures View() == Next(old(View()), Stop)
    {
      if !running { return; }
      running := false;
    }

    /** One turn of the worker loop: the task to run, if any, and whether the loop ends. It ends
        only after Shutdown and only with every accepted task executed. */
    method Turn() returns (task: Option<T>, ends: bool)
      requires executed + queue == accepted
      modifies this
      ensures View() == Next(old(View()), WorkerTurn)
      ensures executed + queue == accepted
      ensures task == if old(queue) == [] then None else Some(old(queue)[0])
      ensures ends <==> !running && old(queue) == []
      ensures ends ==> executed == accepted
    {
      if !running && queue == [] { return None, true; }
      if queue == [] { return None, false; }
      task, ends := Some(queue[0]), false;
      executed := executed + [queue[0]];
      queue := queue[1..];
    }
  }
}
