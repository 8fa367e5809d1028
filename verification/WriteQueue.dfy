/** The websocket client's write queue on its IO thread: queued writes, the one outstanding
    write, disconnects and the drain before the close frame. */
module WriteQueue {
  import opened Types

  /** A queued write is named by its number; awaited[id] tells a Send, whose caller waits on a
      promise, from a Post. */
  type WriteId = nat

  datatype SendResult = Sent | Failed | TimedOut

  datatype ClosePhase = NoClose | Requested | Draining | FrameSent | Finished

  /** Fields of the client, then history: accepted, started and dropped are the ids of the
      writes queued, put on the stream, and failed unstarted; results[id] lists what the
      promise of write id was set to. */
  datatype State = State(
    queue: seq<WriteId>,
    writeInFlight: bool,
    open: bool,
    closing: bool,
    phase: ClosePhase,
    timedOut: set<nat>,
    completed: set<nat>,
    outstanding: Option<WriteId>,
    awaited: seq<bool>,
    results: seq<seq<SendResult>>,
    accepted: seq<nat>,
    started: seq<nat>,
    dropped: seq<nat>,
    closeCallbacks: nat)

  datatype Step =
    | Enqueue(wait: bool, late: bool)
    | WriteDone(ok: bool)
    | Deadline(id: nat)
    | ReadError
    | CloseCall
    | CloseTask
    | DrainTick
    | CloseDone

  /** The client right after a successful connect. */
  function Connected(): State {
    State([], false, true, false, NoClose, {}, {}, None, [], [], [], [], [], 0)
  }

  /** Marks w complete and sets its promise, if it has one. */
  function Complete(s: State, w: WriteId, r: SendResult): State
    requires w < |s.results| == |s.awaited|
  {
    if w in s.completed then s
    else
      s.(completed := s.completed + {w},
         results := if s.awaited[w] then s.results[w := s.results[w] + [r]] else s.results)
  }

  /** Every queued write has been issued. */
  predicate Issued(s: State) {
    |s.results| == |s.awaited| && forall i :: 0 <= i < |s.queue| ==> s.queue[i] < |s.results|
  }

  function FailAll(s: State): State
    requires Issued(s)
    decreases |s.queue|
  {
    if s.queue == [] then s
    else
      FailAll(Complete(s, s.queue[0], Failed).(queue := s.queue[1..], dropped := s.dropped + [s.queue[0]]))
  }

  function ProcessWriteQueue(s: State): State
    requires Issued(s)
  {
    if s.queue == [] then s.(writeInFlight := false)
    else if !s.open then FailAll(s).(writeInFlight := false)
    else s.(writeInFlight := true, outstanding := Some(s.queue[0]), started := s.started + [s.queue[0]])
  }

  /** The bookkeeping of a new write; late: its deadline passed before it was queued, which only a
      write with a waiting caller has. */
  function Issue(s: State, wait: bool, late: bool): State {
    s.(results := s.results + [[]], awaited := s.awaited + [wait],
       timedOut := if wait && late then s.timedOut + {|s.results|} else s.timedOut)
  }

  function EnqueueWrite(s: State, wait: bool, late: bool): State
    requires Issued(s)
  {
    var w, s1 := |s.results|, Issue(s, wait, late);
    if s.closing || !s.open then Complete(s1, w, Failed)
    else
      var s2 := s1.(queue := s.queue + [w], accepted := s.accepted + [w]);
      if s.writeInFlight then s2 else ProcessWriteQueue(s2)
  }

  function OnDisconnect(s: State): State {
    if s.open then s.(open := false, closeCallbacks := s.closeCallbacks + 1) else s
  }

  /** The write w, just taken off the queue, has completed. */
  function Settle(s: State, w: WriteId, ok: bool): State
    requires w < |s.results| == |s.awaited|
  {
    var s1 := Complete(s, w, if w in s.timedOut then TimedOut else if ok then Sent else Failed);
    if w !in s.completed && !s.awaited[w] && !ok then OnDisconnect(s1) else s1
  }

  function OnWriteDone(s: State, ok: bool): State
    requires Issued(s)
    requires s.outstanding.Some? ==> s.outstanding.value < |s.results|
  {
    if s.outstanding.None? then s
    else
      var s1 := s.(outstanding := None, queue := if s.queue == [] then [] else s.queue[1..]);
      ProcessWriteQueue(Settle(s1, s.outstanding.value, ok))
  }

  function DoAsyncClose(s: State): State {
    s.(phase := if s.open then FrameSent else Finished)
  }

  function StartDrainAndClose(s: State): State {
    if s.queue == [] && !s.writeInFlight then DoAsyncClose(s) else s.(phase := Draining)
  }

  function OnDeadline(s: State, id: nat): State {
    if id < |s.awaited| && s.awaited[id] && id !in s.completed then s.(timedOut := s.timedOut + {id}) else s
  }

  function OnCloseCall(s: State): State {
    if s.closing then s
    else s.(closing := true, phase := if s.open then Requested else s.phase)
  }

  function OnCloseTask(s: State): State {
    if s.phase != Requested then s
    else if !s.open then s.(phase := Finished)
    else if s.writeInFlight then StartDrainAndClose(s)
    else DoAsyncClose(s)
  }

  /** One handler run; a completion that is not due changes nothing. */
  function Next(s: State, e: Step): State
    requires Inv(s)
  {
    match e
    case Enqueue(wait, late) => EnqueueWrite(s, wait, late)
    case WriteDone(ok) => OnWriteDone(s, ok)
    case Deadline(id) => OnDeadline(s, id)
    case ReadError => OnDisconnect(s)
    case CloseCall => OnCloseCall(s)
    case CloseTask => OnCloseTask(s)
    case DrainTick => if s.phase == Draining then StartDrainAndClose(s) else s
    case CloseDone => if s.phase == FrameSent then s.(open := false, phase := Finished) else s
  }

  /** What waits behind the write on the stream. */
  function Waiting(s: State): seq<WriteId> {
    if s.outstanding.Some? && s.queue != [] then s.queue[1..] else s.queue
  }

  /** What was queued is what was started, then what was failed unstarted, then what waits. */
  ghost predicate OrderInv(s: State) {
    && s.accepted == s.started + s.dropped + Waiting(s)
    && (s.dropped != [] ==> !s.open && s.queue == [])
  }

  ghost predicate FlightInv(s: State) {
    && (s.writeInFlight <==> s.outstanding.Some?)
    && (s.outstanding.Some? ==> s.queue != [] && s.outstanding.value == s.queue[0])
    && (!s.writeInFlight ==> s.queue == [])
  }

  /** Every write is either queued once and unsettled, or completed and settled once. */
  ghost predicate PromiseInv(s: State) {
    Accounted(s.queue, s.completed, s.awaited, s.results)
  }

  ghost predicate Accounted(queue: seq<WriteId>, completed: set<nat>, awaited: seq<bool>,
                            results: seq<seq<SendResult>>) {
    && |results| == |awaited|
    && (forall i :: 0 <= i < |queue| ==> queue[i] < |results|)
    && (forall i, j :: 0 <= i < j < |queue| ==> queue[i] < queue[j])
    && (forall id :: id in completed <==> 0 <= id < |results| && id !in queue)
    && SettledOnce(completed, awaited, results)
  }

  /** A promise holds one value if its write is completed and awaited, none otherwise. */
  ghost predicate SettledOnce(completed: set<nat>, awaited: seq<bool>, results: seq<seq<SendResult>>)
    requires |results| == |awaited|
  {
    forall id :: 0 <= id < |results| ==>
      |results[id]| == if id in completed && awaited[id] then 1 else 0
  }

  ghost predicate CloseInv(s: State) {
    && s.closeCallbacks <= 1
    && (s.open ==> s.closeCallbacks == 0)
    && (!s.closing ==> s.phase == NoClose)
    && (s.phase == FrameSent ==> s.queue == [])
  }

  ghost predicate Inv(s: State) {
    FlightInv(s) && OrderInv(s) && PromiseInv(s) && CloseInv(s)
  }

  lemma CompleteHeadKeeps(s: State, r: SendResult)
    requires PromiseInv(s) && s.queue != []
    ensures PromiseInv(Complete(s, s.queue[0], r).(queue := s.queue[1..]))
  {
    var w, t := s.queue[0], s.queue[1..];
    assert s.queue == [w] + t;
    assert forall id :: id in s.queue <==> id == w || id in t;
    assert w !in t;
  }

  /** Failing the queue settles every queued write once and empties the queue. */
  lemma {:induction false} FailAllKeeps(s: State)
    requires PromiseInv(s)
    ensures var r := FailAll(s);
      && PromiseInv(r)
      && r == s.(queue := [], dropped := s.dropped + s.queue, completed := r.completed, results := r.results)
    decreases |s.queue|
  {
    if s.queue != [] {
      var s1 := Complete(s, s.queue[0], Failed).(queue := s.queue[1..], dropped := s.dropped + [s.queue[0]]);
      CompleteHeadKeeps(s, Failed);
      assert PromiseInv(s1);
      FailAllKeeps(s1);
      assert s.dropped + [s.queue[0]] + s.queue[1..] == s.dropped + s.queue;
    }
  }

  /** What holds just before the queue is processed again. */
  ghost predicate Popped(s: State) {
    && PromiseInv(s) && OrderInv(s) && CloseInv(s) && s.outstanding.None?
  }

  lemma Regroup(a: seq<nat>, b: seq<nat>, c: seq<nat>)
    ensures c != [] && b == [] ==> a + b + c == (a + [c[0]]) + b + c[1..]
    ensures a + b + c == a + (b + c) + []
    ensures a + b + c == a + (b + c)
  {
    if c != [] && b == [] {
      assert [c[0]] + c[1..] == c;
      assert a + b == a && (a + [c[0]]) + b == a + [c[0]];
    }
  }

  lemma ProcessKeeps(s: State)
    requires Popped(s)
    ensures Inv(ProcessWriteQueue(s))
  {
    if s.queue != [] {
      Regroup(s.started, s.dropped, s.queue);
      if !s.open {
        FailAllKeeps(s);
      }
    }
  }

  lemma IssueKeeps(s: State, wait: bool, late: bool)
    requires PromiseInv(s)
    ensures var w, s1 := |s.results|, Issue(s, wait, late);
      && PromiseInv(Complete(s1, w, Failed))
      && PromiseInv(s1.(queue := s.queue + [w], accepted := s.accepted + [w]))
  {
    var w := |s.results|;
    assert forall id :: id in s.queue + [w] <==> id in s.queue || id == w;
  }

  lemma EnqueueKeeps(s: State, wait: bool, late: bool)
    requires Inv(s)
    ensures Inv(EnqueueWrite(s, wait, late))
  {
    var w, s1 := |s.results|, Issue(s, wait, late);
    IssueKeeps(s, wait, late);
    if !s.closing && s.open {
      var s2 := s1.(queue := s.queue + [w], accepted := s.accepted + [w]);
      assert s.dropped == [];
      if s.writeInFlight {
        assert s2.queue[1..] == s.queue[1..] + [w];
        assert s.started + s.dropped + s.queue[1..] + [w] == s.started + s.dropped + (s.queue[1..] + [w]);
      } else {
        assert s.started + s.dropped + [] + [w] == s.started + s.dropped + [w];
        ProcessKeeps(s2);
      }
    }
  }

  lemma SettleKeeps(s: State, ok: bool)
    requires Inv(s) && s.outstanding.Some?
    ensures Popped(Settle(s.(outstanding := None, queue := s.queue[1..]), s.outstanding.value, ok))
  {
    var w := s.outstanding.value;
    CompleteHeadKeeps(s, if w in s.timedOut then TimedOut else if ok then Sent else Failed);
  }

  lemma NextKeeps(s: State, e: Step)
    requires Inv(s)
    ensures Inv(Next(s, e))
  {
    match e
    case Enqueue(wait, late) => EnqueueKeeps(s, wait, late);
    case WriteDone(ok) =>
      if s.outstanding.Some? {
        SettleKeeps(s, ok);
        ProcessKeeps(Settle(s.(outstanding := None, queue := s.queue[1..]), s.outstanding.value, ok));
      }
    case _ =>
  }

  /** The state after a run from the connected client; Reaches shows the guard never fails. */
  ghost function Run(es: seq<Step>): State {
    if es == [] then Connected()
    else
      var p := Run(es[..|es| - 1]);
      if Inv(p) then Next(p, es[|es| - 1]) else p
  }

  /** Every state a run can reach satisfies the invariant. */
  lemma {:induction false} Reaches(es: seq<Step>)
    ensures Inv(Run(es))
  {
    if es != [] {
      Reaches(es[..|es| - 1]);
      NextKeeps(Run(es[..|es| - 1]), es[|es| - 1]);
    }
  }

  /** Over every run: one write at a time, the queue head; buffers reach the stream in the order
      they were queued; a promise is set once if its write is settled and never otherwise; the
      close callback fires at most once. */
  lemma WritesInOrderPromisesOnce(es: seq<Step>)
    ensures var s := Run(es);
      && (s.outstanding.Some? ==> s.queue != [] && s.outstanding.value == s.queue[0])
      && s.started <= s.accepted
      && |s.results| == |s.awaited| && SettledOnce(s.completed, s.awaited, s.results)
      && s.closeCallbacks <= 1
  {
    Reaches(es);
    var s := Run(es);
    Regroup(s.started, s.dropped, Waiting(s));
  }

  /** Once closing is set the queue only loses writes from its front. */
  lemma ClosingOnlyShrinks(s: State, e: Step)
    requires Inv(s) && s.closing
    ensures var t := Next(s, e);
      t.closing && |t.queue| <= |s.queue| && t.queue == s.queue[|s.queue| - |t.queue|..]
  {
    if e.WriteDone? && s.outstanding.Some? {
      SettleKeeps(s, e.ok);
      var s1 := Settle(s.(outstanding := None, queue := s.queue[1..]), s.outstanding.value, e.ok);
      if !s1.open {
        FailAllKeeps(s1);
      }
    }
  }

  lemma WritesKeepPhase(s: State, e: Step)
    requires Inv(s) && (e.Enqueue? || e.WriteDone?)
    ensures Next(s, e).phase == s.phase
  {
    if e.WriteDone? && s.outstanding.Some? {
      SettleKeeps(s, e.ok);
      FailAllKeeps(Settle(s.(outstanding := None, queue := s.queue[1..]), s.outstanding.value, e.ok));
    }
  }

  /** The close frame goes out only when nothing waits: every write ever queued has been put on
      the stream, and every write has completed. */
  lemma CloseFrameAfterDrain(s: State, e: Step)
    requires Inv(s) && s.phase != FrameSent
    ensures var t := Next(s, e);
      t.phase == FrameSent ==>
        && t.closing && t.queue == [] && t.outstanding.None?
        && t.accepted == t.started
        && forall id :: 0 <= id < |t.results| ==> id in t.completed
  {
    NextKeeps(s, e);
    var t := Next(s, e);
    if e.Enqueue? || e.WriteDone? { WritesKeepPhase(s, e); }
    if t.phase == FrameSent {
      assert t.open;
      assert t.dropped == [] && Waiting(t) == [];
      assert t.started + [] + [] == t.started;
    }
  }

  class Client {
    var queue: seq<WriteId>
    var writeInFlight: bool
    var open: bool
    var closing: bool
    var phase: ClosePhase
    var timedOut: set<nat>
    var completed: set<nat>
    var awaited: seq<bool>
    var results: seq<seq<SendResult>>
    var outstanding: Option<WriteId>
    ghost var accepted: seq<nat>
    ghost var started: seq<nat>
    ghost var dropped: seq<nat>
    ghost var closeCallbacks: nat

    ghost function View(): State
      reads this
    {
      State(queue, writeInFlight, open, closing, phase, timedOut, completed, outstanding,
            awaited, results, accepted, started, dropped, closeCallbacks)
    }

    constructor ()
      ensures View() == Connected() && Inv(View())
    {
      queue, writeInFlight, open, closing := [], false, true, false;
      phase, timedOut, completed, outstanding := NoClose, {}, {}, None;
      awaited, results, accepted, started, dropped := [], [], [], [], [];
      closeCallbacks := 0;
    }

    method SetPromise(w: WriteId, r: SendResult)
      requires w < |results| == |awaited|
      modifies this
      ensures View() == Complete(old(View()), w, r)
    {
      if w !in completed {
        completed := completed + {w};
        if awaited[w] {
          results := results[w := results[w] + [r]];
        }
      }
    }

    method Process()
      requires Issued(View())
      modifies this
      ensures View() == ProcessWriteQueue(old(View()))
    {
      if queue == [] {
        writeInFlight := false;
        return;
      }
      if !open {
        while queue != []
          invariant Issued(View())
          invariant FailAll(View()) == old(FailAll(View()))
          decreases |queue|
        {
          var w := queue[0];
          SetPromise(w, Failed);
          queue := queue[1..];
          dropped := dropped + [w];
        }
        writeInFlight := false;
        return;
      }
      writeInFlight := true;
      outstanding := Some(queue[0]);
      started := started + [queue[0]];
    }

    method EnqueueTask(wait: bool, late: bool)
      requires Issued(View())
      modifies this
      ensures View() == EnqueueWrite(old(View()), wait, late)
    {
      var w := |results|;
      results := results + [[]];
      awaited := awaited + [wait];
      if wait && late { timedOut := timedOut + {w}; }
      if closing || !open {
        SetPromise(w, Failed);
        return;
      }
      queue := queue + [w];
      accepted := accepted + [w];
      if !writeInFlight {
        Process();
      }
    }

    method Disconnected()
      modifies this
      ensures View() == OnDisconnect(old(View()))
    {
      var wasOpen := open;
      open := false;
      if !wasOpen { return; }
      closeCallbacks := closeCallbacks + 1;
    }

    method WriteCompleted(ok: bool)
      requires Issued(View())
      requires outstanding.Some? ==> outstanding.value < |results|
      modifies this
      ensures View() == OnWriteDone(old(View()), ok)
    {
      if outstanding.None? { return; }
      var w := outstanding.value;
      var first := w !in completed;
      outstanding := None;
      if queue != [] { queue := queue[1..]; }
      SetPromise(w, if w in timedOut then TimedOut else if ok then Sent else Failed);
      if first && !awaited[w] && !ok {
        Disconnected();
      }
      Process();
    }

    method Close()
      modifies this
      ensures View() == OnCloseCall(old(View()))
    {
      if closing { return; }
      closing := true;
      if !open { return; }
      phase := Requested;
    }

    method AsyncClose()
      modifies this
      ensures View() == DoAsyncClose(old(View()))
    {
      phase := if open then FrameSent else Finished;
    }

    method DrainAndClose()
      modifies this
      ensures View() == StartDrainAndClose(old(View()))
    {
      if queue == [] && !writeInFlight {
        AsyncClose();
        return;
      }
      phase := Draining;
    }

    /** The task that Close posts to the IO thread. */
    method RunCloseTask()
      modifies this
      ensures View() == OnCloseTask(old(View()))
    {
      if phase != Requested { return; }
      if !open { phase := Finished; return; }
      if writeInFlight { DrainAndClose(); } else { AsyncClose(); }
    }

    /** The 10 ms drain timer. */
    method DrainTimer()
      requires Inv(View())
      modifies this
      ensures View() == Next(old(View()), DrainTick) && Inv(View())
    {
      if phase == Draining { DrainAndClose(); }
    }

    method CloseCompleted()
      requires Inv(View())
      modifies this
      ensures View() == Next(old(View()), CloseDone) && Inv(View())
    {
      if phase == FrameSent {
        open := false;
        phase := Finished;
      }
    }
  }
}
