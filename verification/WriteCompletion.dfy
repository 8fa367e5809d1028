/** What the completion of a write does: when it disconnects, and what the waiting caller is told.
    Everything is said of the steps of a run. */
module WriteCompletion {
  import opened Types
  import opened WriteQueue

  // ------------------------------------------------------------------------------------------
  // Disconnecting.

  /** The step reports a failed write that nobody waits for. */
  predicate PostFails(s: State, e: Step) {
    e == WriteDone(false) && s.outstanding.Some? && s.outstanding.value < |s.awaited| && !s.awaited[s.outstanding.value]
  }

  lemma ProcessKeepsOpen(s: State)
    requires Issued(s)
    ensures ProcessWriteQueue(s).open == s.open && ProcessWriteQueue(s).closeCallbacks == s.closeCallbacks
  {
    FailAllOpen(s);
  }

  lemma {:induction false} FailAllOpen(s: State)
    requires Issued(s)
    ensures FailAll(s).open == s.open && FailAll(s).closeCallbacks == s.closeCallbacks
    decreases |s.queue|
  {
    if s.queue != [] {
      FailAllOpen(Complete(s, s.queue[0], Failed).(queue := s.queue[1..], dropped := s.dropped + [s.queue[0]]));
    }
  }

  /** The connection is reported lost, once, by exactly two things: a read error, and a write error
      of a write nobody waits for; it is closed without a report only by the end of the closing
      handshake. A successful write, or a failed one with a waiting caller, leaves it open. */
  lemma DisconnectsIff(es: seq<Step>, e: Step)
    requires Run(es).open
    ensures var s, t := Run(es), Run(es + [e]);
      && (t.closeCallbacks == s.closeCallbacks + 1 <==> e == ReadError || PostFails(s, e))
      && (!t.open <==> e == ReadError || PostFails(s, e) || (e == CloseDone && s.phase == FrameSent))
      && (t.closeCallbacks != s.closeCallbacks + 1 ==> t.closeCallbacks == s.closeCallbacks)
      && (s.outstanding.Some? ==> s.outstanding.value < |s.awaited| && s.outstanding.value !in s.completed)
  {
    var s := Run(es);
    Reaches(es);
    NextOf(es, e);
    if e.WriteDone? && s.outstanding.Some? {
      SettleKeeps(s, e.ok);
      ProcessKeepsOpen(Settle(s.(outstanding := None, queue := s.queue[1..]), s.outstanding.value, e.ok));
    } else if e.Enqueue? {
      EnqueueKeepsOpen(s, e.wait, e.late);
    }
  }

  lemma EnqueueKeepsOpen(s: State, wait: bool, late: bool)
    requires Inv(s)
    ensures EnqueueWrite(s, wait, late).open == s.open && EnqueueWrite(s, wait, late).closeCallbacks == s.closeCallbacks
  {
    IssueKeeps(s, wait, late);
    ProcessKeepsOpen(Issue(s, wait, late).(queue := s.queue + [|s.results|], accepted := s.accepted + [|s.results|]));
  }

  lemma NextOf(es: seq<Step>, e: Step)
    ensures Inv(Run(es)) && Run(es + [e]) == Next(Run(es), e)
  {
    Reaches(es);
    assert (es + [e])[..|es|] == es;
  }

  // ------------------------------------------------------------------------------------------
  // What a waiting caller is told.

  /** How many writes have been handed in. */
  function Writes(es: seq<Step>): nat {
    if es == [] then 0 else Writes(es[..|es| - 1]) + (if es[|es| - 1].Enqueue? then 1 else 0)
  }

  /** The deadline of write id has passed: after it was handed in, or already before. */
  predicate Expired(es: seq<Step>, id: nat) {
    es != [] &&
      var k := |es| - 1;
      || Expired(es[..k], id)
      || (es[k] == Deadline(id) && id < Writes(es[..k]))
      || (es[k] == Enqueue(true, true) && id == Writes(es[..k]))
  }

  /** Step k reports the completion of write id. */
  ghost predicate Reports(es: seq<Step>, k: nat, id: nat, ok: bool)
    requires k < |es|
  {
    es[k] == WriteDone(ok) && Run(es[..k]).outstanding == Some(id)
  }

  /** Write id was taken by the stream and reported done, before its deadline. */
  ghost predicate DoneInTime(es: seq<Step>, id: nat) {
    exists k :: 0 <= k < |es| && Reports(es, k, id, true) && !Expired(es[..k], id)
  }

  /** Write id was taken by the stream and reported, well or ill, after its deadline. */
  ghost predicate DoneLate(es: seq<Step>, id: nat) {
    exists k, ok :: 0 <= k < |es| && Reports(es, k, id, ok) && Expired(es[..k], id)
  }

  /** The result a completion is settled with. */
  function Told(expired: bool, ok: bool): SendResult {
    if expired then TimedOut else if ok then Sent else Failed
  }

  /** The promise holds Sent, or TimedOut, exactly for such a report. */
  ghost predicate ToldRight(es: seq<Step>, id: nat) {
    var s := Run(es);
    && id < |s.results| == |s.awaited|
    && (s.awaited[id] ==>
          && (s.results[id] == [Sent] <==> DoneInTime(es, id))
          && (s.results[id] == [TimedOut] <==> DoneLate(es, id)))
  }

  /** The deadlines a state remembers are those that have passed. */
  ghost predicate Remembered(es: seq<Step>) {
    var s := Run(es);
    && |s.results| == |s.awaited| == Writes(es)
    && (forall id :: id in s.timedOut ==> id < |s.results|)
    && (forall id :: 0 <= id < |s.results| && s.awaited[id] && id !in s.completed ==> (id in s.timedOut <==> Expired(es, id)))
  }

  lemma {:induction false} ExpiredWasWritten(es: seq<Step>, id: nat)
    requires Expired(es, id)
    ensures id < Writes(es)
  {
    if Expired(es[..|es| - 1], id) { ExpiredWasWritten(es[..|es| - 1], id); }
  }

  lemma {:induction false} WritesGrow(es: seq<Step>, k: nat)
    requires k <= |es|
    ensures Writes(es[..k]) <= Writes(es)
  {
    if k < |es| {
      WritesGrow(es[..|es| - 1], k);
      assert es[..|es| - 1][..k] == es[..k];
    } else {
      assert es[..k] == es;
    }
  }

  /** Failing the queue tells each waiting caller in it Failed, and nobody else anything. */
  lemma {:induction false} FailAllTells(s: State)
    requires PromiseInv(s)
    ensures var r := FailAll(s);
      && r.awaited == s.awaited && r.timedOut == s.timedOut && |r.results| == |s.results| && s.completed <= r.completed
      && forall id :: 0 <= id < |s.results| ==>
           r.results[id] == if id in s.queue && s.awaited[id] then s.results[id] + [Failed] else s.results[id]
    decreases |s.queue|
  {
    if s.queue != [] {
      var s1 := Complete(s, s.queue[0], Failed).(queue := s.queue[1..], dropped := s.dropped + [s.queue[0]]);
      CompleteHeadKeeps(s, Failed);
      assert PromiseInv(s1);
      FailAllTells(s1);
      HeadAndRest(s.queue);
    }
  }

  lemma HeadAndRest(q: seq<nat>)
    requires q != []
    ensures forall id :: id in q <==> id == q[0] || id in q[1..]
  {
    assert q == [q[0]] + q[1..];
  }

  /** One step: the caller whose write is reported is told; another may be told Failed; nobody
      else is told anything. */
  ghost predicate Tells(s: State, e: Step, t: State) {
    && |s.results| == |s.awaited| <= |t.results| == |t.awaited|
    && s.awaited <= t.awaited && s.completed <= t.completed
    && forall id :: 0 <= id < |s.results| ==>
         if e.WriteDone? && s.outstanding == Some(id) && s.awaited[id]
         then t.results[id] == [Told(id in s.timedOut, e.ok)] && s.results[id] == []
         else t.results[id] == s.results[id] || t.results[id] == s.results[id] + [Failed]
  }

  /** The reported write alone is told. */
  lemma SettleTells(s: State, ok: bool)
    requires Inv(s) && s.outstanding.Some?
    ensures var w := s.outstanding.value;
      var r := Settle(s.(outstanding := None, queue := s.queue[1..]), w, ok);
      && r.awaited == s.awaited && r.timedOut == s.timedOut && s.completed <= r.completed && r.queue == s.queue[1..]
      && r.results == (if s.awaited[w] then s.results[w := [Told(w in s.timedOut, ok)]] else s.results)
      && s.results[w] == [] && w !in r.queue
  {
    var w := s.outstanding.value;
    assert w in s.queue;
    assert [] + [Told(w in s.timedOut, ok)] == [Told(w in s.timedOut, ok)];
  }

  lemma ProcessTells(s: State)
    requires PromiseInv(s)
    ensures var r := ProcessWriteQueue(s);
      && r.awaited == s.awaited && r.timedOut == s.timedOut && |r.results| == |s.results| && s.completed <= r.completed
      && forall id :: 0 <= id < |s.results| ==>
           r.results[id] == s.results[id] || (id in s.queue && r.results[id] == s.results[id] + [Failed])
  {
    FailAllTells(s);
  }

  lemma DoneTells(s: State, ok: bool)
    requires Inv(s) && s.outstanding.Some?
    ensures Tells(s, WriteDone(ok), OnWriteDone(s, ok)) && OnWriteDone(s, ok).timedOut == s.timedOut
    ensures |OnWriteDone(s, ok).results| == |s.results|
  {
    var r := Settle(s.(outstanding := None, queue := s.queue[1..]), s.outstanding.value, ok);
    SettleKeeps(s, ok);
    SettleTells(s, ok);
    ProcessTells(r);
    assert OnWriteDone(s, ok) == ProcessWriteQueue(r);
  }

  lemma EnqueueTells(s: State, wait: bool, late: bool)
    requires Inv(s)
    ensures var t, w := EnqueueWrite(s, wait, late), |s.results|;
      && Tells(s, Enqueue(wait, late), t) && |t.results| == w + 1 && t.awaited[w] == wait
      && (t.results[w] == [] || t.results[w] == [Failed])
      && t.timedOut == (if wait && late then s.timedOut + {w} else s.timedOut)
      && (w in t.completed ==> s.closing || !s.open)
  {
  }

  lemma StepTells(s: State, e: Step)
    requires Inv(s)
    ensures Tells(s, e, Next(s, e))
    ensures |Next(s, e).results| == |s.results| + (if e.Enqueue? then 1 else 0)
    ensures forall id :: 0 <= id < |s.results| && s.awaited[id] && id !in s.completed ==>
      (id in Next(s, e).timedOut <==> id in s.timedOut || e == Deadline(id))
  {
    match e
    case Enqueue(wait, late) => EnqueueTells(s, wait, late);
    case WriteDone(ok) => if s.outstanding.Some? { DoneTells(s, ok); }
    case _ =>
  }

  lemma ExpiredSnoc(es: seq<Step>, id: nat)
    requires es != []
    ensures var k := |es| - 1;
      Expired(es, id) <==> Expired(es[..k], id) || (es[k] == Deadline(id) && id < Writes(es[..k]))
                           || (es[k] == Enqueue(true, true) && id == Writes(es[..k]))
  {
  }

  lemma {:induction false} RunRemembers(es: seq<Step>)
    ensures Remembered(es)
  {
    if es != [] {
      var k := |es| - 1;
      var s, e, t := Run(es[..k]), es[k], Run(es);
      RunRemembers(es[..k]);
      Reaches(es[..k]);
      StepTells(s, e);
      forall id | 0 <= id < |t.results| == |t.awaited| && t.awaited[id] && id !in t.completed
        ensures id in t.timedOut <==> Expired(es, id)
      {
        ExpiredSnoc(es, id);
        if id == |s.results| {
          EnqueueTells(s, e.wait, e.late);
          if Expired(es[..k], id) { ExpiredWasWritten(es[..k], id); }
        }
      }
      KnownDeadlines(s, e);
    }
  }

  lemma KnownDeadlines(s: State, e: Step)
    requires Inv(s) && forall id :: id in s.timedOut ==> id < |s.results|
    ensures forall id :: id in Next(s, e).timedOut ==> id < |Next(s, e).results|
    ensures |Next(s, e).results| == |Next(s, e).awaited|
  {
    StepTells(s, e);
    if e.Enqueue? { EnqueueTells(s, e.wait, e.late); }
    if e.WriteDone? && s.outstanding.Some? { DoneTells(s, e.ok); }
  }

  // ------------------------------------------------------------------------------------------
  // Over runs.

  lemma ReportedWasWritten(es: seq<Step>, k: nat, id: nat, ok: bool)
    requires k < |es| && Reports(es, k, id, ok)
    ensures id < Writes(es[..k]) <= Writes(es[..|es| - 1])
  {
    Reaches(es[..k]);
    RunRemembers(es[..k]);
    WritesGrow(es[..|es| - 1], k);
    assert es[..|es| - 1][..k] == es[..k];
  }

  /** The last step decides, or an earlier one did. */
  lemma DoneSnoc(es: seq<Step>, id: nat)
    requires es != []
    ensures var k := |es| - 1;
      && (DoneInTime(es, id) <==> DoneInTime(es[..k], id) || (Reports(es, k, id, true) && !Expired(es[..k], id)))
      && (DoneLate(es, id) <==>
            DoneLate(es[..k], id) || ((Reports(es, k, id, true) || Reports(es, k, id, false)) && Expired(es[..k], id)))
  {
    var k := |es| - 1;
    if j :| 0 <= j < |es| && Reports(es, j, id, true) && !Expired(es[..j], id) {
      if j < k { Earlier(es, j, id, true); }
    }
    if j :| 0 <= j < k && Reports(es[..k], j, id, true) && !Expired(es[..k][..j], id) { Earlier(es, j, id, true); }
    if j, ok :| 0 <= j < |es| && Reports(es, j, id, ok) && Expired(es[..j], id) {
      if j < k { Earlier(es, j, id, ok); }
    }
    if j, ok :| 0 <= j < k && Reports(es[..k], j, id, ok) && Expired(es[..k][..j], id) { Earlier(es, j, id, ok); }
  }

  lemma Earlier(es: seq<Step>, j: nat, id: nat, ok: bool)
    requires j < |es| - 1
    ensures es[..|es| - 1][..j] == es[..j]
    ensures Reports(es, j, id, ok) <==> Reports(es[..|es| - 1], j, id, ok)
  {
    assert es[..|es| - 1][..j] == es[..j];
  }

  lemma NobodyYet(es: seq<Step>, id: nat)
    requires id >= Writes(es)
    ensures !DoneInTime(es, id) && !DoneLate(es, id)
  {
    if k, ok :| 0 <= k < |es| && Reports(es, k, id, ok) {
      WritesGrow(es, |es| - 1);
      ReportedWasWritten(es, k, id, ok);
    }
  }

  /** A promise after one step: told now, or as before, or failed. */
  lemma OldWriteTold(s: State, e: Step, id: nat)
    requires Inv(s) && id < |s.results| && s.awaited[id]
    ensures var t := Next(s, e);
      && id < |t.results| == |t.awaited| && t.awaited[id]
      && if e.WriteDone? && s.outstanding == Some(id)
         then s.results[id] == [] && t.results[id] == [Told(id in s.timedOut, e.ok)] && id !in s.completed
         else t.results[id] == s.results[id] || (s.results[id] == [] && t.results[id] == [Failed])
  {
    StepTells(s, e);
    NextKeeps(s, e);
  }

  lemma OldWriteRight(es: seq<Step>, id: nat)
    requires es != [] && id < |Run(es[..|es| - 1]).results| && ToldRight(es[..|es| - 1], id)
    ensures ToldRight(es, id)
  {
    var k := |es| - 1;
    var s, e := Run(es[..k]), es[k];
    Reaches(es[..k]);
    RunRemembers(es[..k]);
    StepTells(s, e);
    if s.awaited[id] {
      DoneSnoc(es, id);
      OldWriteTold(s, e, id);
    }
  }

  lemma NewWriteRight(es: seq<Step>, id: nat)
    requires es != [] && |Run(es[..|es| - 1]).results| <= id < |Run(es).results|
    ensures ToldRight(es, id)
  {
    var k := |es| - 1;
    Reaches(es[..k]);
    RunRemembers(es[..k]);
    StepTells(Run(es[..k]), es[k]);
    EnqueueTells(Run(es[..k]), es[k].wait, es[k].late);
    NobodyYet(es[..k], id);
    DoneSnoc(es, id);
  }

  /** Over every run: a waiting caller is told that its write was sent if and only if the stream
      reported its success before the deadline, and that it timed out if and only if the stream
      reported on it, well or ill, after the deadline. */
  lemma {:induction false} CallersAreToldRight(es: seq<Step>, id: nat)
    requires id < |Run(es).results|
    ensures ToldRight(es, id)
  {
    var k := |es| - 1;
    if id < |Run(es[..k]).results| {
      CallersAreToldRight(es[..k], id);
      OldWriteRight(es, id);
    } else {
      NewWriteRight(es, id);
    }
  }

  // ------------------------------------------------------------------------------------------
  // Handing in and closing.

  /** A write is taken exactly while the socket is open and nobody has asked to close it, and put
      on the stream at once if nothing is on it; otherwise a waiting caller is told Failed. */
  lemma WriteIsTakenIff(es: seq<Step>, wait: bool, late: bool)
    ensures var s, t := Run(es), Run(es + [Enqueue(wait, late)]); var w := |s.results|;
      && |t.results| == w + 1 == |t.awaited|
      && (if s.open && !s.closing then
            && t.accepted == s.accepted + [w] && t.results[w] == []
            && t.started == if s.outstanding.None? then s.started + [w] else s.started
          else
            t.accepted == s.accepted && t.started == s.started && t.results[w] == (if wait then [Failed] else []))
  {
    NextOf(es, Enqueue(wait, late));
    EnqueueTells(Run(es), wait, late);
  }

  /** The close frame goes out exactly when the first close request, or the drain it began, finds
      the socket open and no write on the stream. */
  lemma CloseFrameIff(es: seq<Step>, e: Step)
    requires Run(es).phase != FrameSent
    ensures var s, t := Run(es), Run(es + [e]);
      && (t.phase == FrameSent <==>
            s.open && s.outstanding.None? && ((e == CloseTask && s.phase == Requested) || (e == DrainTick && s.phase == Draining)))
      && (t.phase == Draining && s.phase != Draining <==>
            e == CloseTask && s.phase == Requested && s.open && s.outstanding.Some?)
      && (t.phase == Requested && s.phase != Requested <==> e == CloseCall && !s.closing && s.open)
  {
    NextOf(es, e);
    if e.Enqueue? || e.WriteDone? { WritesKeepPhase(Run(es), e); }
  }
}
