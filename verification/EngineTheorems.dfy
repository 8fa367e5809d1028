/** What holds of every run of the control thread, from its start to its first fault. */
module EngineTheorems {
  import opened Types
  import opened Stream
  import opened Engine
  import opened EngineInvariant
  import opened EngineKernel
  import opened EngineSubscriptions
  import opened EngineSteps
  import opened EngineBarrier
  import opened EngineHistory
  import opened EngineMemory
  import Delivery

  // ------------------------------------------------------------------------------------------
  // History.

  lemma {:induction false} RunLogged(o: Options, ins: seq<Input>)
    ensures Logged(Run(o, ins))
  {
    if ins != [] {
      RunLogged(o, ins[..|ins| - 1]);
      StepOnward(o, Run(o, ins[..|ins| - 1]), ins[|ins| - 1]);
    }
  }

  /** A longer run extends the history of a shorter one. */
  lemma {:induction false} RunOnward(o: Options, ins: seq<Input>, k: nat)
    requires k <= |ins|
    ensures Onward(Run(o, ins[..k]), Run(o, ins))
  {
    RunLogged(o, ins[..k]);
    if k < |ins| {
      var n := |ins| - 1;
      RunOnward(o, ins[..n], k);
      assert ins[..n][..k] == ins[..k];
      RunLogged(o, ins[..n]);
      StepOnward(o, Run(o, ins[..n]), ins[n]);
      Chain(Run(o, ins[..k]), Run(o, ins[..n]), Run(o, ins));
    } else {
      assert ins[..k] == ins;
    }
  }

  // ------------------------------------------------------------------------------------------
  // The connection machine.

  /** Every transition of every run is one the machine is documented to make; the retry count is
      the number of entries into Reconnecting since the last Ready, and the reconnect count the
      number of times a reconnect reached Ready. */
  lemma TransitionsAreLegal(o: Options, ins: seq<Input>)
    requires Run(o, ins).fault == NoFault
    ensures var l := Run(o, ins).link;
      && LegalTrace(l.trace) && l.trace[|l.trace| - 1] == l.st
      && l.attempt == RetriesSinceReady(l.trace) && l.total == Recoveries(l.trace)
  {
    RunKeeps(o, ins);
  }

  /** Shutdown is absorbing; Fatal is left only to Shutdown. */
  lemma TerminalStatesAreFinal(o: Options, ins: seq<Input>, k: nat)
    requires k <= |ins| && Run(o, ins).fault == NoFault && Run(o, ins[..k]).fault == NoFault
    ensures Run(o, ins[..k]).link.st == Shutdown ==> Run(o, ins).link.st == Shutdown
    ensures Run(o, ins[..k]).link.st == Fatal ==> Terminal(Run(o, ins).link.st)
  {
    RunKeeps(o, ins);
    RunKeeps(o, ins[..k]);
    RunOnward(o, ins, k);
    var a, b := Run(o, ins[..k]).link.trace, Run(o, ins).link.trace;
    var n := |a| - 1;
    assert b[n] == a[n];
    if |a| < |b| {
      assert Legal(b[n], b[n + 1]);
      if |a| + 1 < |b| { assert Legal(b[n + 1], b[n + 2]); }
    }
  }

  /** Between steps a lost connection always has its retry armed, for the next attempt; with a
      limit of n, Reconnecting is entered at most n times without a Ready between. */
  lemma RetriesAreBounded(o: Options, ins: seq<Input>)
    requires Run(o, ins).fault == NoFault
    ensures var l := Run(o, ins).link;
      && (l.st == TransientFailure ==> l.retry == Some(RetriesSinceReady(l.trace) + 1))
      && (l.st != TransientFailure ==> l.retry == None)
      && (o.maxAttempts >= 0 ==>
            && RetriesSinceReady(l.trace) <= o.maxAttempts
            && (RetriesSinceReady(l.trace) == o.maxAttempts ==> l.st != TransientFailure))
  {
    RunKeeps(o, ins);
  }

  /** The loss of a connection ends the session exactly when the limit is used up. */
  lemma LossIsFatalIffSpent(o: Options, s: State, reason: ErrorCode)
    requires Inv(o, s) && s.fault == NoFault && Alive(s) && !HasReplay(s.table.rpcs)
    ensures var r := OnTransportClose(o, s, reason);
      && r.fault == NoFault
      && (r.link.st == Fatal <==> !WithinLimit(o, RetriesSinceReady(s.link.trace) + 1))
      && (r.link.st == TransientFailure <==> WithinLimit(o, RetriesSinceReady(s.link.trace) + 1))
      && r.table.rpcs == map[] && (forall c :: 0 <= c < |r.table.calls| ==> |r.table.calls[c]| == 1)
  {
    CloseKeeps(o, s, reason);
  }

  // ------------------------------------------------------------------------------------------
  // Promises.

  /** Every user call is answered at most once; it is unanswered exactly while one entry of the
      table, and only one, still holds its promise. */
  lemma PromisesAreSetOnce(o: Options, ins: seq<Input>, c: nat)
    requires Run(o, ins).fault == NoFault && c < |Run(o, ins).table.calls|
    ensures var t := Run(o, ins).table;
      && |t.calls[c]| <= 1
      && (|t.calls[c]| == 0 <==> exists rid :: rid in t.rpcs && CallOf(t.rpcs[rid]) == Some(c))
      && forall a, b :: a in t.rpcs && b in t.rpcs && CallOf(t.rpcs[a]) == CallOf(t.rpcs[b]) == Some(c) ==> a == b
  {
    RunKeeps(o, ins);
    var t := Run(o, ins).table;
    if |t.calls[c]| == 0 {
      assert c in OpenCalls(t.rpcs);
      var rid :| rid in t.rpcs && CallOf(t.rpcs[rid]) == Some(c);
    }
    if rid :| rid in t.rpcs && CallOf(t.rpcs[rid]) == Some(c) {
      assert CallOf(t.rpcs[rid]).value in OpenCalls(t.rpcs);
    }
  }

  /** An answer given is never changed or withdrawn. */
  lemma PromisesAreKept(o: Options, ins: seq<Input>, k: nat, c: nat)
    requires k <= |ins| && Run(o, ins).fault == NoFault
    requires c < |Run(o, ins[..k]).table.calls| && |Run(o, ins[..k]).table.calls[c]| == 1
    ensures c < |Run(o, ins).table.calls|
    ensures Run(o, ins).table.calls[c] == Run(o, ins[..k]).table.calls[c]
  {
    RunOnward(o, ins, k);
    PromisesAreSetOnce(o, ins, c);
    assert Run(o, ins[..k]).table.calls[c] <= Run(o, ins).table.calls[c];
  }

  /** Outside Ready no user call is left waiting: the table holds at most the handshake of a
      connection being set up, or the replayed stop of the barrier. */
  lemma NobodyWaitsOutsideReady(o: Options, ins: seq<Input>)
    requires Run(o, ins).fault == NoFault && Run(o, ins).link.st != Ready
    ensures var s := Run(o, ins);
      && (forall c :: 0 <= c < |s.table.calls| ==> |s.table.calls[c]| == 1)
      && AtMostOne(s.table.rpcs)
      && forall rid :: rid in s.table.rpcs ==>
           match s.table.rpcs[rid]
           case Handshake(again) => s.link.st == (if again then Reconnecting else Connecting) && !s.wire.greeted
           case Replay => AtBarrier(s) && s.barrier.estop && WasSent(s.wire, rid, EStopReq(true))
           case _ => false
  {
    RunKeeps(o, ins);
    var s := Run(o, ins);
    assert OpenCalls(s.table.rpcs) == {};
  }

  // ------------------------------------------------------------------------------------------
  // The barrier.

  /** In the barrier the pending count is the number of outstanding subscribes plus those whose
      subscription was unsubscribed meanwhile; it is exact if there was none. */
  lemma PendingIsOutstanding(o: Options, ins: seq<Input>)
    requires Run(o, ins).fault == NoFault && AtBarrier(Run(o, ins))
    ensures var s := Run(o, ins);
      && s.barrier.pending == |Outstanding(s.subs.active)| + s.barrier.abandoned
      && (s.barrier.pending > 0 || s.barrier.estop)
  {
    RunKeeps(o, ins);
  }

  /** Before the reconnect handshake is answered, Ready is next only with nothing to restore. */
  lemma UngreetedStep(o: Options, s: State, i: Input)
    requires Inv(o, s) && s.fault == NoFault && s.link.st == Reconnecting && !s.wire.greeted
    ensures var s' := Step(o, s, i); s'.fault == NoFault && s'.link.st == Ready ==> s'.subs.active == map[]
  {
    if Lists(i.order, s.subs.active) {
      var s1 := Tick(s, i.elapsed);
      if FromUser(i.event) {
        UngreetedUser(o, s1, i);
      } else if FromSocket(i.event) {
        if i.event.Inbound? && s.wire.conn > 0 {
          ClockKeeps(o, s, i.elapsed);
          NotedKeeps(o, s1);
          UngreetedResponse(o, Noted(s1), i.event.resp, i.accepts, i.order);
        }
      } else {
        UngreetedTimer(o, s1, i);
      }
    }
  }

  lemma UngreetedUser(o: Options, s: State, i: Input)
    requires s.link.st == Reconnecting
    ensures HandleUser(o, s, i).link.st != Ready
  {
  }

  lemma UngreetedTimer(o: Options, s: State, i: Input)
    requires s.link.st == Reconnecting
    ensures HandleTimer(o, s, i).link.st != Ready
  {
  }

  lemma UngreetedResponse(o: Options, s: State, resp: Response, accepts: nat -> bool, order: seq<string>)
    requires Inv(o, s) && s.fault == NoFault && s.link.st == Reconnecting && !s.wire.greeted
    requires Lists(order, s.subs.active)
    ensures var s' := HandleResponse(o, s, resp, accepts, order);
      s'.fault == NoFault && s'.link.st == Ready ==> s'.subs.active == map[]
  {
    if resp.hasSubscribe {
      if resp.requestId in s.subs.req && s.subs.req[resp.requestId] in s.subs.active {
        assert Fits(s.link, s.wire, s.subs.active[s.subs.req[resp.requestId]]);
      }
    } else if resp.requestId in s.table.rpcs {
      var okd := if Succeeds(resp) then s.wire.okd + {resp.requestId} else s.wire.okd;
      HandshakeAnswered(o, s, resp.requestId, okd);
      UngreetedHandshake(o, s.(table := s.table.(rpcs := s.table.rpcs - {resp.requestId}), wire := s.wire.(okd := okd)),
                         resp, accepts, order);
    }
  }

  lemma UngreetedHandshake(o: Options, s: State, resp: Response, accepts: nat -> bool, order: seq<string>)
    requires Answered(o, s) && s.fault == NoFault && s.link.st == Reconnecting && Lists(order, s.subs.active)
    ensures var s' := CompleteHandshake(o, s, true, resp, accepts, order);
      s'.fault == NoFault && s'.link.st == Ready ==> s'.subs.active == map[]
  {
    if !resp.success || !resp.hasHandshake {
      FailureNotReady(o, s, if resp.success then InternalError else resp.code);
    } else if |s.subs.active| > 0 || s.engaged {
      var s3 := Resubscribe(o, BarrierOpened(o, s), order, accepts);
      BarrierOpens(o, s, order);
      ResubscribeKeeps(o, BarrierOpened(o, s), order, accepts);
      if s3.fault == NoFault {
        ReplayNotReady(o, s3, accepts);
      }
    }
  }

  lemma FailureNotReady(o: Options, s: State, code: ErrorCode)
    requires s.link.st != Ready
    ensures FailConnection(o, s, code).link.st != Ready
  {
  }

  lemma ReplayNotReady(o: Options, s: State, accepts: nat -> bool)
    requires s.link.st != Ready
    ensures DoEStopReplay(o, s, accepts).link.st != Ready
  {
  }

  /** When a reconnect reaches Ready, no subscribe is outstanding, every subscription it restored
      flows again, and an engaged stop has been confirmed on this very connection. */
  lemma ReadyMeansRestored(o: Options, ins: seq<Input>, i: Input)
    requires var s, s' := Run(o, ins), Run(o, ins + [i]);
      s'.fault == NoFault && s.link.st == Reconnecting && s'.link.st == Ready
    ensures var s' := Run(o, ins + [i]);
      && Outstanding(s'.subs.active) == {} && AllSettled(s'.subs.active)
      && (s'.engaged ==> StopConfirmed(s'.wire))
  {
    var all := ins + [i];
    assert all[..|all| - 1] == ins;
    var s := Run(o, ins);
    assert Run(o, all) == Step(o, s, i);
    RunKeeps(o, ins);
    RunKeeps(o, all);
    if AtBarrier(s) {
      BarrierStep(o, s, i);
    } else {
      UngreetedStep(o, s, i);
    }
  }

  /** How many of the inputs acknowledge an outstanding subscribe. */
  function MatchedAcks(o: Options, s: State, ins: seq<Input>): nat {
    if ins == [] then 0
    else
      var k := |ins| - 1;
      var before := RunFrom(o, s, ins[..k]);
      MatchedAcks(o, s, ins[..k])
      + (if IsMatchedAck(before, ins[k].event) && Lists(ins[k].order, before.subs.active) then 1 else 0)
  }

  /** The run never leaves the barrier of this connection. */
  predicate StaysAtBarrier(o: Options, s: State, ins: seq<Input>) {
    && RunFrom(o, s, ins).fault == NoFault && AtBarrier(RunFrom(o, s, ins))
    && (ins != [] ==> StaysAtBarrier(o, s, ins[..|ins| - 1]))
  }

  /** The fallback ends: in one barrier at most twice as many acknowledgements are handled as
      there were subscriptions, whatever they say and in whatever order they come. */
  lemma {:induction false} AcksAreBounded(o: Options, s: State, ins: seq<Input>)
    requires Inv(o, s) && StaysAtBarrier(o, s, ins)
    ensures MatchedAcks(o, s, ins) + Load(RunFrom(o, s, ins).subs.active) <= Load(s.subs.active) <= 2 * |s.subs.active|
  {
    LoadBound(s.subs.active);
    if ins != [] {
      var k := |ins| - 1;
      AcksAreBounded(o, s, ins[..k]);
      RunFromKeeps(o, s, ins[..k]);
      BarrierStep(o, RunFrom(o, s, ins[..k]), ins[k]);
    }
  }

  /** How many of the inputs unsubscribe a topic whose subscribe is outstanding. */
  function Departures(o: Options, s: State, ins: seq<Input>): nat {
    if ins == [] then 0
    else
      var k := |ins| - 1;
      var before := RunFrom(o, s, ins[..k]);
      Departures(o, s, ins[..k])
      + (if Leaves(before, ins[k].event) && Lists(ins[k].order, before.subs.active) then 1 else 0)
  }

  /** The pending count exceeds the outstanding subscribes by exactly the subscriptions that left
      in the meantime. */
  lemma {:induction false} PendingCountsDepartures(o: Options, s: State, ins: seq<Input>)
    requires Inv(o, s) && StaysAtBarrier(o, s, ins) && s.barrier.abandoned == 0
    ensures var e := RunFrom(o, s, ins);
      e.barrier.abandoned == Departures(o, s, ins)
      && e.barrier.pending == |Outstanding(e.subs.active)| + Departures(o, s, ins)
  {
    RunFromKeeps(o, s, ins);
    if ins != [] {
      var k := |ins| - 1;
      PendingCountsDepartures(o, s, ins[..k]);
      RunFromKeeps(o, s, ins[..k]);
      BarrierStep(o, RunFrom(o, s, ins[..k]), ins[k]);
    }
  }

  lemma SubsetSize(a: set<string>, b: set<string>)
    requires a <= b
    ensures |a| <= |b|
  {
    assert b == a + (b - a);
  }

  lemma LoadBound(active: map<string, Entry>)
    ensures Load(active) <= 2 * |active|
  {
    SubsetSize(Outstanding(active), active.Keys);
    SubsetSize(Unretried(active), active.Keys);
  }

  /** No subscription is requested more than twice on one connection. */
  lemma AtMostTwoSubscribes(o: Options, ins: seq<Input>, t: string)
    requires Run(o, ins).fault == NoFault && t in Run(o, ins).subs.active
    ensures var s := Run(o, ins); var e := s.subs.active[t];
      e.sentOn == s.wire.conn ==> e.sends <= 2 && (e.sends == 2 ==> e.slot.retried)
  {
    RunKeeps(o, ins);
    assert SendsOk(Run(o, ins).wire, Run(o, ins).subs.active[t]);
  }

  // ------------------------------------------------------------------------------------------
  // Subscriptions.

  ghost predicate Tracked(m: Subs, slot: Slot) {
    slot in m.retired || exists t :: t in m.active && m.active[t].slot == slot
  }

  /** In every run every subscription, in the table or closed, has told its user a well-formed
      story: frames and gaps only between an opening and the next pause, and nothing after the
      end, which is reached exactly when the subscription leaves the table. */
  lemma StreamsAreWellFormed(o: Options, ins: seq<Input>, slot: Slot)
    requires Run(o, ins).fault == NoFault && Tracked(Run(o, ins).subs, slot)
    ensures PhaseOf(slot.log) == match slot.state case Active => Flowing case Closed => Over case _ => Silent
    ensures slot.state == Closed <==> slot in Run(o, ins).subs.retired
  {
    RunKeeps(o, ins);
    var s := Run(o, ins);
    if slot !in s.subs.retired {
      var t :| t in s.subs.active && s.subs.active[t].slot == slot;
      assert EntryOk(s.subs.active[t]);
    }
  }

  /** In Dispatched mode, whatever else passes through the dispatcher and however slow its worker
      is, the user of every subscription of every run has been told the beginning of that story. */
  lemma DispatchedUsersSeeTheStory(o: Options, ins: seq<Input>, slot: Slot, acts: seq<Delivery.Act>)
    requires Run(o, ins).fault == NoFault && Tracked(Run(o, ins).subs, slot)
    requires Delivery.Raised(acts) == slot.log
    ensures Delivery.Seen(Delivery.Dispatched, acts) <= slot.log
    ensures PhaseOf(Delivery.Seen(Delivery.Dispatched, acts)) != Broken
  {
    StreamsAreWellFormed(o, ins, slot);
    Delivery.DispatchedInOrder(acts);
    Delivery.DispatchedIsWellFormed(acts);
  }

  /** Loss accounting over any number of reconnects: since the last opening without a gap count,
      the numbered frames handed over and the losses reported add up to the distance from the base
      position to the last one, and the frames are strictly in order, so none comes twice. */
  lemma LossesAreAccounted(o: Options, ins: seq<Input>, slot: Slot)
    requires Run(o, ins).fault == NoFault && Tracked(Run(o, ins).subs, slot)
    requires slot.semantics == Event && (slot.state == Active || slot.lastSeq > 0)
    ensures match EpochBase(slot.log)
            case Some(base) => base + |EpochSeqs(slot.log)| + EpochLost(slot.log) == slot.lastSeq
            case None => slot.lastSeq == 0 && EpochSeqs(slot.log) == [] && EpochLost(slot.log) == 0
    ensures Increasing(EpochSeqs(slot.log)) && UpTo(EpochSeqs(slot.log), slot.lastSeq)
  {
    RunKeeps(o, ins);
    var s := Run(o, ins);
    if slot !in s.subs.retired {
      var t :| t in s.subs.active && s.subs.active[t].slot == slot;
      assert EntryOk(s.subs.active[t]);
    }
  }

  /** The same against what the server promised: a loss after an opening stays unreported exactly
      when the promised number was 0 or 1 and the first numbered frame is beyond 1. */
  lemma LossesAgainstPromise(o: Options, ins: seq<Input>, slot: Slot)
    requires Run(o, ins).fault == NoFault && Tracked(Run(o, ins).subs, slot)
    requires slot.semantics == Event && slot.lastSeq > 0
    ensures var promised := if EpochPromise(slot.log) == 0 then 1 else EpochPromise(slot.log);
      promised - 1 + |EpochSeqs(slot.log)| + EpochLost(slot.log) + Unreported(slot.log) == slot.lastSeq
    ensures Unreported(slot.log) > 0
       <==> EpochPromise(slot.log) <= 1 && EpochSeqs(slot.log) != [] && EpochSeqs(slot.log)[0] > 1
  {
    LossesAreAccounted(o, ins, slot);
    AgainstPromise(slot.log, slot.lastSeq);
  }

  /** The race between frames and the acknowledgement is invisible to every subscription a run
      leaves pending, whatever it has buffered. */
  lemma RaceIsInvisible(o: Options, ins: seq<Input>, t: string, ps: seq<Push>, next: nat)
    requires Run(o, ins).fault == NoFault && t in Run(o, ins).subs.active
    requires Run(o, ins).subs.active[t].slot.state == Pending
    ensures var s := Run(o, ins).subs.active[t].slot;
      var kept := Kept(s.policy, s.cap, s.buffer + ps);
      var overtaken := Accept(PushAll(s, ps), next);
      overtaken == PushAll(Accept(s.(buffer := []), next), kept).(drops := overtaken.drops)
  {
    RunKeeps(o, ins);
    assert EntryOk(Run(o, ins).subs.active[t]);
    RaceInvisible(Run(o, ins).subs.active[t].slot, ps, next);
  }

  /** What a user has been told is never taken back. */
  lemma NotesAreKept(o: Options, ins: seq<Input>, k: nat, t: string)
    requires k <= |ins| && t in Run(o, ins[..k]).subs.active
    ensures GoesOn(Run(o, ins[..k]).subs.active[t].slot, t, Run(o, ins).subs)
  {
    RunOnward(o, ins, k);
  }

  // ------------------------------------------------------------------------------------------
  // The emergency stop.

  predicate AnsweredAt(o: Options, ins: seq<Input>, k: nat, rid: nat)
    requires k < |ins|
  {
    Confirms(Run(o, ins[..k]), ins[k], rid)
  }

  /** A request counts as confirmed only because some input of the run answered it with success. */
  lemma {:induction false} ConfirmedWasAnswered(o: Options, ins: seq<Input>, rid: nat) returns (k: nat)
    requires rid in Run(o, ins).wire.okd
    ensures k < |ins| && AnsweredAt(o, ins, k, rid)
  {
    var n := |ins| - 1;
    var before := Run(o, ins[..n]);
    StepRemembers(o, before, ins[n]);
    if rid in before.wire.okd {
      k := ConfirmedWasAnswered(o, ins[..n], rid);
      assert ins[..n][..k] == ins[..k];
    } else {
      k := n;
    }
  }

  /** Emergency-stop safety: in every run, whenever the connection is Ready and the last stop
      request acknowledged to a user was to engage it, an emergency_stop(true) went out on this
      very connection and was answered with success. A replay that failed, timed out or was never
      sent therefore never leads to Ready. */
  lemma StopIsRestored(o: Options, ins: seq<Input>) returns (rid: nat, k: nat)
    requires Run(o, ins).fault == NoFault && Run(o, ins).link.st == Ready && LastIntent(o, ins)
    ensures WasSent(Run(o, ins).wire, rid, EStopReq(true))
    ensures k < |ins| && AnsweredAt(o, ins, k, rid)
  {
    RunKeeps(o, ins);
    RunRemembers(o, ins);
    var w := Run(o, ins).wire;
    rid :| rid in w.okd && WasSent(w, rid, EStopReq(true));
    k := ConfirmedWasAnswered(o, ins, rid);
  }
}
