/** The control thread in place: the fields the handlers share and one method per handler, each
    shown to do to the fields what the function of the same name in Engine does to a State. */
module Robot {
  import opened Types
  import opened Stream
  import opened Engine
  import opened EngineInvariant
  import opened EngineKernel
  import opened EngineSteps
  import opened EngineSubscriptions
  import opened EngineMemory
  import Heartbeat

  /** Equal up to the first fault; after a fault nothing else is claimed. */
  predicate Same(a: State, b: State) {
    a.fault == b.fault && (a.fault == NoFault ==> a == b)
  }

  /** What the methods rely on between each other. */
  ghost predicate Calm(s: State) {
    && s.fault == NoFault && TableInv(s.table)
    && (HasReplay(s.table.rpcs) ==> s.link.st == Reconnecting)
    && 0 < s.wire.nextId
    && Below(s.table.rpcs, s.wire.nextId) && Below(s.subs.req, s.wire.nextId) && Below(s.subs.timers, s.wire.nextId)
  }

  // ------------------------------------------------------------------------------------------
  // Loops over the table of requests.

  /** The entries of rpcs already visited. */
  function Visited(rpcs: map<nat, Job>, done: set<nat>): map<nat, Job> {
    map rid | rid in rpcs && rid in done :: rpcs[rid]
  }

  /** The promises once the visited entries have been answered. */
  function Answers(t: Table, done: set<nat>, out: Outcome): seq<seq<Outcome>> {
    SettleAll(t.(rpcs := Visited(t.rpcs, done)), out).calls
  }

  lemma AnswersStep(t: Table, done: set<nat>, rid: nat, out: Outcome)
    requires TableInv(t) && rid in t.rpcs && rid !in done
    ensures var c := CallOf(t.rpcs[rid]);
      Answers(t, done + {rid}, out) == if c.Some? then Settle(Answers(t, done, out), c.value, out) else Answers(t, done, out)
  {
    var a, b := Visited(t.rpcs, done), Visited(t.rpcs, done + {rid});
    assert b == a[rid := t.rpcs[rid]];
    var c := CallOf(t.rpcs[rid]);
    forall d | d in OpenCalls(b) ensures d in OpenCalls(a) || c == Some(d) {
      var r :| r in b && CallOf(b[r]) == Some(d);
      if r != rid { assert r in a && a[r] == b[r]; }
    }
    forall d | d in OpenCalls(a) ensures d in OpenCalls(b) && c != Some(d) {
      var r :| r in a && CallOf(a[r]) == Some(d);
      assert r in b && b[r] == a[r] && r != rid;
    }
    if c.Some? { assert CallOf(b[rid]).value in OpenCalls(b); }
  }

  lemma AnswersEnds(t: Table, out: Outcome)
    ensures Answers(t, {}, out) == t.calls
    ensures Answers(t, t.rpcs.Keys, out) == SettleAll(t, out).calls
    ensures Visited(t.rpcs, {}) == map[] && Visited(t.rpcs, t.rpcs.Keys) == t.rpcs
  {
    assert Visited(t.rpcs, {}) == map[];
    assert Visited(t.rpcs, t.rpcs.Keys) == t.rpcs;
    assert OpenCalls(map[]) == {};
  }

  lemma VisitedStep(rpcs: map<nat, Job>, done: set<nat>, rid: nat)
    requires rid in rpcs
    ensures HasReplay(Visited(rpcs, done + {rid})) <==> HasReplay(Visited(rpcs, done)) || rpcs[rid] == Replay
  {
    var a, b := Visited(rpcs, done), Visited(rpcs, done + {rid});
    if HasReplay(a) {
      var r :| r in a && a[r] == Replay;
      assert b[r] == Replay;
    }
    if rpcs[rid] == Replay { assert b[rid] == Replay; }
    if HasReplay(b) {
      var r :| r in b && b[r] == Replay;
      if r != rid { assert a[r] == Replay; }
    }
  }

  /** The state in which the loop has visited the entries of done. */
  ghost function Failed(s: State, done: set<nat>, out: Outcome): State {
    s.(table := s.table.(calls := Answers(s.table, done, out)),
       barrier := if HasReplay(Visited(s.table.rpcs, done)) then s.barrier.(estop := false) else s.barrier)
  }

  function FailedAll(s: State, out: Outcome): State {
    s.(table := s.table.(calls := SettleAll(s.table, out).calls),
       barrier := if HasReplay(s.table.rpcs) then s.barrier.(estop := false) else s.barrier)
  }

  lemma FailedEnds(s: State, out: Outcome)
    ensures Failed(s, {}, out) == s && Failed(s, s.table.rpcs.Keys, out) == FailedAll(s, out)
    ensures HasReplay(Visited(s.table.rpcs, s.table.rpcs.Keys)) <==> HasReplay(s.table.rpcs)
    ensures !HasReplay(Visited(s.table.rpcs, {}))
  {
    AnswersEnds(s.table, out);
  }

  /** The loop has visited done and goes on: no replay so far, or none that could recurse. */
  ghost predicate Underway(before: State, now: State, done: set<nat>, out: Outcome) {
    && now.fault == NoFault && now.link.st == before.link.st && now.table.rpcs == before.table.rpcs
    && (if Returns(before) then now == Failed(before, done, out) else !HasReplay(Visited(before.table.rpcs, done)))
  }

  /** The subscriptions once all but those of todo have been paused. */
  predicate PausedBut(active: map<string, Entry>, now: map<string, Entry>, todo: set<string>, reason: ErrorCode) {
    && todo <= active.Keys == now.Keys
    && forall t :: t in now ==>
         now[t] == if t in todo then active[t] else active[t].(slot := Pause(active[t].slot, reason))
  }

  /** The closed records of all subscriptions but those of todo. */
  function Gone(active: map<string, Entry>, todo: set<string>, code: ErrorCode): set<Slot> {
    set t | t in active && t !in todo :: Shut(active[t].slot, code, code)
  }

  lemma GoneStep(active: map<string, Entry>, todo: set<string>, code: ErrorCode)
    ensures Gone(active, active.Keys, code) == {}
    ensures forall t :: t in active && t !in todo ==>
      Gone(active, todo, code) == Gone(active, todo + {t}, code) + {Shut(active[t].slot, code, code)}
  {
  }

  /** Failing every request comes to an end. */
  predicate Returns(s: State) {
    Terminal(s.link.st) || !HasReplay(s.table.rpcs)
  }

  /** Request rid is the outstanding subscribe of some subscription. */
  predicate Awaited(m: Subs, rid: nat) {
    rid in m.req && m.req[rid] in m.active && m.active[m.req[rid]].slot.inflight == rid
  }

  lemma InvIsCalm(o: Options, s: State, rid: nat)
    requires Inv(o, s) && s.fault == NoFault
    ensures Calm(s) && (Terminal(s.link.st) || s.link.st == Idle ==> s.table.rpcs == map[])
    ensures Awaited(s.subs, rid) ==> !Terminal(s.link.st)
  {
    if Awaited(s.subs, rid) { assert Fits(s.link, s.wire, s.subs.active[s.subs.req[rid]]); }
  }

  /** Outside Ready the answered entry was the only one. */
  lemma TakenIsCalm(o: Options, s: State, resp: Response)
    requires Inv(o, s) && s.fault == NoFault && resp.requestId in s.table.rpcs
    ensures var j := s.table.rpcs[resp.requestId];
      j.Handshake? || j.Replay? ==>
        Calm(Taken(s, resp)) && Taken(s, resp).table.rpcs == map[] && !Terminal(s.link.st)
  {
    var j := s.table.rpcs[resp.requestId];
    if j.Handshake? || j.Replay? {
      SilentEntry(s.table, resp.requestId);
      assert s.table.rpcs - {resp.requestId} == map[];
    }
  }

  /** The timeout of a replay, before the transport is closed. */
  lemma ReplayTimesOut(o: Options, s: State, rid: nat)
    requires Inv(o, s) && s.fault == NoFault && rid in s.table.rpcs && s.table.rpcs[rid] == Replay
    ensures var s1 := s.(table := s.table.(rpcs := s.table.rpcs - {rid}), barrier := s.barrier.(estop := false));
      Calm(s1) && Engine.OnRpcTimeout(o, s, rid) == Engine.OnTransportClose(o, s1, Timeout)
  {
    TakenIsCalm(o, s, Response(rid, false, Timeout, false, false, Ok, false, false, NoReason, 0));
  }

  lemma AbortCalm(s: State, code: ErrorCode)
    requires Calm(s)
    ensures var r := Engine.AbortToFatal(s, code); r.fault == NoFault ==> Calm(r)
  {
    SettleAllKeeps(s.table, Outcome(false, code));
  }

  lemma TearDownCalm(s: State, reason: ErrorCode)
    requires Calm(s)
    ensures Calm(Engine.TearDown(s, reason))
  {
    SettleAllKeeps(s.table, Outcome(false, reason));
  }

  lemma ReconnectCalm(o: Options, s: State, next: nat)
    requires Calm(s) && next >= 1
    ensures var r := Engine.DoReconnect(o, s, next); r.fault == NoFault ==> Calm(r)
  {
    AbortCalm(s, TransportFailure);
  }

  lemma CloseCalm(o: Options, s: State, reason: ErrorCode)
    requires Calm(s)
    ensures var r := Engine.OnTransportClose(o, s, reason); r.fault == NoFault ==> Calm(r)
  {
    TearDownCalm(s, reason);
    ReconnectCalm(o, Engine.TearDown(s, reason), s.link.attempt + 1);
  }

  lemma SendCalm(o: Options, s: State, t: string, since: nat, accepts: nat -> bool)
    requires Calm(s) && t in s.subs.active
    ensures var r := Engine.SendSubscribe(o, s, t, since, accepts); r.fault == NoFault ==> Calm(r)
  {
    if !Takes(s.wire, accepts) {
      CloseCalm(o, Unsendable(s, t, since), TransportFailure);
    }
  }

  lemma WalkUnfolds(o: Options, s: State, order: seq<string>, i: nat, accepts: nat -> bool)
    requires i < |order| && s.fault == NoFault && order[i] in s.subs.active
    ensures Engine.Resubscribe(o, s, order[i..], accepts)
         == Engine.Resubscribe(o, Trampled(Engine.ResubscribeOne(o, s, order[i], accepts)), order[i + 1..], accepts)
  {
    assert order[i..][0] == order[i] && order[i..][1..] == order[i + 1..];
  }

  lemma WaitingUnfolds(o: Options, s: State, order: seq<string>, i: nat, accepts: nat -> bool)
    requires i < |order| && s.fault == NoFault && order[i] in s.subs.active
    ensures Engine.SubscribeWaiting(o, s, order[i..], accepts)
         == Engine.SubscribeWaiting(o, Trampled(SubscribeOne(o, s, order[i], accepts)), order[i + 1..], accepts)
  {
    assert order[i..][0] == order[i] && order[i..][1..] == order[i + 1..];
  }

  class RobotImpl {
    const opts: Options
    /** How many more nested callbacks the stack has room for. */
    const stackRoom: nat

    var state: ConnectionState
    var attempt: nat
    var total: nat
    var retryTimer: Option<nat>
    var wsUp: bool
    var conn: nat
    var greeted: bool
    var nextId: nat
    var inflightRpc: map<nat, Job>
    var promises: seq<seq<Outcome>>
    var activeSubs: map<string, Entry>
    var inflightSub: map<nat, string>
    var ackTimers: map<nat, string>
    var heartbeat: Heartbeat.Hb
    var engaged: bool
    var subsPending: nat
    var estopPending: bool
    var clock: int
    var fault: Fault
    ghost var trace: seq<ConnectionState>
    ghost var sent: map<nat, Sent>
    ghost var okd: set<nat>
    ghost var retired: set<Slot>
    ghost var abandoned: nat

    ghost function View(): State
      reads this
    {
      State(Link(state, trace, attempt, total, retryTimer),
            Wire(wsUp, conn, greeted, nextId, sent, okd),
            Table(inflightRpc, promises),
            Subs(activeSubs, inflightSub, ackTimers, retired),
            Barrier(subsPending, estopPending, abandoned),
            engaged, heartbeat, clock, fault)
    }

    constructor (opts: Options, stackRoom: nat)
      ensures View() == Initial() && this.opts == opts
    {
      this.opts, this.stackRoom := opts, stackRoom;
      state, attempt, total, retryTimer := Idle, 0, 0, None;
      wsUp, conn, greeted, nextId := false, 0, false, 1;
      inflightRpc, promises, activeSubs, inflightSub, ackTimers := map[], [], map[], map[], map[];
      heartbeat, engaged, subsPending, estopPending := Heartbeat.Stopped(), false, 0, false;
      clock, fault := 0, NoFault;
      trace, sent, okd, retired, abandoned := [Idle], map[], {}, {}, 0;
    }

    method TransitionTo(c: ConnectionState)
      modifies this`state, this`trace
      ensures View() == old(View()).(link := Enter(old(View()).link, c))
    {
      if state != c {
        state := c;
        trace := trace + [c];
      }
    }

    method SetPromise(c: nat, out: Outcome)
      modifies this`promises
      ensures View() == Engine.SettleCall(old(View()), c, out)
    {
      if c < |promises| {
        promises := promises[c := promises[c] + [out]];
      }
    }

    // ----------------------------------------------------------------------------------------
    // Connection loss, retry and the end of the session.

    /** The completion callback of a request, called with an error. A replay closes the transport
        from here; as its entry is still in the table, that close calls it back again. */
    method CallBack(job: Job, code: ErrorCode, stack: nat)
      requires fault == NoFault && (job == Replay ==> HasReplay(inflightRpc))
      modifies this
      ensures job == Replay && !Terminal(old(state)) ==> fault == StackOverflow
      ensures job == Replay && Terminal(old(state)) ==> View() == old(View()).(barrier := old(View()).barrier.(estop := false))
      ensures job != Replay ==>
        View() == if CallOf(job).Some? then Engine.SettleCall(old(View()), CallOf(job).value, Outcome(false, code)) else old(View())
      decreases stack, 0
    {
      match job {
        case User(c, _) => SetPromise(c, Outcome(false, code));
        case Unsub(c, _) => SetPromise(c, Outcome(false, code));
        case Replay =>
          estopPending := false;
          if stack > 0 {
            OnTransportClose(code, stack - 1);
          } else if !Terminal(state) {
            fault := StackOverflow;
          }
        case _ =>
      }
    }

    /** One turn of the loop over the table. */
    method FailOne(rid: nat, code: ErrorCode, stack: nat, ghost before: State, ghost done: set<nat>)
      requires Underway(before, View(), done, Outcome(false, code)) && rid in inflightRpc && rid !in done
      requires Returns(before) ==> TableInv(before.table)
      modifies this
      ensures fault == NoFault ==> Underway(before, View(), done + {rid}, Outcome(false, code))
      ensures fault != NoFault ==> fault == StackOverflow && !Returns(before)
      decreases stack, 1
    {
      VisitedStep(before.table.rpcs, done, rid);
      if Returns(before) { AnswersStep(before.table, done, rid, Outcome(false, code)); }
      CallBack(inflightRpc[rid], code, stack);
    }

    /** Calls back every request in flight. The entries stay in the table; the caller clears it. */
    method FailAll(code: ErrorCode, stack: nat)
      requires fault == NoFault && (Returns(View()) ==> TableInv(View().table))
      modifies this
      ensures !Returns(old(View())) ==> fault == StackOverflow
      ensures Returns(old(View())) ==> View() == FailedAll(old(View()), Outcome(false, code))
      decreases stack, 2
    {
      ghost var before, out := View(), Outcome(false, code);
      var all, todo := inflightRpc.Keys, inflightRpc.Keys;
      FailedEnds(before, out);
      assert all - todo == {};
      while todo != {}
        invariant todo <= all == inflightRpc.Keys
        invariant Underway(before, View(), all - todo, out)
        decreases |todo|
      {
        var rid :| rid in todo;
        FailOne(rid, code, stack, before, all - todo);
        if fault != NoFault { return; }
        assert all - todo + {rid} == all - (todo - {rid});
        todo := todo - {rid};
      }
      assert all - todo == all;
    }

    method CloseSlots(code: ErrorCode)
      modifies this`retired
      ensures retired == old(retired) + Gone(activeSubs, {}, code)
    {
      var todo := activeSubs.Keys;
      GoneStep(activeSubs, todo, code);
      while todo != {}
        invariant todo <= activeSubs.Keys
        invariant retired == old(retired) + Gone(activeSubs, todo, code)
        decreases |todo|
      {
        var t :| t in todo;
        todo := todo - {t};
        retired := retired + {Shut(activeSubs[t].slot, code, code)};
        GoneStep(activeSubs, todo, code);
      }
    }

    method CloseSubscriptions(code: ErrorCode)
      modifies this`retired, this`activeSubs
      ensures View() == old(View()).(subs := ShutAll(old(View()).subs, code).(timers := old(ackTimers)))
    {
      CloseSlots(code);
      assert Gone(activeSubs, {}, code) == set t | t in activeSubs :: Shut(activeSubs[t].slot, code, code);
      activeSubs := map[];
    }

    /** Every subscription is closed and every request called back; neither table is cleared. */
    method FailSession(code: ErrorCode, stack: nat)
      requires Calm(View()) && !Terminal(state)
      modifies this
      ensures !Returns(old(View())) ==> fault == StackOverflow
      ensures var closed := ShutAll(old(View()).subs, code).(timers := old(ackTimers));
        Returns(old(View())) ==> View() == FailedAll(old(View()).(subs := closed), Outcome(false, code))
      decreases stack, 3
    {
      CloseSubscriptions(code);
      FailAll(code, stack);
    }

    method AbortToFatal(code: ErrorCode, stack: nat)
      requires Calm(View()) && !Terminal(state)
      modifies this
      ensures Same(View(), Engine.AbortToFatal(old(View()), code))
      ensures fault == NoFault ==> Calm(View())
      decreases stack, 4
    {
      ghost var before := View();
      FailSession(code, stack);
      if fault != NoFault { return; }
      StopEverything();
      EnterFatal();
      AbortCalm(before, code);
    }

    method EnterFatal()
      modifies this`inflightSub, this`retryTimer, this`state, this`trace
      ensures View() == old(View()).(
        subs := old(View()).subs.(req := map[]), link := Enter(old(View()).link.(retry := None), Fatal))
    {
      inflightSub := map[];
      retryTimer := None;
      TransitionTo(Fatal);
    }

    /** No request, no timer and no socket is left. */
    method StopEverything()
      modifies this`inflightRpc, this`ackTimers, this`heartbeat, this`wsUp
      ensures View() == old(View()).(
        table := old(View()).table.(rpcs := map[]), subs := old(View()).subs.(timers := map[]),
        hb := Heartbeat.Halt(old(heartbeat)), wire := old(View()).wire.(up := false))
    {
      inflightRpc := map[];
      ackTimers := map[];
      heartbeat := Heartbeat.Halt(heartbeat);
      wsUp := false;
    }

    method DoReconnect(next: nat, stack: nat)
      requires Calm(View()) && next >= 1
      modifies this
      ensures Same(View(), Engine.DoReconnect(opts, old(View()), next))
      ensures fault == NoFault ==> Calm(View())
      decreases stack, 5
    {
      if state == Fatal || state == Shutdown { return; }
      if opts.maxAttempts >= 0 && next > opts.maxAttempts {
        AbortToFatal(TransportFailure, stack);
        return;
      }
      attempt := next - 1;
      retryTimer := Some(next);
    }

    method PauseSlots(reason: ErrorCode)
      modifies this`activeSubs
      ensures activeSubs == old(map t | t in activeSubs :: activeSubs[t].(slot := Pause(activeSubs[t].slot, reason)))
    {
      var todo := activeSubs.Keys;
      while todo != {}
        invariant PausedBut(old(activeSubs), activeSubs, todo, reason)
        decreases |todo|
      {
        var t :| t in todo;
        todo := todo - {t};
        activeSubs := activeSubs[t := activeSubs[t].(slot := Pause(activeSubs[t].slot, reason))];
      }
    }

    method PauseSubscriptions(reason: ErrorCode)
      modifies this`activeSubs
      ensures View() == old(View()).(subs := PauseAll(old(View()).subs, reason).(timers := old(ackTimers)))
    {
      PauseSlots(reason);
    }

    /** Everything that hung on the connection is paused, failed or stopped. */
    method TearDown(reason: ErrorCode, stack: nat)
      requires fault == NoFault && (Returns(View()) ==> Calm(View())) && !Terminal(state)
      modifies this
      ensures !Returns(old(View())) ==> fault == StackOverflow
      ensures Returns(old(View())) ==> View() == Engine.TearDown(old(View()), reason) && Calm(View())
      decreases stack, 3
    {
      ghost var before := View();
      PauseSubscriptions(reason);
      FailAll(reason, stack);
      if fault != NoFault { return; }
      StopEverything();
      heartbeat := heartbeat.(missCount := 0);
      TransitionTo(TransientFailure);
      TearDownCalm(before, reason);
    }

    method OnTransportClose(reason: ErrorCode, stack: nat)
      requires fault == NoFault && (Returns(View()) && !Terminal(state) ==> Calm(View()))
      modifies this
      ensures Same(View(), Engine.OnTransportClose(opts, old(View()), reason))
      ensures Calm(old(View())) && fault == NoFault ==> Calm(View())
      decreases stack, 6
    {
      if state == Shutdown || state == Fatal { return; }
      TearDown(reason, stack);
      if fault != NoFault { return; }
      DoReconnect(attempt + 1, stack);
    }

    /** A connection that failed before it was ready: the socket is dropped and a retry armed. */
    method GiveUpConnection()
      requires Calm(View()) && !HasReplay(inflightRpc)
      modifies this
      ensures Same(View(), Engine.GiveUpConnection(opts, old(View())))
    {
      TransitionTo(TransientFailure);
      wsUp := false;
      DoReconnect(attempt + 1, stackRoom);
    }

    method FailConnection(code: ErrorCode)
      requires Calm(View()) && !HasReplay(inflightRpc) && !Terminal(state)
      modifies this
      ensures Same(View(), Engine.FailConnection(opts, old(View()), code))
    {
      if Classify(code) == FatalCategory {
        AbortToFatal(code, stackRoom);
      } else {
        GiveUpConnection();
      }
    }

    /** The next request number, and whether the socket takes the request. */
    method SendOrFail(what: Request, accepts: nat -> bool) returns (taken: bool)
      modifies this`nextId, this`sent
      ensures taken == Takes(old(View()).wire, accepts)
      ensures View() == old(View()).(wire := Take(old(View()).wire, taken, what))
    {
      taken := wsUp && accepts(nextId);
      if taken { sent := sent[nextId := Sent(conn, what)]; }
      nextId := nextId + 1;
    }

    method OpenSocket()
      modifies this`wsUp, this`conn, this`greeted
      ensures View() == old(View()).(wire := NewSocket(old(View()).wire))
    {
      wsUp, conn, greeted := true, conn + 1, false;
    }

    /** The handshake could not be encoded. */
    method FailEncoding(code: ErrorCode)
      requires Calm(View()) && !HasReplay(inflightRpc) && !Terminal(state)
      modifies this
      ensures Same(View(), Engine.AbortToFatal(old(View()).(wire := Take(old(View()).wire, false, HandshakeReq)), code))
    {
      nextId := nextId + 1;
      AbortToFatal(code, stackRoom);
    }

    method EstablishConnection(reconnect: bool, dial: Dial, accepts: nat -> bool)
      requires Calm(View()) && !HasReplay(inflightRpc) && !Terminal(state)
      modifies this
      ensures Same(View(), Engine.EstablishConnection(opts, old(View()), reconnect, dial, accepts))
    {
      if !reconnect { TransitionTo(Connecting); }
      match dial {
        case Refused(code) => FailConnection(code);
        case EncodeThrows(code) =>
          OpenSocket();
          FailEncoding(code);
        case Up =>
          OpenSocket();
          SendHandshake(reconnect, accepts);
      }
    }

    method SendHandshake(reconnect: bool, accepts: nat -> bool)
      requires Calm(View()) && !HasReplay(inflightRpc) && !Terminal(state)
      modifies this
      ensures Same(View(), Engine.SendHandshake(opts, old(View()), reconnect, accepts))
    {
      var taken := SendRpc(Handshake(reconnect), HandshakeReq, accepts);
      if !taken { GiveUpConnection(); }
    }

    // ----------------------------------------------------------------------------------------
    // Subscriptions.

    method UpdateSlot(t: string, slot: Slot)
      requires t in activeSubs
      modifies this`activeSubs
      ensures View() == old(View()).(subs := WithSlot(old(View()).subs, t, slot))
    {
      activeSubs := activeSubs[t := activeSubs[t].(slot := slot)];
    }

    /** The slot, the request number and its acknowledgement timer of a subscribe about to be sent. */
    method ArmSubscribe(t: string, slot: Slot)
      requires t in activeSubs
      modifies this`activeSubs, this`inflightSub, this`ackTimers
      ensures View() == old(View()).(subs := WithSlot(old(View()).subs, t, slot).(
        req := old(inflightSub)[nextId := t], timers := old(ackTimers)[nextId := t]))
    {
      UpdateSlot(t, slot);
      inflightSub := inflightSub[nextId := t];
      ackTimers := ackTimers[nextId := t];
    }

    method DisarmSubscribe(t: string, rid: nat, ghost before: Subs)
      requires t in activeSubs && rid !in before.req && rid !in before.timers
      requires inflightSub == before.req[rid := t] && ackTimers == before.timers[rid := t]
      modifies this`activeSubs, this`inflightSub, this`ackTimers
      ensures View() == old(View()).(subs := WithSlot(old(View()).subs, t, old(activeSubs[t].slot).(inflight := 0)).(
        req := before.req, timers := before.timers))
    {
      ackTimers := ackTimers - {rid};
      inflightSub := inflightSub - {rid};
      assert ackTimers == before.timers && inflightSub == before.req;
      UpdateSlot(t, activeSubs[t].slot.(inflight := 0));
    }

    method SendSubscribe(t: string, since: nat, accepts: nat -> bool)
      requires Calm(View()) && t in activeSubs
      modifies this
      ensures Same(View(), Engine.SendSubscribe(opts, old(View()), t, since, accepts))
      ensures fault == NoFault ==> Calm(View())
    {
      ghost var before := View();
      var rid, e := nextId, activeSubs[t];
      var slot := BeginSubscribe(e.slot, since, rid, state == Reconnecting);
      ArmSubscribe(t, slot);
      var taken := SendOrFail(SubscribeReq(t, slot.expected), accepts);
      if taken {
        activeSubs := activeSubs[t := Entry(slot, e.barrier, conn, if e.sentOn == conn then e.sends + 1 else 1)];
        assert activeSubs == before.subs.active[t := activeSubs[t]];
      } else {
        DisarmSubscribe(t, rid, before.subs);
        assert View() == Unsendable(before, t, since);
        OnTransportClose(TransportFailure, stackRoom);
      }
      SendCalm(opts, before, t, since, accepts);
    }

    /** Clearing the table under a walk leaves the walk with a dangling iterator. */
    method CheckWalk()
      requires fault == NoFault
      modifies this`fault
      ensures View() == Trampled(old(View()))
    {
      if state == Fatal { fault := DanglingIterator; }
    }

    method ResubscribeAllAfterReconnect(order: seq<string>, accepts: nat -> bool)
      requires Calm(View())
      modifies this
      ensures Same(View(), Engine.Resubscribe(opts, old(View()), order, accepts))
      ensures fault == NoFault ==> Calm(View())
    {
      ghost var whole := Engine.Resubscribe(opts, View(), order, accepts);
      var i := 0;
      assert order[0..] == order;
      while i < |order|
        invariant 0 <= i <= |order| && (fault == NoFault ==> Calm(View()))
        invariant Same(Engine.Resubscribe(opts, View(), order[i..], accepts), whole)
      {
        if fault != NoFault || order[i] !in activeSubs { return; }
        WalkUnfolds(opts, View(), order, i, accepts);
        ResubscribeNext(order[i], accepts);
        i := i + 1;
      }
    }

    /** One turn of the walk. */
    method ResubscribeNext(t: string, accepts: nat -> bool)
      requires Calm(View()) && t in activeSubs
      modifies this
      ensures Same(View(), Trampled(Engine.ResubscribeOne(opts, old(View()), t, accepts)))
      ensures fault == NoFault ==> Calm(View())
    {
      ResubscribeOne(t, accepts);
      if fault == NoFault { CheckWalk(); }
    }

    method ResubscribeOne(t: string, accepts: nat -> bool)
      requires Calm(View()) && t in activeSubs
      modifies this
      ensures Same(View(), Engine.ResubscribeOne(opts, old(View()), t, accepts))
      ensures fault == NoFault ==> Calm(View())
    {
      var e := activeSubs[t];
      activeSubs := activeSubs[t := e.(slot := e.slot.(retried := false), barrier := true)];
      var since := 0;
      if e.slot.semantics == Event && opts.replayHistory && e.slot.lastSeq > 0 {
        since := e.slot.lastSeq + 1;
      }
      SendSubscribe(t, since, accepts);
    }

    method SubscribeWaiting(order: seq<string>, accepts: nat -> bool)
      requires Calm(View())
      modifies this
      ensures Same(View(), Engine.SubscribeWaiting(opts, old(View()), order, accepts))
    {
      ghost var whole := Engine.SubscribeWaiting(opts, View(), order, accepts);
      var i := 0;
      assert order[0..] == order;
      while i < |order|
        invariant 0 <= i <= |order| && (fault == NoFault ==> Calm(View()))
        invariant Same(Engine.SubscribeWaiting(opts, View(), order[i..], accepts), whole)
      {
        if fault != NoFault || order[i] !in activeSubs { return; }
        WaitingUnfolds(opts, View(), order, i, accepts);
        SubscribeNext(order[i], accepts);
        i := i + 1;
      }
    }

    /** One turn of the walk: a subscription made before the first Ready is sent. */
    method SubscribeNext(t: string, accepts: nat -> bool)
      requires Calm(View()) && t in activeSubs
      modifies this
      ensures Same(View(), Trampled(SubscribeOne(opts, old(View()), t, accepts)))
      ensures fault == NoFault ==> Calm(View())
    {
      if activeSubs[t].slot.state == Pending && activeSubs[t].slot.inflight == 0 {
        SendSubscribe(t, 0, accepts);
      }
      if fault == NoFault { CheckWalk(); }
    }

    method EnterReady()
      modifies this`state, this`trace, this`attempt, this`total
      ensures View() == Engine.EnterReady(old(View()))
    {
      attempt := 0;
      total := total + 1;
      TransitionTo(Ready);
    }

    /** One subscription of the barrier is done with. */
    method FinishOne()
      modifies this
      ensures View() == Engine.FinishOne(old(View()))
    {
      if state == Reconnecting && subsPending > 0 {
        subsPending := subsPending - 1;
        if subsPending == 0 && !estopPending {
          EnterReady();
        }
      }
    }

    /** Closes one subscription and takes it out of the table. */
    method RetireSlot(t: string, error: ErrorCode, reason: ErrorCode)
      requires t in activeSubs
      modifies this`activeSubs, this`retired
      ensures View() == old(View()).(subs := Retire(old(View()).subs, t, error, reason))
    {
      retired := retired + {Shut(activeSubs[t].slot, error, reason)};
      activeSubs := activeSubs - {t};
    }

    method HandleSubscribeAck(resp: Response, accepts: nat -> bool)
      requires Calm(View())
      requires Awaited(View().subs, resp.requestId) ==> !Terminal(state)
      modifies this
      ensures Same(View(), Engine.HandleSubscribeAck(opts, old(View()), resp, accepts))
    {
      if resp.requestId !in inflightSub { return; }
      var rid, t := resp.requestId, inflightSub[resp.requestId];
      if t !in activeSubs || activeSubs[t].slot.inflight != rid {
        inflightSub := inflightSub - {rid};
        ackTimers := ackTimers - {rid};
        return;
      }
      MatchAck(rid);
      if !resp.success {
        AckFailed(t, resp.code);
      } else if resp.accepted {
        AckAccepted(t, resp.nextSeq);
      } else {
        AckRejected(t, resp.reject, accepts);
      }
    }

    method MatchAck(rid: nat)
      requires Calm(View()) && rid in inflightSub && inflightSub[rid] in activeSubs
      modifies this`inflightSub, this`ackTimers, this`activeSubs
      ensures View() == Matched(old(View()), rid) && Calm(View())
    {
      var t := inflightSub[rid];
      inflightSub := inflightSub - {rid};
      ackTimers := ackTimers - {rid};
      UpdateSlot(t, activeSubs[t].slot.(inflight := 0));
    }

    method RetireAndFinish(t: string, code: ErrorCode)
      requires t in activeSubs
      modifies this
      ensures View() == Engine.FinishOne(old(View()).(subs := Retire(old(View()).subs, t, code, code)))
    {
      RetireSlot(t, code, code);
      FinishOne();
    }

    method AckFailed(t: string, code: ErrorCode)
      requires Calm(View()) && t in activeSubs && !Terminal(state)
      modifies this
      ensures Same(View(), Engine.AckFailed(opts, old(View()), t, code))
    {
      if Classify(code) == FatalCategory {
        AbortToFatal(code, stackRoom);
      } else if Classify(code) == Transient {
        if state == Reconnecting {
          OnTransportClose(code, stackRoom);
        } else {
          RetireSlot(t, code, code);
        }
      } else {
        RetireAndFinish(t, code);
      }
    }

    method AckAccepted(t: string, next: nat)
      requires t in activeSubs
      modifies this
      ensures View() == Engine.AckAccepted(old(View()), t, next)
    {
      UpdateSlot(t, Accept(activeSubs[t].slot, next));
      FinishOne();
    }

    method AckRejected(t: string, reject: RejectReason, accepts: nat -> bool)
      requires Calm(View()) && t in activeSubs
      modifies this
      ensures Same(View(), Engine.AckRejected(opts, old(View()), t, reject, accepts))
    {
      var slot := activeSubs[t].slot;
      if slot.semantics == Event && (reject == HistoryTooOld || reject == ReplayNotSupported) {
        if slot.retried {
          RetireAndFinish(t, InternalError);
        } else {
          UpdateSlot(t, Fallback(slot));
          SendSubscribe(t, 0, accepts);
        }
      } else {
        RetireAndFinish(t, RejectToError(reject));
      }
    }

    // ----------------------------------------------------------------------------------------
    // User calls.

    method SubscribeInternal(t: string, semantics: Semantics, userClosed: bool, accepts: nat -> bool)
      requires Calm(View())
      modifies this
      ensures Same(View(), Engine.OnSubscribe(opts, old(View()), t, semantics, userClosed, accepts))
    {
      var slot := NewSlot(semantics, opts.policy, opts.queueSize);
      if userClosed { return; }
      if t in activeSubs {
        retired := retired + {Shut(slot, TopicAlreadySubscribed, TopicAlreadySubscribed)};
        return;
      }
      activeSubs := activeSubs[t := Entry(slot, false, 0, 0)];
      if state == Ready {
        SendSubscribe(t, 0, accepts);
      }
    }

    /** Bookkeeping of the model only: a subscription leaves the barrier with its subscribe open. */
    ghost method NoteAbandoned(t: string)
      requires t in activeSubs
      modifies this`abandoned
      ensures View() == old(View()).(barrier := Abandon(old(View()), t))
    {
      if state == Reconnecting && greeted && activeSubs[t].slot.inflight != 0 {
        abandoned := abandoned + 1;
      }
    }

    method UnsubscribeAsync(t: string, open: bool, accepts: nat -> bool)
      modifies this
      ensures View() == Engine.OnUnsubscribeAsync(old(View()), t, open, accepts)
    {
      if t !in activeSubs { return; }
      var slot := activeSubs[t].slot;
      NoteAbandoned(t);
      if state == Ready && wsUp && open && !slot.unsubSent {
        var _ := SendOrFail(UnsubscribeReq(t), accepts);
      }
      RetireSlot(t, slot.error, Ok);
    }

    method NewPromise() returns (c: nat)
      modifies this`promises
      ensures c == old(|promises|) && View() == Engine.NewCall(old(View()))
    {
      c := |promises|;
      promises := promises + [[]];
    }

    method UnsubscribeSync(t: string, open: bool, accepts: nat -> bool)
      requires Calm(View())
      modifies this
      ensures View() == Engine.OnUnsubscribeSync(old(View()), t, open, accepts)
    {
      var c := NewPromise();
      if t !in activeSubs {
        SetPromise(c, Outcome(true, Ok));
        return;
      }
      if state != Ready || !wsUp || !open {
        NoteAbandoned(t);
        RetireSlot(t, Disconnected, Disconnected);
        SetPromise(c, Outcome(false, Disconnected));
        return;
      }
      var taken := SendRpc(Unsub(c, t), UnsubscribeReq(t), accepts);
      if taken {
        UpdateSlot(t, activeSubs[t].slot.(unsubSent := true));
      } else {
        SetPromise(c, Outcome(false, TransportFailure));
      }
    }

    /** Enters a request in the table and sends it; a refused request leaves the table again. */
    method SendRpc(job: Job, what: Request, accepts: nat -> bool) returns (taken: bool)
      requires nextId !in inflightRpc
      modifies this`inflightRpc, this`nextId, this`sent
      ensures taken == Takes(old(View()).wire, accepts)
      ensures View() == old(View()).(
        wire := Take(old(View()).wire, taken, what),
        table := if taken then old(View()).table.(rpcs := old(inflightRpc)[old(nextId) := job]) else old(View()).table)
    {
      var rid := nextId;
      inflightRpc := inflightRpc[rid := job];
      taken := SendOrFail(what, accepts);
      if !taken {
        inflightRpc := inflightRpc - {rid};
        assert inflightRpc == old(inflightRpc);
      }
    }

    /** The posted half of CmdVel, EmergencyStop, InvokeRpc and Ping. */
    method Call(op: Op, accepts: nat -> bool)
      requires Calm(View())
      modifies this
      ensures View() == Engine.OnCall(old(View()), op, accepts)
    {
      var c := NewPromise();
      if state != Ready || !wsUp {
        SetPromise(c, Outcome(false, Disconnected));
        return;
      }
      var taken := SendRpc(User(c, op), RequestOf(op), accepts);
      if !taken {
        SetPromise(c, Outcome(false, TransportFailure));
      }
    }

    method Close()
      requires Calm(View())
      modifies this
      ensures View() == Engine.OnClose(old(View()))
    {
      TransitionTo(Shutdown);
      retryTimer := None;
      FailAll(Cancelled, stackRoom);
      CloseSubscriptions(Cancelled);
      StopEverything();
    }

    // ----------------------------------------------------------------------------------------
    // Responses.

    method DoEStopReplay(accepts: nat -> bool)
      requires Calm(View())
      modifies this
      ensures Same(View(), Engine.DoEStopReplay(opts, old(View()), accepts))
    {
      var taken := SendRpc(Replay, EStopReq(true), accepts);
      if !taken {
        estopPending := false;
        OnTransportClose(TransportFailure, stackRoom);
      }
    }

    method StartHeartbeat()
      modifies this`heartbeat
      ensures View() == old(View()).(hb := Heartbeat.Start(opts.heartbeat, old(heartbeat), clock))
    {
      heartbeat := Heartbeat.Hb(clock, 0, None, heartbeat.idle);
      if opts.heartbeat.interval > 0 {
        heartbeat := heartbeat.(idle := Some(clock + opts.heartbeat.interval));
      }
    }

    method OpenBarrier()
      modifies this`subsPending, this`estopPending, this`abandoned
      ensures View() == old(View()).(barrier := Barrier(|activeSubs|, engaged, 0))
    {
      subsPending, estopPending, abandoned := |activeSubs|, engaged, 0;
    }

    /** After a reconnect handshake: everything is resubscribed and an engaged stop replayed. */
    method Restore(accepts: nat -> bool, order: seq<string>)
      requires Calm(View())
      modifies this
      ensures Same(View(), Engine.Restore(opts, old(View()), accepts, order))
    {
      OpenBarrier();
      if subsPending == 0 && !estopPending {
        EnterReady();
      } else {
        RestoreAll(accepts, order);
      }
    }

    method RestoreAll(accepts: nat -> bool, order: seq<string>)
      requires Calm(View())
      modifies this
      ensures var s := Engine.Resubscribe(opts, old(View()), order, accepts);
        Same(View(), if s.fault == NoFault && s.barrier.estop then Engine.DoEStopReplay(opts, s, accepts) else s)
    {
      ResubscribeAllAfterReconnect(order, accepts);
      if fault == NoFault && estopPending {
        DoEStopReplay(accepts);
      }
    }

    method CompleteHandshake(reconnect: bool, resp: Response, accepts: nat -> bool, order: seq<string>)
      requires Calm(View()) && inflightRpc == map[] && !Terminal(state)
      modifies this
      ensures Same(View(), Engine.CompleteHandshake(opts, old(View()), reconnect, resp, accepts, order))
    {
      if !resp.success || !resp.hasHandshake {
        FailConnection(if resp.success then InternalError else resp.code);
        return;
      }
      StartHeartbeat();
      greeted := true;
      if !reconnect {
        TransitionTo(Ready);
        SubscribeWaiting(order, accepts);
        return;
      }
      Restore(accepts, order);
    }

    method CompleteReplay(resp: Response)
      requires Calm(View()) && !HasReplay(inflightRpc)
      modifies this
      ensures Same(View(), Engine.CompleteReplay(opts, old(View()), resp))
    {
      estopPending := false;
      if !(resp.success && (!resp.hasRpc || resp.rpcCode == Ok)) {
        OnTransportClose(if resp.success then resp.rpcCode else resp.code, stackRoom);
      } else if subsPending == 0 {
        EnterReady();
      }
    }

    method CompleteUnsubscribe(c: nat, t: string, resp: Response)
      modifies this
      ensures View() == Engine.CompleteUnsubscribe(old(View()), c, t, resp)
      ensures t !in activeSubs
    {
      var code := if resp.success then Ok else resp.code;
      if t in activeSubs {
        RetireSlot(t, code, code);
      }
      SetPromise(c, Outcome(code == Ok, code));
    }

    method CompleteCall(c: nat, op: Op, resp: Response)
      modifies this
      ensures View() == Engine.CompleteCall(old(View()), c, op, resp)
    {
      var out := ReplyTo(op, resp);
      if op.EStop? && out.ok {
        engaged := op.engage;
      }
      SetPromise(c, out);
    }

    /** The entry of an answered request leaves the table. */
    method TakeRpc(resp: Response) returns (job: Job)
      requires resp.requestId in inflightRpc
      modifies this`inflightRpc, this`okd
      ensures job == old(inflightRpc)[resp.requestId]
      ensures View() == Taken(old(View()), resp)
    {
      job := inflightRpc[resp.requestId];
      inflightRpc := inflightRpc - {resp.requestId};
      if Succeeds(resp) { okd := okd + {resp.requestId}; }
    }

    /** A response to a request of the table: the entry leaves it and its callback runs. */
    method HandleSdkResponse(resp: Response, accepts: nat -> bool, order: seq<string>)
      requires Inv(opts, View()) && fault == NoFault
      modifies this
      ensures Same(View(), Engine.HandleResponse(opts, old(View()), resp, accepts, order))
    {
      InvIsCalm(opts, View(), resp.requestId);
      if resp.hasSubscribe {
        HandleSubscribeAck(resp, accepts);
        return;
      }
      if resp.requestId !in inflightRpc { return; }
      TakenIsCalm(opts, View(), resp);
      var job := TakeRpc(resp);
      match job {
        case Handshake(reconnect) => CompleteHandshake(reconnect, resp, accepts, order);
        case Replay => CompleteReplay(resp);
        case User(c, op) => CompleteCall(c, op, resp);
        case Unsub(c, t) => CompleteUnsubscribe(c, t, resp);
        case HeartbeatPing =>
      }
    }

    method HandleSdkTopicPush(t: string, p: Push)
      modifies this`activeSubs
      ensures View() == Engine.HandlePush(old(View()), t, p)
    {
      if t !in activeSubs { return; }
      UpdateSlot(t, OnPush(activeSubs[t].slot, p));
    }

    method OnInboundMessage(e: Event, accepts: nat -> bool, order: seq<string>)
      requires Inv(opts, View()) && fault == NoFault && (e.Inbound? || e.Pushed?)
      modifies this
      ensures Same(View(), OnInbound(opts, old(View()), e, accepts, order))
    {
      if conn == 0 { return; }
      NotedKeeps(opts, View());
      heartbeat := Heartbeat.OnInbound(heartbeat, clock);
      if e.Inbound? {
        HandleSdkResponse(e.resp, accepts, order);
      } else {
        HandleSdkTopicPush(e.topic, e.push);
      }
    }

    // ----------------------------------------------------------------------------------------
    // Timers.

    method FailReplay(rid: nat)
      requires Inv(opts, View()) && fault == NoFault && rid in inflightRpc && inflightRpc[rid] == Replay
      modifies this
      ensures Same(View(), Engine.OnRpcTimeout(opts, old(View()), rid))
    {
      ReplayTimesOut(opts, View(), rid);
      inflightRpc := inflightRpc - {rid};
      estopPending := false;
      OnTransportClose(Timeout, stackRoom);
    }

    method OnRpcTimeout(rid: nat)
      requires Inv(opts, View()) && fault == NoFault
      modifies this
      ensures Same(View(), Engine.OnRpcTimeout(opts, old(View()), rid))
    {
      if rid !in inflightRpc { return; }
      var job := inflightRpc[rid];
      if job == HeartbeatPing { return; }
      if job == Replay {
        FailReplay(rid);
        return;
      }
      inflightRpc := inflightRpc - {rid};
      match job {
        case Handshake(_) => wsUp := false;
        case User(c, _) => SetPromise(c, Outcome(false, Timeout));
        case Unsub(c, _) => SetPromise(c, Outcome(false, Timeout));
      }
    }

    method OnAckTimeout(rid: nat, held: bool)
      requires Calm(View())
      modifies this
      ensures Same(View(), Engine.OnAckTimeout(opts, old(View()), rid, held))
    {
      if rid !in ackTimers { return; }
      var t := ackTimers[rid];
      if held || (t in activeSubs && activeSubs[t].slot.inflight == rid) {
        OnTransportClose(Timeout, stackRoom);
      }
    }

    method OnRetryTimer(dial: Dial, accepts: nat -> bool)
      requires Calm(View()) && !HasReplay(inflightRpc)
      modifies this
      ensures Same(View(), Engine.OnRetryTimer(opts, old(View()), dial, accepts))
    {
      if retryTimer == None || state != TransientFailure { return; }
      attempt, retryTimer := retryTimer.value, None;
      TransitionTo(Reconnecting);
      EstablishConnection(true, dial, accepts);
    }

    /** The ping is entered in the table, then sent. */
    method SendHeartbeat(accepts: nat -> bool)
      requires Calm(View()) && !HasReplay(inflightRpc)
      modifies this
      ensures Same(View(), Engine.SendHeartbeat(opts, old(View()), accepts))
    {
      AddSilentEntry(View().table, nextId, HeartbeatPing);
      inflightRpc := inflightRpc[nextId := HeartbeatPing];
      var taken := SendOrFail(PingReq, accepts);
      if !taken {
        OnTransportClose(TransportFailure, stackRoom);
      }
    }

    method OnIdleTimerExpired(open: bool, accepts: nat -> bool)
      requires Calm(View())
      modifies this
      ensures Same(View(), OnIdleTimer(opts, old(View()), open, accepts))
    {
      if heartbeat.idle == None || clock < heartbeat.idle.value { return; }
      heartbeat := heartbeat.(idle := None);
      if state != Ready { return; }
      var silent := clock - heartbeat.lastInbound;
      if silent < opts.heartbeat.interval {
        heartbeat := heartbeat.(idle := Some(clock + (opts.heartbeat.interval - silent)));
        return;
      }
      if !wsUp || !open { return; }
      heartbeat := heartbeat.(deadline := Some(clock + opts.heartbeat.pingTimeout),
                              idle := Some(clock + opts.heartbeat.interval));
      SendHeartbeat(accepts);
    }

    method OnPingDeadlineExpired(open: bool, accepts: nat -> bool)
      requires Calm(View())
      modifies this
      ensures Same(View(), OnPingDeadline(opts, old(View()), open, accepts))
    {
      if heartbeat.deadline == None || clock < heartbeat.deadline.value { return; }
      heartbeat := heartbeat.(deadline := None);
      if state != Ready { return; }
      heartbeat := heartbeat.(missCount := heartbeat.missCount + 1);
      if heartbeat.missCount >= opts.heartbeat.maxMissed {
        OnTransportClose(TransportFailure, stackRoom);
        return;
      }
      if !wsUp || !open { return; }
      heartbeat := heartbeat.(deadline := Some(clock + opts.heartbeat.pingTimeout));
      assert heartbeat == Heartbeat.OnDeadline(opts.heartbeat, old(heartbeat), clock, true).0;
      SendHeartbeat(accepts);
    }

    // ----------------------------------------------------------------------------------------
    // One atomic step.

    method HandleUser(i: Input)
      requires Inv(opts, View()) && fault == NoFault
      modifies this
      ensures Same(View(), Engine.HandleUser(opts, old(View()), i))
    {
      InvIsCalm(opts, View(), 0);
      match i.event {
        case Connect(dial) =>
          if state == Idle { EstablishConnection(false, dial, i.accepts); }
        case Close => Close();
        case Subscribe(t, semantics, userClosed) => SubscribeInternal(t, semantics, userClosed, i.accepts);
        case UnsubscribeAsync(t) => UnsubscribeAsync(t, i.open, i.accepts);
        case UnsubscribeSync(t) => UnsubscribeSync(t, i.open, i.accepts);
        case Call(op) => Call(op, i.accepts);
        case _ =>
      }
    }

    method HandleTimer(i: Input)
      requires Inv(opts, View()) && fault == NoFault
      modifies this
      ensures Same(View(), Engine.HandleTimer(opts, old(View()), i))
    {
      InvIsCalm(opts, View(), 0);
      match i.event {
        case RpcTimeout(rid) => OnRpcTimeout(rid);
        case AckTimeout(rid, held) => OnAckTimeout(rid, held);
        case RetryTimer(dial) => if state == TransientFailure { OnRetryTimer(dial, i.accepts); }
        case IdleTimer => OnIdleTimerExpired(i.open, i.accepts);
        case PingDeadline => OnPingDeadlineExpired(i.open, i.accepts);
        case _ =>
      }
    }

    method HandleSocket(i: Input)
      requires Inv(opts, View()) && fault == NoFault
      modifies this
      ensures Same(View(), Engine.HandleSocket(opts, old(View()), i))
    {
      match i.event {
        case Inbound(_) => OnInboundMessage(i.event, i.accepts, i.order);
        case Pushed(_, _) => OnInboundMessage(i.event, i.accepts, i.order);
        case TransportClosed(clean) =>
          InvIsCalm(opts, View(), 0);
          if conn > 0 { OnTransportClose(if clean then Cancelled else TransportFailure, stackRoom); }
        case _ =>
      }
    }

    method Dispatch(i: Input)
      requires Inv(opts, View()) && fault == NoFault
      modifies this
      ensures Same(View(), Engine.Handle(opts, old(View()), i))
    {
      if FromUser(i.event) {
        HandleUser(i);
      } else if FromSocket(i.event) {
        HandleSocket(i);
      } else {
        HandleTimer(i);
      }
    }

    method Tick(elapsed: nat)
      modifies this`clock
      ensures View() == Engine.Tick(old(View()), elapsed)
    {
      clock := clock + elapsed;
    }

    /** The control thread performs one step exactly as specified, so every property of runs holds
        of it; the invariant is kept up to the first fault. */
    method Handle(i: Input)
      requires Good(opts, View())
      modifies this
      ensures Same(View(), Step(opts, old(View()), i))
      ensures Good(opts, View())
    {
      ghost var before := View();
      StepKeeps(opts, before, i);
      if fault != NoFault || !Lists(i.order, activeSubs) { return; }
      ClockKeeps(opts, before, i.elapsed);
      Tick(i.elapsed);
      Dispatch(i);
      assert Same(View(), Step(opts, before, i));
    }

    /** The control thread runs its handlers one after the other: up to the first fault its fields
        are those of the run. */
    method RunControlLoop(ins: seq<Input>)
      requires View() == Initial()
      modifies this
      ensures Same(View(), Run(opts, ins))
      ensures Good(opts, View())
    {
      InitialInv(opts);
      for k := 0 to |ins|
        invariant Good(opts, View())
        invariant Same(View(), RunFrom(opts, Initial(), ins[..k]))
      {
        assert ins[..k + 1][..k] == ins[..k];
        Handle(ins[k]);
      }
      assert ins[..|ins|] == ins;
    }
  }
}
