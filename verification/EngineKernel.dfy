/** How the shared pieces of the handlers keep the invariant: promises, subscriptions, transport
    close, retry and abort. */
module EngineKernel {
  import opened Types
  import opened Stream
  import opened Engine
  import opened EngineInvariant
  import Heartbeat

  // ------------------------------------------------------------------------------------------
  // Promises.

  lemma SettleAllKeeps(t: Table, out: Outcome)
    requires TableInv(t)
    ensures TableInv(SettleAll(t, out)) && SettleAll(t, out).rpcs == map[]
    ensures OpenCalls(map[]) == {}
  {
  }

  /** Taking an entry without a promise out of the table, or putting one in. */
  lemma SilentEntry(t: Table, rid: nat)
    requires TableInv(t) && rid in t.rpcs && CallOf(t.rpcs[rid]) == None
    ensures TableInv(t.(rpcs := t.rpcs - {rid}))
  {
    assert OpenCalls(t.rpcs - {rid}) == OpenCalls(t.rpcs) by {
      forall c | c in OpenCalls(t.rpcs) ensures c in OpenCalls(t.rpcs - {rid}) {
        var r :| r in t.rpcs && CallOf(t.rpcs[r]) == Some(c);
        assert r in t.rpcs - {rid} && (t.rpcs - {rid})[r] == t.rpcs[r];
      }
    }
  }

  lemma AddSilentEntry(t: Table, rid: nat, j: Job)
    requires TableInv(t) && rid !in t.rpcs && CallOf(j) == None
    ensures TableInv(t.(rpcs := t.rpcs[rid := j]))
  {
    assert OpenCalls(t.rpcs[rid := j]) == OpenCalls(t.rpcs) by {
      forall c | c in OpenCalls(t.rpcs) ensures c in OpenCalls(t.rpcs[rid := j]) {
        var r :| r in t.rpcs && CallOf(t.rpcs[r]) == Some(c);
        assert t.rpcs[rid := j][r] == t.rpcs[r];
      }
    }
  }

  /** Taking an entry out and setting its promise. */
  lemma SettleEntry(t: Table, rid: nat, c: nat, out: Outcome)
    requires TableInv(t) && rid in t.rpcs && CallOf(t.rpcs[rid]) == Some(c)
    ensures TableInv(Table(t.rpcs - {rid}, Settle(t.calls, c, out)))
  {
    var rpcs := t.rpcs - {rid};
    assert c in OpenCalls(t.rpcs);
    assert OpenCalls(rpcs) == OpenCalls(t.rpcs) - {c} by {
      forall d | d in OpenCalls(t.rpcs) && d != c ensures d in OpenCalls(rpcs) {
        var r :| r in t.rpcs && CallOf(t.rpcs[r]) == Some(d);
        assert r in rpcs && rpcs[r] == t.rpcs[r];
      }
      forall d | d in OpenCalls(rpcs) ensures d in OpenCalls(t.rpcs) && d != c {
        var r :| r in rpcs && CallOf(rpcs[r]) == Some(d);
        assert r in t.rpcs;
      }
    }
  }

  /** A new promise that is set at once. */
  lemma SettledCall(t: Table, out: Outcome)
    requires TableInv(t)
    ensures TableInv(t.(calls := Settle(t.calls + [[]], |t.calls|, out)))
  {
  }

  /** A new promise that goes into the table. */
  lemma OpenedCall(t: Table, rid: nat, j: Job)
    requires TableInv(t) && rid !in t.rpcs && CallOf(j) == Some(|t.calls|)
    ensures TableInv(Table(t.rpcs[rid := j], t.calls + [[]]))
  {
    var rpcs := t.rpcs[rid := j];
    assert OpenCalls(rpcs) == OpenCalls(t.rpcs) + {|t.calls|} by {
      assert CallOf(rpcs[rid]).value in OpenCalls(rpcs);
      forall d | d in OpenCalls(t.rpcs) ensures d in OpenCalls(rpcs) {
        var r :| r in t.rpcs && CallOf(t.rpcs[r]) == Some(d);
        assert rpcs[r] == t.rpcs[r];
      }
    }
  }

  // ------------------------------------------------------------------------------------------
  // Subscriptions as a whole.

  lemma PauseAllKeeps(w: Wire, m: Subs, reason: ErrorCode)
    requires SlotsInv(m) && SendsInv(w, m.active)
    ensures var r := PauseAll(m, reason);
      SlotsInv(r) && AllQuiet(r.active) && Linked(r) && SendsInv(w, r.active)
      && r.active.Keys == m.active.Keys && r.req == m.req && r.timers == map[]
  {
    forall t | t in m.active ensures SlotInv(Pause(m.active[t].slot, reason)) {
      assert EntryOk(m.active[t]);
      PauseKeeps(m.active[t].slot, reason);
    }
  }

  lemma ShutAllKeeps(m: Subs, code: ErrorCode)
    requires SlotsInv(m)
    ensures SlotsInv(ShutAll(m, code))
  {
    forall t | t in m.active
      ensures SlotInv(Shut(m.active[t].slot, code, code)) && Shut(m.active[t].slot, code, code).state == Closed
    {
      assert EntryOk(m.active[t]);
      ShutKeeps(m.active[t].slot, code, code);
    }
  }

  lemma RetireKeeps(m: Subs, t: string, error: ErrorCode, reason: ErrorCode)
    requires SlotsInv(m) && t in m.active
    ensures SlotsInv(Retire(m, t, error, reason))
  {
    assert EntryOk(m.active[t]);
    ShutKeeps(m.active[t].slot, error, reason);
  }

  // ------------------------------------------------------------------------------------------
  // The connection machine.

  lemma EnterKeeps(o: Options, l: Link, c: ConnectionState)
    requires TraceInv(o, l) && Legal(l.st, c) && c != Reconnecting
    requires c == Ready ==> l.attempt == 0 && l.st != Reconnecting
    ensures TraceInv(o, Enter(l, c)) && Enter(l, c).st == c
    ensures c == Ready ==> RetriesSinceReady(Enter(l, c).trace) == 0
  {
    if l.st != c {
      var tr := l.trace + [c];
      assert tr[..|tr| - 1] == l.trace;
      assert tr[|tr| - 2] == l.st;
    }
  }

  /** Alive: a handler that may still lose the connection is running. */
  predicate Alive(s: State) {
    !Terminal(s.link.st) && s.link.st != Idle && (s.wire.conn == 0 ==> !s.wire.greeted)
  }

  lemma AbortKeeps(o: Options, s: State, code: ErrorCode)
    requires Core(o, s) && Alive(s)
    ensures Good(o, AbortToFatal(s, code))
    ensures AbortToFatal(s, code).fault != NoFault || AbortToFatal(s, code).link.st == Fatal
  {
    SettleAllKeeps(s.table, Outcome(false, code));
    ShutAllKeeps(s.subs, code);
    EnterKeeps(o, s.link.(retry := None), Fatal);
  }

  /** The state between dropping a connection and arming the retry. */
  ghost predicate Dropped(o: Options, s: State) {
    && Core(o, s)
    && s.link.st == TransientFailure
    && s.table.rpcs == map[]
    && AllQuiet(s.subs.active) && Linked(s.subs)
    && !s.wire.up && (s.wire.conn == 0 ==> !s.wire.greeted)
  }

  lemma ReconnectKeeps(o: Options, s: State)
    requires Dropped(o, s)
    ensures Good(o, DoReconnect(o, s, s.link.attempt + 1))
    ensures var r := DoReconnect(o, s, s.link.attempt + 1);
      r.fault == s.fault && (r.link.st == TransientFailure || r.link.st == Fatal)
      && (r.link.st == TransientFailure ==> r.subs == s.subs)
  {
    if o.maxAttempts >= 0 && s.link.attempt + 1 > o.maxAttempts {
      AbortKeeps(o, s, TransportFailure);
    }
  }

  lemma PausedIds(w: Wire, rpcs: map<nat, Job>, m: Subs, reason: ErrorCode)
    requires IdsInv(w, rpcs, m)
    ensures IdsInv(w.(up := false), map[], PauseAll(m, reason))
  {
  }

  lemma HaltedSound(c: Heartbeat.Config, h: Heartbeat.Hb, now: int)
    requires Heartbeat.Sound(c, h, now)
    ensures Heartbeat.Sound(c, Heartbeat.Halt(h).(missCount := 0), now)
  {
  }

  lemma TearDownKeeps(o: Options, s: State, reason: ErrorCode)
    requires Core(o, s) && Alive(s)
    ensures Dropped(o, TearDown(s, reason))
    ensures TearDown(s, reason).link.attempt == s.link.attempt
  {
    var d, out := TearDown(s, reason), Outcome(false, reason);
    SettleAllKeeps(s.table, out);
    PauseAllKeeps(s.wire, s.subs, reason);
    PausedIds(s.wire, s.table.rpcs, s.subs, reason);
    HaltedSound(o.heartbeat, s.hb, s.clock);
    if s.link.st != TransientFailure { EnterKeeps(o, s.link, TransientFailure); }
    assert d.table == SettleAll(s.table, out) && d.subs == PauseAll(s.subs, reason);
    assert d.wire == s.wire.(up := false) && d.link == Enter(s.link, TransientFailure);
  }

  lemma CloseKeeps(o: Options, s: State, reason: ErrorCode)
    requires Core(o, s) && Alive(s)
    ensures Good(o, OnTransportClose(o, s, reason))
    ensures var r := OnTransportClose(o, s, reason);
      !HasReplay(s.table.rpcs) ==>
        && r.fault == s.fault && (r.link.st == TransientFailure || r.link.st == Fatal)
        && (r.link.st == TransientFailure ==> r.subs == PauseAll(s.subs, reason))
  {
    if !HasReplay(s.table.rpcs) {
      TearDownKeeps(o, s, reason);
      ReconnectKeeps(o, TearDown(s, reason));
    }
  }

  /** Nothing in flight, nothing flowing: a connection being set up. */
  ghost predicate SettingUp(o: Options, s: State) {
    && Core(o, s) && Alive(s)
    && s.table.rpcs == map[]
    && AllQuiet(s.subs.active) && Linked(s.subs)
  }

  lemma GiveUpKeeps(o: Options, s: State)
    requires SettingUp(o, s) && (s.link.st == Connecting || s.link.st == Reconnecting)
    ensures Good(o, GiveUpConnection(o, s))
  {
    EnterKeeps(o, s.link, TransientFailure);
    var d := s.(wire := s.wire.(up := false), link := Enter(s.link, TransientFailure));
    assert Dropped(o, d);
    ReconnectKeeps(o, d);
    assert GiveUpConnection(o, s) == DoReconnect(o, d, d.link.attempt + 1);
  }

  lemma FailConnectionKeeps(o: Options, s: State, code: ErrorCode)
    requires SettingUp(o, s) && (s.link.st == Connecting || s.link.st == Reconnecting)
    ensures Good(o, FailConnection(o, s, code))
  {
    if Classify(code) == FatalCategory {
      AbortKeeps(o, s, code);
    } else {
      GiveUpKeeps(o, s);
    }
  }
}
