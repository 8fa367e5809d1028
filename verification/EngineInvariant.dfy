/** The inductive invariant of the control thread, part by part. */
module EngineInvariant {
  import opened Types
  import opened Stream
  import opened Engine
  import Heartbeat

  // ------------------------------------------------------------------------------------------
  // The connection machine.

  /** The transitions the state machine is documented to make. */
  predicate Legal(a: ConnectionState, b: ConnectionState) {
    match a
    case Idle => b.Connecting? || b.Shutdown?
    case Connecting => b.Ready? || b.TransientFailure? || Terminal(b)
    case Ready => b.TransientFailure? || Terminal(b)
    case TransientFailure => b.Reconnecting? || Terminal(b)
    case Reconnecting => b.Ready? || b.TransientFailure? || Terminal(b)
    case Fatal => b.Shutdown?
    case Shutdown => false
  }

  predicate LegalTrace(trace: seq<ConnectionState>) {
    && trace != [] && trace[0] == Idle
    && forall i :: 0 <= i < |trace| - 1 ==> Legal(trace[i], trace[i + 1])
  }

  /** How often Reconnecting was entered since the last Ready. */
  function RetriesSinceReady(trace: seq<ConnectionState>): nat {
    if trace == [] || trace[|trace| - 1] == Ready then 0
    else RetriesSinceReady(trace[..|trace| - 1]) + (if trace[|trace| - 1] == Reconnecting then 1 else 0)
  }

  /** How often a reconnect reached Ready. */
  function Recoveries(trace: seq<ConnectionState>): nat {
    if |trace| < 2 then 0
    else
      var k := |trace| - 1;
      Recoveries(trace[..k]) + (if trace[k] == Ready && trace[k - 1] == Reconnecting then 1 else 0)
  }

  predicate WithinLimit(o: Options, attempt: nat) {
    o.maxAttempts >= 0 ==> attempt <= o.maxAttempts
  }

  /** What holds of the machine even in the middle of a handler. */
  predicate TraceInv(o: Options, l: Link) {
    && LegalTrace(l.trace) && l.trace[|l.trace| - 1] == l.st
    && l.attempt == RetriesSinceReady(l.trace) && l.total == Recoveries(l.trace)
    && WithinLimit(o, l.attempt)
  }

  predicate LinkInv(o: Options, l: Link) {
    && TraceInv(o, l)
    && (l.st == TransientFailure ==> l.retry == Some(l.attempt + 1) && WithinLimit(o, l.attempt + 1))
    && (l.st != TransientFailure ==> l.retry == None)
    && (l.st == Idle || l.st == Connecting || l.st == Ready ==> l.attempt == 0)
  }

  // ------------------------------------------------------------------------------------------
  // Requests in flight and promises.

  /** Every promise is either set once or held by exactly one entry of the table. */
  ghost predicate TableInv(t: Table) {
    && (forall rid :: rid in t.rpcs && CallOf(t.rpcs[rid]).Some? ==> CallOf(t.rpcs[rid]).value < |t.calls|)
    && (forall a, b :: a in t.rpcs && b in t.rpcs && a != b && CallOf(t.rpcs[a]).Some?
          ==> CallOf(t.rpcs[a]) != CallOf(t.rpcs[b]))
    && (forall c :: 0 <= c < |t.calls| ==> |t.calls[c]| == if c in OpenCalls(t.rpcs) then 0 else 1)
  }

  predicate AtMostOne(rpcs: map<nat, Job>) {
    forall a, b :: a in rpcs && b in rpcs ==> a == b
  }

  /** Every entry waits for a request that went out on this very connection. What the table may
      hold in each state: outside Ready, only the handshake or the replay; a connection being set
      up either waits for its handshake or has no socket. */
  ghost predicate Shape(l: Link, w: Wire, rpcs: map<nat, Job>) {
    && (forall rid :: rid in rpcs ==> WasSent(w, rid, RequestFor(rpcs[rid])))
    && match l.st
       case Ready => forall rid :: rid in rpcs ==> !rpcs[rid].Handshake? && !rpcs[rid].Replay?
       case Connecting =>
         && AtMostOne(rpcs) && (w.up ==> rpcs != map[])
         && forall rid :: rid in rpcs ==> rpcs[rid] == Handshake(false) && w.up
       case Reconnecting =>
         && AtMostOne(rpcs) && (w.up && !w.greeted ==> rpcs != map[])
         && forall rid :: rid in rpcs ==> if w.greeted then rpcs[rid] == Replay else rpcs[rid] == Handshake(true) && w.up
       case _ => rpcs == map[]
  }

  /** Request rid went out on the current connection. */
  predicate WasSent(w: Wire, rid: nat, what: Request) {
    rid in w.sent && w.sent[rid] == Sent(w.conn, what)
  }

  /** The log of requests only grows, on the same connection. */
  predicate SentGrows(w: Wire, w': Wire) {
    && w'.conn == w.conn && w'.up == w.up && w'.greeted == w.greeted
    && w.okd <= w'.okd
    && forall rid :: rid in w.sent ==> rid in w'.sent && w'.sent[rid] == w.sent[rid]
  }

  // ------------------------------------------------------------------------------------------
  // Request numbers.

  predicate Below<V>(m: map<nat, V>, n: nat) {
    forall k :: k in m ==> 0 < k < n
  }

  predicate IdsInv(w: Wire, rpcs: map<nat, Job>, m: Subs) {
    && 0 < w.nextId
    && Below(w.sent, w.nextId) && Below(rpcs, w.nextId) && Below(m.req, w.nextId) && Below(m.timers, w.nextId)
    && (forall t :: t in m.active ==> m.active[t].slot.inflight < w.nextId)
    && (w.conn == 0 ==> m.timers == map[])
  }

  // ------------------------------------------------------------------------------------------
  // Subscriptions.

  predicate EntryOk(e: Entry) {
    SlotInv(e.slot) && e.slot.state != Closed
  }

  ghost predicate SlotsInv(m: Subs) {
    && (forall t :: t in m.active ==> EntryOk(m.active[t]))
    && (forall s :: s in m.retired ==> SlotInv(s) && s.state == Closed)
  }

  /** Nothing outstanding, nothing flowing. */
  predicate Quiet(e: Entry) {
    e.slot.inflight == 0 && (e.slot.state == Pending || e.slot.state == Paused)
  }

  predicate Waiting(e: Entry) {
    e.slot.inflight != 0 && e.slot.state == Pending
  }

  predicate Live(e: Entry) {
    e.slot.inflight == 0 && e.slot.state == Active
  }

  /** Recorded, but not subscribed on this connection. */
  predicate Fresh(e: Entry) {
    e.slot.inflight == 0 && e.slot.state == Pending
  }

  predicate AllQuiet(active: map<string, Entry>) {
    forall t :: t in active ==> Quiet(active[t])
  }

  /** In each state, what a subscription in the table can be doing. */
  predicate Fits(l: Link, w: Wire, e: Entry) {
    match l.st
    case Idle => Fresh(e)
    case Connecting => Fresh(e)
    case Ready => Waiting(e) || Live(e) || Fresh(e)
    case Reconnecting => if w.greeted then InBarrier(e) else Quiet(e)
    case _ => Quiet(e)
  }

  predicate Doing(l: Link, w: Wire, active: map<string, Entry>) {
    forall t :: t in active ==> Fits(l, w, active[t])
  }

  /** A barrier subscription waits for its ack or flows; a newcomer waits for the next connection. */
  predicate InBarrier(e: Entry) {
    if e.barrier then Waiting(e) || Live(e) else Fresh(e)
  }

  /** An outstanding subscribe is known by its number and has its ack timer armed. */
  predicate LinkedAt(m: Subs, t: string, rid: nat) {
    rid != 0 ==> rid in m.req && m.req[rid] == t && rid in m.timers && m.timers[rid] == t
  }

  predicate Linked(m: Subs) {
    forall t :: t in m.active ==> LinkedAt(m, t, m.active[t].slot.inflight)
  }

  /** At most two subscribes per subscription and connection: one, and one retry from scratch. */
  predicate SendsOk(w: Wire, e: Entry) {
    && e.sentOn <= w.conn
    && (e.sentOn == w.conn ==> e.sends <= if e.slot.retried then 2 else 1)
    && (e.sentOn == w.conn && !w.greeted ==> e.sends == 0)
  }

  predicate SendsInv(w: Wire, active: map<string, Entry>) {
    forall t :: t in active ==> SendsOk(w, active[t])
  }

  // ------------------------------------------------------------------------------------------
  // The barrier and the emergency stop.

  function Outstanding(active: map<string, Entry>): set<string> {
    set t | t in active && active[t].slot.inflight != 0
  }

  /** An emergency_stop(true) went out on the current connection and was answered with success. */
  ghost predicate StopConfirmed(w: Wire) {
    exists rid :: rid in w.okd && WasSent(w, rid, EStopReq(true))
  }

  /** In the barrier: pending counts the outstanding subscribes, those abandoned, and extra more;
      an engaged stop has its replay in flight or has had it confirmed. */
  ghost predicate BarrierCounts(s: State, extra: nat) {
    s.link.st == Reconnecting && s.wire.greeted ==>
      && s.wire.up
      && s.barrier.pending == |Outstanding(s.subs.active)| + s.barrier.abandoned + extra
      && (s.barrier.estop <==> s.table.rpcs != map[])
      && (s.barrier.estop ==> s.engaged)
      && (s.engaged && !s.barrier.estop ==> StopConfirmed(s.wire))
  }

  ghost predicate BarrierInv(s: State) {
    && BarrierCounts(s, 0)
    && (s.link.st == Reconnecting && s.wire.greeted ==> s.barrier.pending > 0 || s.barrier.estop)
  }

  ghost predicate StopInv(s: State) {
    && (s.engaged ==> s.link.st != Idle && s.link.st != Connecting)
    && (s.link.st == Ready && s.engaged ==> StopConfirmed(s.wire))
  }

  predicate WireInv(l: Link, w: Wire) {
    && (w.up ==> w.conn > 0)
    && (l.st == Idle ==> w.conn == 0)
    && (w.conn == 0 ==> !w.greeted)
    && (l.st == Idle || l.st == TransientFailure || Terminal(l.st) ==> !w.up)
    && (l.st == Connecting ==> !w.greeted)
    && (l.st == Ready ==> w.up && w.greeted)
  }

  // ------------------------------------------------------------------------------------------
  // Together.

  /** What every handler keeps at every point: enough to survive a transport close there. */
  ghost predicate Core(o: Options, s: State) {
    && TraceInv(o, s.link)
    && TableInv(s.table)
    && IdsInv(s.wire, s.table.rpcs, s.subs)
    && SlotsInv(s.subs)
    && SendsInv(s.wire, s.subs.active)
    && Heartbeat.Sound(o.heartbeat, s.hb, s.clock)
  }

  /** What holds between steps. */
  ghost predicate Inv(o: Options, s: State) {
    && Core(o, s)
    && LinkInv(o, s.link)
    && Shape(s.link, s.wire, s.table.rpcs)
    && Doing(s.link, s.wire, s.subs.active)
    && Linked(s.subs)
    && BarrierInv(s)
    && StopInv(s)
    && WireInv(s.link, s.wire)
  }

  /** The invariant, unless undefined behaviour has been reached. */
  ghost predicate Good(o: Options, s: State) {
    s.fault == NoFault ==> Inv(o, s)
  }
}
