/** The control thread as a state machine: every handler as a function from state to state.
    The class in RobotImpl.dfy performs the same handlers in place. */
module Engine {
  import opened Types
  import opened Stream
  import Heartbeat

  /** The options the handlers read. A negative maxAttempts means no limit. */
  datatype Options = Options(
    maxAttempts: int,
    replayHistory: bool,
    policy: DropPolicy,
    queueSize: Capacity,
    heartbeat: Heartbeat.Config)

  /** The requests a user call can make. */
  datatype Op = CmdVel | EStop(engage: bool) | Invoke | Ping

  /** What the completion callback of an in-flight request does. A call number names the promise
      that a blocked user waits on. */
  datatype Job =
    | Handshake(reconnect: bool)
    | Replay
    | User(call: nat, op: Op)
    | Unsub(call: nat, topic: string)
    | HeartbeatPing

  function CallOf(j: Job): Option<nat> {
    match j
    case User(c, _) => Some(c)
    case Unsub(c, _) => Some(c)
    case _ => None
  }

  /** The value a promise is set to: accepted or not, and the error code. */
  datatype Outcome = Outcome(ok: bool, code: ErrorCode)

  datatype Request =
    | HandshakeReq
    | SubscribeReq(topic: string, since: nat)
    | UnsubscribeReq(topic: string)
    | EStopReq(engage: bool)
    | CmdVelReq
    | InvokeReq
    | PingReq

  /** A request handed to the socket of connection number conn. */
  datatype Sent = Sent(conn: nat, what: Request)

  /** Undefined behaviour the handlers can run into; nothing is claimed after it. */
  datatype Fault = NoFault | StackOverflow | DanglingIterator

  /** A subscription in the table; in the barrier: it was resubscribed by the reconnect under way;
      sentOn, sends: the last connection it was subscribed on, and how often. */
  datatype Entry = Entry(slot: Slot, barrier: bool, sentOn: nat, sends: nat)

  /** The connection machine: state, trace of all states entered, retry bookkeeping. */
  datatype Link = Link(
    st: ConnectionState,
    trace: seq<ConnectionState>,
    attempt: nat,
    total: nat,
    retry: Option<nat>)

  /** The socket: whether there is one, which connection it is, whether the handshake is done;
      sent logs every request by its number, okd holds those answered with success. */
  datatype Wire = Wire(
    up: bool,
    conn: nat,
    greeted: bool,
    nextId: nat,
    sent: map<nat, Sent>,
    okd: set<nat>)

  /** In-flight requests, and for each user call the values its promise was set to. */
  datatype Table = Table(rpcs: map<nat, Job>, calls: seq<seq<Outcome>>)

  /** Subscriptions: the table by topic, outstanding subscribe requests and their ack timers by
      request number, and the closed subscriptions that left the table. */
  datatype Subs = Subs(
    active: map<string, Entry>,
    req: map<nat, string>,
    timers: map<nat, string>,
    retired: set<Slot>)

  /** What still keeps a reconnect from Ready; abandoned counts the outstanding subscriptions
      that were unsubscribed meanwhile. */
  datatype Barrier = Barrier(pending: nat, estop: bool, abandoned: nat)

  datatype State = State(
    link: Link,
    wire: Wire,
    table: Table,
    subs: Subs,
    barrier: Barrier,
    engaged: bool,
    hb: Heartbeat.Hb,
    clock: int,
    fault: Fault)

  /** How a connection attempt ends before the handshake is sent. */
  datatype Dial = Refused(code: ErrorCode) | EncodeThrows(code: ErrorCode) | Up

  datatype Event =
    | Connect(dial: Dial)
    | Close
    | Subscribe(topic: string, semantics: Semantics, userClosed: bool)
    | UnsubscribeAsync(topic: string)
    | UnsubscribeSync(topic: string)
    | Call(op: Op)
    | Inbound(resp: Response)
    | Pushed(topic: string, push: Push)
    | TransportClosed(clean: bool)
    | RpcTimeout(rid: nat)
    | AckTimeout(rid: nat, held: bool)
    | RetryTimer(dial: Dial)
    | IdleTimer
    | PingDeadline

  /** An event with what the environment decides: the time since the last one, whether the socket
      takes the request of a given number, whether it reports itself open, and the order in which
      the subscription table is walked. */
  datatype Input = Input(event: Event, elapsed: nat, accepts: nat -> bool, open: bool, order: seq<string>)

  function Initial(): State {
    State(Link(Idle, [Idle], 0, 0, None), Wire(false, 0, false, 1, map[], {}), Table(map[], []),
          Subs(map[], map[], map[], {}), Barrier(0, false, 0), false, Heartbeat.Stopped(), 0, NoFault)
  }

  // ------------------------------------------------------------------------------------------
  // Pieces shared by the handlers.

  function Enter(l: Link, c: ConnectionState): Link {
    if l.st == c then l else l.(st := c, trace := l.trace + [c])
  }

  predicate HasReplay(rpcs: map<nat, Job>) {
    exists rid :: rid in rpcs && rpcs[rid] == Replay
  }

  function OpenCalls(rpcs: map<nat, Job>): set<nat> {
    set rid | rid in rpcs && CallOf(rpcs[rid]).Some? :: CallOf(rpcs[rid]).value
  }

  function Settle(calls: seq<seq<Outcome>>, c: nat, out: Outcome): seq<seq<Outcome>> {
    if c < |calls| then calls[c := calls[c] + [out]] else calls
  }

  /** Every pending promise set to out, and the table emptied. */
  function SettleAll(t: Table, out: Outcome): Table {
    var open := OpenCalls(t.rpcs);
    Table(map[], seq(|t.calls|, i requires 0 <= i < |t.calls| =>
      if i in open then t.calls[i] + [out] else t.calls[i]))
  }

  function WithSlot(m: Subs, t: string, slot: Slot): Subs
    requires t in m.active
  {
    m.(active := m.active[t := m.active[t].(slot := slot)])
  }

  function PauseAll(m: Subs, reason: ErrorCode): Subs {
    m.(active := map t | t in m.active :: m.active[t].(slot := Pause(m.active[t].slot, reason)), timers := map[])
  }

  function ShutAll(m: Subs, code: ErrorCode): Subs {
    m.(active := map[],
       retired := m.retired + (set t | t in m.active :: Shut(m.active[t].slot, code, code)),
       timers := map[])
  }

  /** Closes one subscription and takes it out of the table. */
  function Retire(m: Subs, t: string, error: ErrorCode, reason: ErrorCode): Subs
    requires t in m.active
  {
    m.(active := m.active - {t}, retired := m.retired + {Shut(m.active[t].slot, error, reason)})
  }

  /** The socket takes the next request number; takes tells whether it takes the request. */
  function Take(w: Wire, takes: bool, what: Request): Wire {
    w.(nextId := w.nextId + 1,
       sent := if takes then w.sent[w.nextId := Sent(w.conn, what)] else w.sent)
  }

  predicate Takes(w: Wire, accepts: nat -> bool) {
    w.up && accepts(w.nextId)
  }

  // ------------------------------------------------------------------------------------------
  // Connection loss, retry and the end of the session.

  /** Completing a replay from inside either of the next two functions would start the transport
      close again over the unchanged table, without end. */
  function AbortToFatal(s: State, code: ErrorCode): State {
    if HasReplay(s.table.rpcs) then s.(fault := StackOverflow)
    else
      s.(subs := ShutAll(s.subs, code).(req := map[]),
         table := SettleAll(s.table, Outcome(false, code)),
         hb := Heartbeat.Halt(s.hb),
         wire := s.wire.(up := false),
         link := Enter(s.link.(retry := None), Fatal))
  }

  function DoReconnect(o: Options, s: State, attempt: nat): State
    requires attempt >= 1
  {
    if Terminal(s.link.st) then s
    else if o.maxAttempts >= 0 && attempt > o.maxAttempts then AbortToFatal(s, TransportFailure)
    else s.(link := s.link.(attempt := attempt - 1, retry := Some(attempt)))
  }

  /** Everything that hung on the connection is paused, failed or stopped. */
  function TearDown(s: State, reason: ErrorCode): State {
    s.(subs := PauseAll(s.subs, reason),
       table := SettleAll(s.table, Outcome(false, reason)),
       hb := Heartbeat.Halt(s.hb).(missCount := 0),
       wire := s.wire.(up := false),
       link := Enter(s.link, TransientFailure))
  }

  function OnTransportClose(o: Options, s: State, reason: ErrorCode): State {
    if Terminal(s.link.st) then s
    else if HasReplay(s.table.rpcs) then s.(fault := StackOverflow)
    else DoReconnect(o, TearDown(s, reason), s.link.attempt + 1)
  }

  /** A connection that failed before it was ready: the socket is dropped and a retry armed. */
  function GiveUpConnection(o: Options, s: State): State {
    DoReconnect(o, s.(wire := s.wire.(up := false), link := Enter(s.link, TransientFailure)), s.link.attempt + 1)
  }

  function FailConnection(o: Options, s: State, code: ErrorCode): State {
    if Classify(code) == FatalCategory then AbortToFatal(s, code) else GiveUpConnection(o, s)
  }

  /** A new socket, not yet greeted. */
  function NewSocket(w: Wire): Wire {
    w.(up := true, conn := w.conn + 1, greeted := false)
  }

  function SendHandshake(o: Options, s: State, reconnect: bool, accepts: nat -> bool): State {
    var taken := Takes(s.wire, accepts);
    var s1 := s.(wire := Take(s.wire, taken, HandshakeReq));
    if taken then s1.(table := s.table.(rpcs := s.table.rpcs[s.wire.nextId := Handshake(reconnect)]))
    else GiveUpConnection(o, s1)
  }

  function EstablishConnection(o: Options, s: State, reconnect: bool, dial: Dial, accepts: nat -> bool): State {
    var s0 := if reconnect then s else s.(link := Enter(s.link, Connecting));
    match dial
    case Refused(code) => FailConnection(o, s0, code)
    case EncodeThrows(code) => AbortToFatal(s0.(wire := Take(NewSocket(s0.wire), false, HandshakeReq)), code)
    case Up => SendHandshake(o, s0.(wire := NewSocket(s0.wire)), reconnect, accepts)
  }

  // ------------------------------------------------------------------------------------------
  // Subscriptions.

  function SendSubscribe(o: Options, s: State, t: string, since: nat, accepts: nat -> bool): State
    requires t in s.subs.active
  {
    var rid, e := s.wire.nextId, s.subs.active[t];
    var slot := BeginSubscribe(e.slot, since, rid, s.link.st == Reconnecting);
    if Takes(s.wire, accepts) then
      var sends := if e.sentOn == s.wire.conn then e.sends + 1 else 1;
      s.(wire := Take(s.wire, true, SubscribeReq(t, slot.expected)),
         subs := s.subs.(active := s.subs.active[t := Entry(slot, e.barrier, s.wire.conn, sends)],
                         req := s.subs.req[rid := t],
                         timers := s.subs.timers[rid := t]))
    else
      OnTransportClose(o,
        s.(wire := Take(s.wire, false, SubscribeReq(t, slot.expected)),
           subs := WithSlot(s.subs, t, slot.(inflight := 0))),
        TransportFailure)
  }

  /** The replay position a reconnect asks for. */
  function ResumeFrom(o: Options, slot: Slot): nat {
    if slot.semantics == Event && o.replayHistory && slot.lastSeq > 0 then slot.lastSeq + 1 else 0
  }

  /** One subscription of the walk, before it is sent: a new connection, a new retry. */
  function Readied(s: State, t: string): State
    requires t in s.subs.active
  {
    var e := s.subs.active[t];
    s.(subs := s.subs.(active := s.subs.active[t := e.(slot := e.slot.(retried := false), barrier := true)]))
  }

  function ResubscribeOne(o: Options, s: State, t: string, accepts: nat -> bool): State
    requires t in s.subs.active
  {
    SendSubscribe(o, Readied(s, t), t, ResumeFrom(o, s.subs.active[t].slot), accepts)
  }

  /** A failed send that ends the session clears the table under the walk. */
  function Trampled(s: State): State {
    if s.link.st == Fatal then s.(fault := DanglingIterator) else s
  }

  /** Walks the table after a reconnect. */
  function Resubscribe(o: Options, s: State, ts: seq<string>, accepts: nat -> bool): State
    decreases |ts|
  {
    if ts == [] || s.fault != NoFault || ts[0] !in s.subs.active then s
    else Resubscribe(o, Trampled(ResubscribeOne(o, s, ts[0], accepts)), ts[1..], accepts)
  }

  function SubscribeOne(o: Options, s: State, t: string, accepts: nat -> bool): State
    requires t in s.subs.active
  {
    var slot := s.subs.active[t].slot;
    if slot.state == Pending && slot.inflight == 0 then SendSubscribe(o, s, t, 0, accepts) else s
  }

  /** On the first Ready: subscriptions made before it are sent. */
  function SubscribeWaiting(o: Options, s: State, ts: seq<string>, accepts: nat -> bool): State
    decreases |ts|
  {
    if ts == [] || s.fault != NoFault || ts[0] !in s.subs.active then s
    else SubscribeWaiting(o, Trampled(SubscribeOne(o, s, ts[0], accepts)), ts[1..], accepts)
  }

  function EnterReady(s: State): State {
    s.(link := Enter(s.link.(attempt := 0, total := s.link.total + 1), Ready))
  }

  /** One subscription of the barrier is done with. */
  function FinishOne(s: State): State {
    if s.link.st == Reconnecting && s.barrier.pending > 0 then
      var s1 := s.(barrier := s.barrier.(pending := s.barrier.pending - 1));
      if s1.barrier.pending == 0 && !s1.barrier.estop then EnterReady(s1) else s1
    else s
  }

  /** The server could not handle the subscribe of t. */
  function AckFailed(o: Options, s: State, t: string, code: ErrorCode): State
    requires t in s.subs.active
  {
    match Classify(code)
    case FatalCategory => AbortToFatal(s, code)
    case Transient =>
      if s.link.st == Reconnecting then OnTransportClose(o, s, code)
      else s.(subs := Retire(s.subs, t, code, code))
    case _ => FinishOne(s.(subs := Retire(s.subs, t, code, code)))
  }

  function AckAccepted(s: State, t: string, next: nat): State
    requires t in s.subs.active
  {
    FinishOne(s.(subs := WithSlot(s.subs, t, Accept(s.subs.active[t].slot, next))))
  }

  /** A refused replay falls back, once, to a subscribe from scratch; any other rejection is final. */
  function AckRejected(o: Options, s: State, t: string, reject: RejectReason, accepts: nat -> bool): State
    requires t in s.subs.active
  {
    var slot := s.subs.active[t].slot;
    if slot.semantics == Event && (reject == HistoryTooOld || reject == ReplayNotSupported) then
      if slot.retried then FinishOne(s.(subs := Retire(s.subs, t, InternalError, InternalError)))
      else SendSubscribe(o, s.(subs := WithSlot(s.subs, t, Fallback(slot))), t, 0, accepts)
    else
      FinishOne(s.(subs := Retire(s.subs, t, RejectToError(reject), RejectToError(reject))))
  }

  /** The state after an acknowledgement has been matched and before it is acted on. */
  function Matched(s: State, rid: nat): State
    requires rid in s.subs.req && s.subs.req[rid] in s.subs.active
  {
    var t := s.subs.req[rid];
    var m := s.subs.(req := s.subs.req - {rid}, timers := s.subs.timers - {rid});
    s.(subs := WithSlot(m, t, m.active[t].slot.(inflight := 0)))
  }

  function HandleSubscribeAck(o: Options, s: State, resp: Response, accepts: nat -> bool): State {
    if resp.requestId !in s.subs.req then s
    else
      var rid, t := resp.requestId, s.subs.req[resp.requestId];
      if t !in s.subs.active || s.subs.active[t].slot.inflight != rid then
        s.(subs := s.subs.(req := s.subs.req - {rid}, timers := s.subs.timers - {rid}))
      else if !resp.success then AckFailed(o, Matched(s, rid), t, resp.code)
      else if resp.accepted then AckAccepted(Matched(s, rid), t, resp.nextSeq)
      else AckRejected(o, Matched(s, rid), t, resp.reject, accepts)
  }

  /** A subscription that leaves during the barrier with its subscribe outstanding. */
  function Abandon(s: State, t: string): Barrier
    requires t in s.subs.active
  {
    if s.link.st == Reconnecting && s.wire.greeted && s.subs.active[t].slot.inflight != 0
    then s.barrier.(abandoned := s.barrier.abandoned + 1)
    else s.barrier
  }

  function OnSubscribe(o: Options, s: State, t: string, semantics: Semantics, userClosed: bool,
                       accepts: nat -> bool): State {
    var slot := NewSlot(semantics, o.policy, o.queueSize);
    if userClosed then s
    else if t in s.subs.active then
      s.(subs := s.subs.(retired := s.subs.retired + {Shut(slot, TopicAlreadySubscribed, TopicAlreadySubscribed)}))
    else
      var s1 := s.(subs := s.subs.(active := s.subs.active[t := Entry(slot, false, 0, 0)]));
      if s.link.st == Ready then SendSubscribe(o, s1, t, 0, accepts) else s1
  }

  function OnUnsubscribeAsync(s: State, t: string, open: bool, accepts: nat -> bool): State {
    if t !in s.subs.active then s
    else
      var slot := s.subs.active[t].slot;
      s.(wire := if s.link.st == Ready && s.wire.up && open && !slot.unsubSent
                 then Take(s.wire, Takes(s.wire, accepts), UnsubscribeReq(t)) else s.wire,
         subs := Retire(s.subs, t, slot.error, Ok),
         barrier := Abandon(s, t))
  }

  /** A new promise for a user call. */
  function NewCall(s: State): State {
    s.(table := s.table.(calls := s.table.calls + [[]]))
  }

  function SettleCall(s: State, c: nat, out: Outcome): State {
    s.(table := s.table.(calls := Settle(s.table.calls, c, out)))
  }

  function OnUnsubscribeSync(s: State, t: string, open: bool, accepts: nat -> bool): State {
    var c, s1 := |s.table.calls|, NewCall(s);
    if t !in s.subs.active then SettleCall(s1, c, Outcome(true, Ok))
    else if s.link.st != Ready || !s.wire.up || !open then
      SettleCall(s1.(subs := Retire(s.subs, t, Disconnected, Disconnected), barrier := Abandon(s, t)),
                 c, Outcome(false, Disconnected))
    else
      var taken := Takes(s.wire, accepts);
      var s2 := s1.(wire := Take(s.wire, taken, UnsubscribeReq(t)));
      if taken then
        s2.(table := s1.table.(rpcs := s.table.rpcs[s.wire.nextId := Unsub(c, t)]),
            subs := WithSlot(s.subs, t, s.subs.active[t].slot.(unsubSent := true)))
      else SettleCall(s2, c, Outcome(false, TransportFailure))
  }

  // ------------------------------------------------------------------------------------------
  // Requests and responses.

  function RequestOf(op: Op): Request {
    match op
    case CmdVel => CmdVelReq
    case EStop(engage) => EStopReq(engage)
    case Invoke => InvokeReq
    case Ping => PingReq
  }

  /** The request an entry of the table waits for the answer of. */
  function RequestFor(j: Job): Request {
    match j
    case Handshake(_) => HandshakeReq
    case Replay => EStopReq(true)
    case User(_, op) => RequestOf(op)
    case Unsub(_, t) => UnsubscribeReq(t)
    case HeartbeatPing => PingReq
  }

  function OnCall(s: State, op: Op, accepts: nat -> bool): State {
    var c, s1 := |s.table.calls|, NewCall(s);
    if s.link.st != Ready || !s.wire.up then SettleCall(s1, c, Outcome(false, Disconnected))
    else
      var taken := Takes(s.wire, accepts);
      var s2 := s1.(wire := Take(s.wire, taken, RequestOf(op)));
      if taken then s2.(table := s1.table.(rpcs := s.table.rpcs[s.wire.nextId := User(c, op)]))
      else SettleCall(s2, c, Outcome(false, TransportFailure))
  }

  /** The response reports success at both levels. */
  predicate Succeeds(resp: Response) {
    resp.success && (!resp.hasRpc || resp.rpcCode == Ok)
  }

  /** What a user call returns for a response. */
  function ReplyTo(op: Op, resp: Response): Outcome {
    match op
    case Ping => Outcome(true, Ok)
    case Invoke =>
      var code := if !resp.success then resp.code
                  else if !resp.hasRpc then InternalError
                  else resp.rpcCode;
      Outcome(code == Ok, code)
    case _ =>
      if !resp.success then Outcome(false, resp.code)
      else if resp.hasRpc && resp.rpcCode != Ok then Outcome(false, resp.rpcCode)
      else Outcome(true, Ok)
  }

  function DoEStopReplay(o: Options, s: State, accepts: nat -> bool): State {
    if Takes(s.wire, accepts) then
      s.(wire := Take(s.wire, true, EStopReq(true)),
         table := s.table.(rpcs := s.table.rpcs[s.wire.nextId := Replay]))
    else
      OnTransportClose(o, s.(wire := Take(s.wire, false, EStopReq(true)), barrier := s.barrier.(estop := false)),
                       TransportFailure)
  }

  /** After a reconnect handshake: the barrier opens, unless there is nothing to restore. */
  function Restore(o: Options, s: State, accepts: nat -> bool, order: seq<string>): State {
    var s1 := s.(barrier := Barrier(|s.subs.active|, s.engaged, 0));
    if |s.subs.active| == 0 && !s.engaged then EnterReady(s1)
    else
      var s2 := Resubscribe(o, s1, order, accepts);
      if s2.fault == NoFault && s2.barrier.estop then DoEStopReplay(o, s2, accepts) else s2
  }

  function CompleteHandshake(o: Options, s: State, reconnect: bool, resp: Response,
                             accepts: nat -> bool, order: seq<string>): State {
    if !resp.success || !resp.hasHandshake then
      FailConnection(o, s, if resp.success then InternalError else resp.code)
    else
      var s1 := s.(hb := Heartbeat.Start(o.heartbeat, s.hb, s.clock), wire := s.wire.(greeted := true));
      if !reconnect then SubscribeWaiting(o, s1.(link := Enter(s.link, Ready)), order, accepts)
      else Restore(o, s1, accepts, order)
  }

  function CompleteReplay(o: Options, s: State, resp: Response): State {
    var s1 := s.(barrier := s.barrier.(estop := false));
    if !Succeeds(resp) then OnTransportClose(o, s1, if resp.success then resp.rpcCode else resp.code)
    else if s1.barrier.pending == 0 then EnterReady(s1)
    else s1
  }

  function CompleteUnsubscribe(s: State, c: nat, t: string, resp: Response): State {
    var code := if resp.success then Ok else resp.code;
    SettleCall(if t in s.subs.active then s.(subs := Retire(s.subs, t, code, code)) else s, c, Outcome(code == Ok, code))
  }

  function CompleteCall(s: State, c: nat, op: Op, resp: Response): State {
    var out := ReplyTo(op, resp);
    SettleCall(if op.EStop? && out.ok then s.(engaged := op.engage) else s, c, out)
  }

  function HandleResponse(o: Options, s: State, resp: Response, accepts: nat -> bool, order: seq<string>): State {
    if resp.hasSubscribe then HandleSubscribeAck(o, s, resp, accepts)
    else if resp.requestId !in s.table.rpcs then s
    else
      var rid := resp.requestId;
      var s1 := s.(table := s.table.(rpcs := s.table.rpcs - {rid}),
                   wire := if Succeeds(resp) then s.wire.(okd := s.wire.okd + {rid}) else s.wire);
      match s.table.rpcs[rid]
      case Handshake(reconnect) => CompleteHandshake(o, s1, reconnect, resp, accepts, order)
      case Replay => CompleteReplay(o, s1, resp)
      case User(c, op) => CompleteCall(s1, c, op, resp)
      case Unsub(c, t) => CompleteUnsubscribe(s1, c, t, resp)
      case HeartbeatPing => s1
  }

  function HandlePush(s: State, t: string, p: Push): State {
    if t !in s.subs.active then s
    else s.(subs := WithSlot(s.subs, t, OnPush(s.subs.active[t].slot, p)))
  }

  // ------------------------------------------------------------------------------------------
  // Timers.

  function OnRpcTimeout(o: Options, s: State, rid: nat): State {
    if rid !in s.table.rpcs then s
    else
      var job, s1 := s.table.rpcs[rid], s.(table := s.table.(rpcs := s.table.rpcs - {rid}));
      match job
      case Handshake(_) => s1.(wire := s.wire.(up := false))
      case Replay => OnTransportClose(o, s1.(barrier := s.barrier.(estop := false)), Timeout)
      case User(c, _) => SettleCall(s1, c, Outcome(false, Timeout))
      case Unsub(c, _) => SettleCall(s1, c, Outcome(false, Timeout))
      case HeartbeatPing => s
  }

  /** The timer of subscribe request rid; held: a closed subscription that still waits for this
      acknowledgement is kept alive by its user. */
  function OnAckTimeout(o: Options, s: State, rid: nat, held: bool): State {
    if rid !in s.subs.timers then s
    else
      var t := s.subs.timers[rid];
      if held || (t in s.subs.active && s.subs.active[t].slot.inflight == rid)
      then OnTransportClose(o, s, Timeout) else s
  }

  function OnRetryTimer(o: Options, s: State, dial: Dial, accepts: nat -> bool): State {
    if s.link.retry == None || s.link.st != TransientFailure then s
    else
      var l := s.link.(attempt := s.link.retry.value, retry := None);
      EstablishConnection(o, s.(link := Enter(l, Reconnecting)), true, dial, accepts)
  }

  /** A heartbeat ping is entered in the table, then sent; a failed send closes the transport. */
  function SendHeartbeat(o: Options, s: State, accepts: nat -> bool): State {
    var s1 := s.(table := s.table.(rpcs := s.table.rpcs[s.wire.nextId := HeartbeatPing]),
                 wire := Take(s.wire, Takes(s.wire, accepts), PingReq));
    if Takes(s.wire, accepts) then s1 else OnTransportClose(o, s1, TransportFailure)
  }

  function OnIdleTimer(o: Options, s: State, open: bool, accepts: nat -> bool): State {
    if s.hb.idle == None || s.clock < s.hb.idle.value then s
    else if s.link.st != Ready then s.(hb := s.hb.(idle := None))
    else
      var (h, ask) := Heartbeat.OnIdle(o.heartbeat, s.hb, s.clock, s.wire.up && open);
      if ask == Heartbeat.SendPing then SendHeartbeat(o, s.(hb := h), accepts) else s.(hb := h)
  }

  function OnPingDeadline(o: Options, s: State, open: bool, accepts: nat -> bool): State {
    if s.hb.deadline == None || s.clock < s.hb.deadline.value then s
    else if s.link.st != Ready then s.(hb := s.hb.(deadline := None))
    else
      var (h, ask) := Heartbeat.OnDeadline(o.heartbeat, s.hb, s.clock, s.wire.up && open);
      match ask
      case DeclareDead => OnTransportClose(o, s.(hb := h), TransportFailure)
      case SendPing => SendHeartbeat(o, s.(hb := h), accepts)
      case Nothing => s.(hb := h)
  }

  // ------------------------------------------------------------------------------------------
  // Steps and runs.

  function OnClose(s: State): State {
    s.(link := Enter(s.link.(retry := None), Shutdown),
       hb := Heartbeat.Halt(s.hb),
       table := SettleAll(s.table, Outcome(false, Cancelled)),
       barrier := if HasReplay(s.table.rpcs) then s.barrier.(estop := false) else s.barrier,
       subs := ShutAll(s.subs, Cancelled),
       wire := s.wire.(up := false))
  }

  /** ts names every key of m once. */
  predicate Lists<K(==), V>(ts: seq<K>, m: map<K, V>) {
    && (forall i, j :: 0 <= i < j < |ts| ==> ts[i] != ts[j])
    && (forall i :: 0 <= i < |ts| ==> ts[i] in m)
    && (forall k <- m :: k in ts)
  }

  /** An inbound message is a sign of life. */
  function Noted(s: State): State { s.(hb := Heartbeat.OnInbound(s.hb, s.clock)) }

  /** An inbound message can only come from a socket there has been. */
  function OnInbound(o: Options, s: State, e: Event, accepts: nat -> bool, order: seq<string>): State
    requires e.Inbound? || e.Pushed?
  {
    if s.wire.conn == 0 then s
    else if e.Inbound? then HandleResponse(o, Noted(s), e.resp, accepts, order)
    else HandlePush(Noted(s), e.topic, e.push)
  }

  /** What a user asks for. */
  function HandleUser(o: Options, s: State, i: Input): State {
    match i.event
    case Connect(dial) => if s.link.st != Idle then s else EstablishConnection(o, s, false, dial, i.accepts)
    case Close => OnClose(s)
    case Subscribe(t, semantics, userClosed) => OnSubscribe(o, s, t, semantics, userClosed, i.accepts)
    case UnsubscribeAsync(t) => OnUnsubscribeAsync(s, t, i.open, i.accepts)
    case UnsubscribeSync(t) => OnUnsubscribeSync(s, t, i.open, i.accepts)
    case Call(op) => OnCall(s, op, i.accepts)
    case _ => s
  }

  /** What a timer brings. */
  function HandleTimer(o: Options, s: State, i: Input): State {
    match i.event
    case RpcTimeout(rid) => OnRpcTimeout(o, s, rid)
    case AckTimeout(rid, held) => OnAckTimeout(o, s, rid, held)
    case RetryTimer(dial) => OnRetryTimer(o, s, dial, i.accepts)
    case IdleTimer => OnIdleTimer(o, s, i.open, i.accepts)
    case PingDeadline => OnPingDeadline(o, s, i.open, i.accepts)
    case _ => s
  }

  /** What the socket brings. */
  function HandleSocket(o: Options, s: State, i: Input): State {
    match i.event
    case Inbound(_) => OnInbound(o, s, i.event, i.accepts, i.order)
    case Pushed(_, _) => OnInbound(o, s, i.event, i.accepts, i.order)
    case TransportClosed(clean) =>
      if s.wire.conn == 0 then s else OnTransportClose(o, s, if clean then Cancelled else TransportFailure)
    case _ => s
  }

  predicate FromUser(e: Event) {
    e.Connect? || e.Close? || e.Subscribe? || e.UnsubscribeAsync? || e.UnsubscribeSync? || e.Call?
  }

  predicate FromSocket(e: Event) {
    e.Inbound? || e.Pushed? || e.TransportClosed?
  }

  function Handle(o: Options, s: State, i: Input): State {
    if FromUser(i.event) then HandleUser(o, s, i)
    else if FromSocket(i.event) then HandleSocket(o, s, i)
    else HandleTimer(o, s, i)
  }

  function Tick(s: State, elapsed: nat): State { s.(clock := s.clock + elapsed) }

  /** One atomic step. An input that does not name a walk of the table is no step. */
  function Step(o: Options, s: State, i: Input): State {
    if s.fault != NoFault || !Lists(i.order, s.subs.active) then s
    else Handle(o, Tick(s, i.elapsed), i)
  }

  function RunFrom(o: Options, s: State, ins: seq<Input>): State {
    if ins == [] then s else Step(o, RunFrom(o, s, ins[..|ins| - 1]), ins[|ins| - 1])
  }

  function Run(o: Options, ins: seq<Input>): State { RunFrom(o, Initial(), ins) }
}
