/** What every call is answered: in each step, exactly which value the promise of which call is set
    to, for every way a call can end. */
module EngineReplies {
  import opened Types
  import opened Stream
  import opened Engine
  import opened EngineInvariant
  import opened EngineKernel
  import opened EngineSubscriptions
  import opened EngineSteps
  import opened EngineBarrier
  import opened EngineMemory
  import opened EngineFate
  import EngineFaults

  /** The failure a response reports, the outer one first; Ok if it reports none. */
  function Reported(resp: Response): ErrorCode {
    if !resp.success then resp.code else if resp.hasRpc then resp.rpcCode else Ok
  }

  /** A call is told the failure its response reports; a task call also needs a payload, and takes
      any code Ok for a success; a ping is content with any response. */
  predicate RightReply(op: Op, resp: Response, out: Outcome) {
    match op
    case Ping => out == Outcome(true, Ok)
    case Invoke =>
      out.code == (if resp.success && !resp.hasRpc then InternalError else Reported(resp)) && (out.ok <==> out.code == Ok)
    case _ => out.code == Reported(resp) && (out.ok <==> resp.success && out.code == Ok)
  }

  /** What an input that completes the request of call c answers it. */
  ghost predicate RightAnswer(s: State, i: Input, out: Outcome) {
    match i.event
    case RpcTimeout(_) => out == Outcome(false, Timeout)
    case Inbound(resp) =>
      resp.requestId in s.table.rpcs
      && (match s.table.rpcs[resp.requestId]
          case User(_, op) => RightReply(op, resp, out)
          case Unsub(_, _) => out.code == (if resp.success then Ok else resp.code) && (out.ok <==> out.code == Ok)
          case _ => false)
    case _ => false
  }

  lemma HeldIsWaiting(o: Options, s: State, rid: nat)
    requires Inv(o, s) && rid in s.table.rpcs && CallOf(s.table.rpcs[rid]).Some?
    ensures var c := CallOf(s.table.rpcs[rid]).value;
      c < |s.table.calls| && s.table.calls[c] == [] && s.link.st == Ready && s.wire.conn > 0
  {
    assert CallOf(s.table.rpcs[rid]).value in OpenCalls(s.table.rpcs);
  }

  lemma SettledWith(calls: seq<seq<Outcome>>, c: nat, out: Outcome)
    requires c < |calls| && calls[c] == []
    ensures Settle(calls, c, out) == calls[c := [out]]
  {
    assert [] + [out] == [out];
  }

  lemma TimeoutAnswers(o: Options, s: State, i: Input, rid: nat, c: nat)
    requires Inv(o, s) && s.fault == NoFault && Lists(i.order, s.subs.active) && i.event == RpcTimeout(rid)
    requires CallDone(s, i) == Some(c)
    ensures c < |s.table.calls| && Step(o, s, i).table.calls == s.table.calls[c := [Outcome(false, Timeout)]]
  {
    HeldIsWaiting(o, s, rid);
    SettledWith(s.table.calls, c, Outcome(false, Timeout));
  }

  lemma CallAnswers(s: State, c: nat, op: Op, resp: Response) returns (out: Outcome)
    requires c < |s.table.calls| && s.table.calls[c] == []
    ensures RightReply(op, resp, out) && CompleteCall(s, c, op, resp).table.calls == s.table.calls[c := [out]]
  {
    out := ReplyTo(op, resp);
    SettledWith(s.table.calls, c, out);
  }

  lemma UnsubscribeAnswers(s: State, c: nat, t: string, resp: Response) returns (out: Outcome)
    requires c < |s.table.calls| && s.table.calls[c] == []
    ensures out.code == (if resp.success then Ok else resp.code) && (out.ok <==> out.code == Ok)
    ensures CompleteUnsubscribe(s, c, t, resp).table.calls == s.table.calls[c := [out]]
  {
    var code := if resp.success then Ok else resp.code;
    out := Outcome(code == Ok, code);
    SettledWith(s.table.calls, c, out);
  }

  lemma ResponseAnswers(o: Options, s: State, i: Input, c: nat) returns (out: Outcome)
    requires Inv(o, s) && s.fault == NoFault && Lists(i.order, s.subs.active) && i.event.Inbound?
    requires CallDone(s, i) == Some(c)
    ensures c < |s.table.calls| && Step(o, s, i).table.calls == s.table.calls[c := [out]] && RightAnswer(s, i, out)
  {
    var resp := i.event.resp;
    var j, s1 := s.table.rpcs[resp.requestId], Taken(Noted(Tick(s, i.elapsed)), resp);
    HeldIsWaiting(o, s, resp.requestId);
    InboundStep(o, s, i);
    if j.User? {
      out := CallAnswers(s1, c, j.op, resp);
    } else {
      out := UnsubscribeAnswers(s1, c, j.topic, resp);
    }
  }

  /** What a step does to the promises of the calls that were waiting before it. */
  ghost predicate Answers(o: Options, s: State, i: Input, c: nat, outs: seq<Outcome>) {
    var s1 := Tick(s, i.elapsed);
    if i.event.Close? then outs == [Outcome(false, Cancelled)]
    else if Ending(s1, i).Some? then outs == [Outcome(false, Ending(s1, i).value)]
    else if Losing(o, s1, i).Some? then outs == [Outcome(false, Losing(o, s1, i).value)]
    else if CallDone(s, i) == Some(c) then |outs| == 1 && RightAnswer(s, i, outs[0])
    else outs == []
  }

  lemma OpenMeansReady(o: Options, s: State, c: nat)
    requires Inv(o, s) && c < |s.table.calls| && s.table.calls[c] == []
    ensures s.link.st == Ready
  {
    assert c in OpenCalls(s.table.rpcs);
  }

  lemma ReadyIsSafe(o: Options, s: State, i: Input)
    requires Inv(o, s) && s.fault == NoFault && s.link.st == Ready
    ensures Step(o, s, i).fault == NoFault && !AnswersHandshake(s, i.event)
  {
    if Step(o, s, i).fault != NoFault { EngineFaults.OnlyTheseFault(o, s, i); }
  }

  /** One step, from any reachable state, and any waiting call: cancelled by Close; failed with the
      code that ends the session or the reason that loses the connection; answered as its own
      response says, or timed out; and otherwise still waiting. */
  lemma StepAnswers(o: Options, s: State, i: Input, c: nat)
    requires Inv(o, s) && s.fault == NoFault && Lists(i.order, s.subs.active)
    requires c < |s.table.calls| && s.table.calls[c] == []
    ensures c < |Step(o, s, i).table.calls| && Answers(o, s, i, c, Step(o, s, i).table.calls[c])
  {
    OpenMeansReady(o, s, c);
    ReadyIsSafe(o, s, i);
    if i.event.Close? {
      CloseShuts(o, s, i);
    } else {
      StepFate(o, s, i);
      if CallDone(s, i) == Some(c) {
        CompletionCauses(o, s, i);
        if i.event.Inbound? { var out := ResponseAnswers(o, s, i, c); } else { TimeoutAnswers(o, s, i, i.event.rid, c); }
      }
    }
  }

  /** An input that completes a call neither ends the session nor loses the connection. */
  lemma CompletionCauses(o: Options, s: State, i: Input)
    requires CallDone(s, i).Some?
    ensures Ending(Tick(s, i.elapsed), i) == None && Losing(o, Tick(s, i.elapsed), i) == None
    ensures i.event.Inbound? || i.event.RpcTimeout?
  {
  }

  /** A new call: refused outside Ready, failed if the socket refuses its request, waiting
      otherwise, with its own request on its way. */
  lemma NewCallAnswers(o: Options, s: State, i: Input, op: Op)
    requires Inv(o, s) && s.fault == NoFault && Lists(i.order, s.subs.active) && i.event == Call(op)
    ensures var r, c := Step(o, s, i), |s.table.calls|;
      && |r.table.calls| == c + 1 && r.table.calls[..c] == s.table.calls && r.subs == s.subs && r.link == s.link
      && r.table.calls[c] == (if s.link.st != Ready then [Outcome(false, Disconnected)]
                              else if !i.accepts(s.wire.nextId) then [Outcome(false, TransportFailure)] else [])
      && (r.table.calls[c] == [] ==> r.table.rpcs == s.table.rpcs[s.wire.nextId := User(c, op)]
                                     && WasSent(r.wire, s.wire.nextId, RequestOf(op)))
  {
  }

  lemma UnsubscribeCalled(s: State, t: string, open: bool, accepts: nat -> bool)
    requires s.link.st == Ready ==> s.wire.up
    ensures var r, c := OnUnsubscribeSync(s, t, open, accepts), |s.table.calls|;
      && |r.table.calls| == c + 1 && r.table.calls[..c] == s.table.calls && r.link == s.link
      && r.table.calls[c] == (if t !in s.subs.active then [Outcome(true, Ok)]
                              else if s.link.st != Ready || !open then [Outcome(false, Disconnected)]
                              else if !accepts(s.wire.nextId) then [Outcome(false, TransportFailure)] else [])
      && (r.table.calls[c] == [] ==> r.table.rpcs == s.table.rpcs[s.wire.nextId := Unsub(c, t)]
                                     && WasSent(r.wire, s.wire.nextId, UnsubscribeReq(t)))
  {
  }

  /** The same for a synchronous unsubscribe, which has nothing to do for an unknown topic. */
  lemma NewUnsubscribeAnswers(o: Options, s: State, i: Input, t: string)
    requires Inv(o, s) && s.fault == NoFault && Lists(i.order, s.subs.active) && i.event == UnsubscribeSync(t)
    ensures var r, c := Step(o, s, i), |s.table.calls|;
      && |r.table.calls| == c + 1 && r.table.calls[..c] == s.table.calls && r.link == s.link
      && r.table.calls[c] == (if t !in s.subs.active then [Outcome(true, Ok)]
                              else if s.link.st != Ready || !i.open then [Outcome(false, Disconnected)]
                              else if !i.accepts(s.wire.nextId) then [Outcome(false, TransportFailure)] else [])
      && (r.table.calls[c] == [] ==> r.table.rpcs == s.table.rpcs[s.wire.nextId := Unsub(c, t)]
                                     && WasSent(r.wire, s.wire.nextId, UnsubscribeReq(t)))
  {
    UnsubscribeCalled(Tick(s, i.elapsed), t, i.open, i.accepts);
  }
}
