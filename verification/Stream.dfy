/** One subscription: its buffering, sequence numbers, gap reports and status stream.
    The functions on Slot specify the handlers; the class SubSlot performs them in place. */
module Stream {
  import opened Types
  import HzWindow

  /** What the user is told, in order. Opened stands for Started and Resumed; next is the
      sequence number the accepting acknowledgement promised to send next. */
  datatype Note =
    | Opened(resumed: bool, gap: Option<nat>, next: nat)
    | Gap(lost: nat)
    | Frame(push: Push)
    | PauseNote(reason: ErrorCode)
    | CloseNote(reason: ErrorCode)

  /** A subscription record; log is the history of notes raised so far. */
  datatype Slot = Slot(
    semantics: Semantics,
    policy: DropPolicy,
    cap: Capacity,
    state: SubscriptionState,
    lastSeq: nat,
    drops: nat,
    error: ErrorCode,
    buffer: seq<Push>,
    inflight: nat,
    retried: bool,
    expected: nat,
    everActive: bool,
    resuming: bool,
    unsubSent: bool,
    received: nat,
    log: seq<Note>)

  function NewSlot(semantics: Semantics, policy: DropPolicy, cap: Capacity): Slot {
    Slot(semantics, policy, cap, Pending, 0, 0, Ok, [], 0, false, 0, false, false, false, 0, [])
  }

  /** What handing over a frame does: the new position and the notes raised. A frame at or
      before the position raises none and is not handed over. */
  datatype Verdict = Verdict(lastSeq: nat, notes: seq<Note>)

  function Judge(semantics: Semantics, lastSeq: nat, p: Push): Verdict {
    if semantics == Telemetry || p.seqNo == 0 then Verdict(lastSeq, [Frame(p)])
    else if lastSeq == 0 || p.seqNo == lastSeq + 1 then Verdict(p.seqNo, [Frame(p)])
    else if p.seqNo > lastSeq + 1 then Verdict(p.seqNo, [Gap(p.seqNo - lastSeq - 1), Frame(p)])
    else Verdict(lastSeq, [])
  }

  function Deliver(s: Slot, p: Push): Slot {
    var v := Judge(s.semantics, s.lastSeq, p);
    s.(lastSeq := v.lastSeq, log := s.log + v.notes,
       received := if v.notes == [] then s.received else s.received + 1)
  }

  /** Frames the acknowledgement has already covered are skipped while draining. */
  predicate Stale(semantics: Semantics, p: Push, next: nat) {
    semantics == Event && next > 0 && p.seqNo != 0 && p.seqNo < next
  }

  function Drain(s: Slot, next: nat): Slot
    decreases |s.buffer|
  {
    if s.buffer == [] then s
    else
      var p, s1 := s.buffer[0], s.(buffer := s.buffer[1..]);
      Drain(if Stale(s.semantics, p, next) then s1.(drops := s.drops + 1) else Deliver(s1, p), next)
  }

  function Buffer(s: Slot, p: Push): Slot {
    if |s.buffer| < s.cap then s.(buffer := s.buffer + [p])
    else if s.policy == DropNewest then s.(drops := s.drops + 1)
    else s.(drops := s.drops + 1, buffer := (if s.buffer == [] then [] else s.buffer[1..]) + [p])
  }

  function OnPush(s: Slot, p: Push): Slot {
    match s.state
    case Closed => s
    case Pending => Buffer(s, p)
    case Paused => s.(drops := s.drops + 1)
    case Active => Deliver(s, p)
  }

  /** A subscribe request numbered rid goes out; telemetry never asks for a replay. */
  function BeginSubscribe(s: Slot, since: nat, rid: nat, reconnecting: bool): Slot {
    s.(expected := if s.semantics == Telemetry then 0 else since,
       resuming := s.state == Paused || (s.everActive && reconnecting),
       state := Pending,
       inflight := rid)
  }

  /** The sequence number held after an ack that promises next. */
  function AckedSeq(s: Slot, next: nat): nat {
    if s.semantics == Event && s.expected != 0 && next == s.expected then s.lastSeq
    else if s.semantics == Event && next >= 1 then next - 1
    else 0
  }

  /** The loss an ack reports: none can be told without a replay request or after a restart. */
  function AckedGap(s: Slot, next: nat): Option<nat> {
    if s.semantics == Event && s.expected != 0 && next >= s.expected then Some(next - s.expected) else None
  }

  /** The slot after an accepting ack, before its buffer is drained. */
  function Open(s: Slot, next: nat): Slot {
    var resumed := s.resuming || (s.semantics == Event && s.expected != 0);
    s.(lastSeq := AckedSeq(s, next), state := Active, log := s.log + [Opened(resumed, AckedGap(s, next), next)])
  }

  function Accept(s: Slot, next: nat): Slot {
    Drain(Open(s, next), if s.semantics == Telemetry then 0 else next).(everActive := true, resuming := false)
  }

  /** The replay was refused: forget the position and ask once more from scratch. */
  function Fallback(s: Slot): Slot {
    s.(lastSeq := 0, expected := 0, retried := true)
  }

  function Pause(s: Slot, reason: ErrorCode): Slot {
    s.(state := Paused, buffer := [], inflight := 0,
       log := if s.state == Active || s.state == Pending then s.log + [PauseNote(reason)] else s.log)
  }

  function Shut(s: Slot, error: ErrorCode, reason: ErrorCode): Slot {
    s.(state := Closed, error := error, log := s.log + [CloseNote(reason)])
  }

  // ------------------------------------------------------------------------------------------
  // Reading the notes: an account of a subscription that looks only at its log.

  /** The numbered frames handed over since the last Opened note that carries no gap count. */
  function EpochSeqs(log: seq<Note>): seq<nat> {
    if log == [] then []
    else
      var front := EpochSeqs(log[..|log| - 1]);
      match log[|log| - 1]
      case Opened(_, None, _) => []
      case Frame(p) => if p.seqNo == 0 then front else front + [p.seqNo]
      case _ => front
  }

  /** The losses reported since then. */
  function EpochLost(log: seq<Note>): nat {
    if log == [] then 0
    else
      var front := EpochLost(log[..|log| - 1]);
      match log[|log| - 1]
      case Opened(_, None, _) => 0
      case Opened(_, Some(g), _) => front + g
      case Gap(n) => front + n
      case _ => front
  }

  /** The position the epoch starts from: one before the number the ack promised, or, if that
      number was 0 or 1, one before the first numbered frame. */
  function EpochBase(log: seq<Note>): Option<nat> {
    if log == [] then None
    else
      var front := EpochBase(log[..|log| - 1]);
      match log[|log| - 1]
      case Opened(_, None, next) => if next >= 2 then Some(next - 1) else None
      case Frame(p) => if p.seqNo != 0 && front == None then Some(p.seqNo - 1) else front
      case _ => front
  }

  /** The number promised by the last opening without a gap count; 0 before any. */
  function EpochPromise(log: seq<Note>): nat {
    if log == [] then 0
    else
      match log[|log| - 1]
      case Opened(_, None, next) => next
      case _ => EpochPromise(log[..|log| - 1])
  }

  /** Frames lost after that opening that no note reports. */
  function Unreported(log: seq<Note>): int {
    if EpochPromise(log) <= 1 && EpochSeqs(log) != [] then EpochSeqs(log)[0] as int - 1 else 0
  }

  datatype Phase = Silent | Flowing | Over | Broken

  /** The order a user may rely on: frames and gaps only while flowing, no second Opened without
      a pause between, nothing after Closed. */
  function PhaseOf(log: seq<Note>): Phase {
    if log == [] then Silent
    else
      match (PhaseOf(log[..|log| - 1]), log[|log| - 1])
      case (Silent, Opened(_, _, _)) => Flowing
      case (Silent, PauseNote(_)) => Silent
      case (Flowing, PauseNote(_)) => Silent
      case (Flowing, Frame(_)) => Flowing
      case (Flowing, Gap(_)) => Flowing
      case (Silent, CloseNote(_)) => Over
      case (Flowing, CloseNote(_)) => Over
      case _ => Broken
  }

  predicate UpTo(qs: seq<nat>, last: nat) {
    forall i :: 0 <= i < |qs| ==> qs[i] <= last
  }

  predicate Increasing(qs: seq<nat>) {
    forall i, j :: 0 <= i < j < |qs| ==> qs[i] < qs[j]
  }

  // ------------------------------------------------------------------------------------------
  // The invariant of a slot.

  predicate GrammarInv(s: Slot) {
    PhaseOf(s.log) == match s.state
                      case Active => Flowing
                      case Closed => Over
                      case _ => Silent
  }

  /** The account of the log agrees with the position: nothing between base and lastSeq is
      missing from it, and nothing is handed over twice or out of order. */
  predicate Balanced(log: seq<Note>, lastSeq: nat) {
    && (match EpochBase(log)
        case Some(base) => lastSeq > 0 && base + |EpochSeqs(log)| + EpochLost(log) == lastSeq
        case None => lastSeq == 0 && EpochSeqs(log) == [] && EpochLost(log) == 0)
    && Increasing(EpochSeqs(log))
    && UpTo(EpochSeqs(log), lastSeq)
  }

  /** The position counts while the stream flows, and while it is kept for a replay. */
  predicate Positioned(s: Slot) {
    s.semantics == Event && (s.state == Active || s.lastSeq > 0)
  }

  predicate SlotInv(s: Slot) {
    && GrammarInv(s)
    && (Positioned(s) ==> Balanced(s.log, s.lastSeq))
    && (s.state == Pending && s.expected != 0 ==>
          s.semantics == Event && s.lastSeq > 0 && s.expected == s.lastSeq + 1)
    && (s.state == Active || s.state == Paused ==> s.buffer == [])
    && |s.buffer| <= s.cap
  }

  /** A promise of 2 or more is a position; after any other the first numbered frame sets it. */
  lemma {:induction false} BaseFollowsPromise(log: seq<Note>)
    ensures forall i :: 0 <= i < |EpochSeqs(log)| ==> EpochSeqs(log)[i] > 0
    ensures EpochBase(log) == if EpochPromise(log) >= 2 then Some(EpochPromise(log) - 1)
                              else if EpochSeqs(log) == [] then None else Some(EpochSeqs(log)[0] - 1)
  {
    if log != [] {
      BaseFollowsPromise(log[..|log| - 1]);
    }
  }

  /** The account against what the server promised to send next: frames, reported losses and
      unreported ones reach from the promised number to the last. Losses go unreported exactly
      when the promise was 0 or 1 and the first numbered frame is beyond 1. */
  lemma AgainstPromise(log: seq<Note>, lastSeq: nat)
    requires Balanced(log, lastSeq) && lastSeq > 0
    ensures var promised := if EpochPromise(log) == 0 then 1 else EpochPromise(log);
      promised - 1 + |EpochSeqs(log)| + EpochLost(log) + Unreported(log) == lastSeq
    ensures 0 <= Unreported(log)
    ensures Unreported(log) > 0 <==> EpochPromise(log) <= 1 && EpochSeqs(log) != [] && EpochSeqs(log)[0] > 1
  {
    BaseFollowsPromise(log);
  }

  lemma NewSlotInv(semantics: Semantics, policy: DropPolicy, cap: Capacity)
    ensures SlotInv(NewSlot(semantics, policy, cap))
  {
  }

  /** The three accounts after one more note. */
  lemma Snoc(log: seq<Note>, n: Note)
    ensures (log + [n])[..|log|] == log && (log + [n])[|log|] == n
  {
  }

  /** What delivery keeps: the flow, and a balanced account. */
  predicate Flow(semantics: Semantics, log: seq<Note>, lastSeq: nat) {
    PhaseOf(log) == Flowing && (semantics == Event ==> Balanced(log, lastSeq))
  }

  predicate Delivering(s: Slot) {
    s.state == Active && Flow(s.semantics, s.log, s.lastSeq)
  }

  lemma PlainFrameFlows(semantics: Semantics, log: seq<Note>, lastSeq: nat, p: Push)
    requires Flow(semantics, log, lastSeq) && (semantics == Telemetry || p.seqNo == 0)
    ensures Flow(semantics, log + [Frame(p)], lastSeq)
  {
    Snoc(log, Frame(p));
  }

  /** A numbered frame that follows the position directly, or that sets it. */
  lemma NextFrameFlows(log: seq<Note>, lastSeq: nat, p: Push)
    requires Flow(Event, log, lastSeq) && p.seqNo != 0
    requires lastSeq == 0 || p.seqNo == lastSeq + 1
    ensures Flow(Event, log + [Frame(p)], p.seqNo)
  {
    Snoc(log, Frame(p));
    var before, after := EpochSeqs(log), EpochSeqs(log + [Frame(p)]);
    assert after == before + [p.seqNo];
    assert Increasing(after);
  }

  lemma GapFlows(log: seq<Note>, lastSeq: nat, lost: nat)
    requires Flow(Event, log, lastSeq) && lastSeq > 0
    ensures Flow(Event, log + [Gap(lost)], lastSeq + lost)
  {
    Snoc(log, Gap(lost));
    assert EpochSeqs(log + [Gap(lost)]) == EpochSeqs(log);
  }

  lemma JudgeFlows(semantics: Semantics, log: seq<Note>, lastSeq: nat, p: Push)
    requires Flow(semantics, log, lastSeq)
    ensures var v := Judge(semantics, lastSeq, p);
      && Flow(semantics, log + v.notes, v.lastSeq)
      && (if semantics == Event && 0 < p.seqNo <= lastSeq then v.notes == []
          else v.notes != [] && v.notes[|v.notes| - 1] == Frame(p))
  {
    if semantics == Telemetry || p.seqNo == 0 {
      PlainFrameFlows(semantics, log, lastSeq, p);
    } else if lastSeq == 0 || p.seqNo == lastSeq + 1 {
      NextFrameFlows(log, lastSeq, p);
    } else if p.seqNo > lastSeq + 1 {
      var lost := p.seqNo - lastSeq - 1;
      GapFlows(log, lastSeq, lost);
      NextFrameFlows(log + [Gap(lost)], lastSeq + lost, p);
      assert log + [Gap(lost), Frame(p)] == log + [Gap(lost)] + [Frame(p)];
    } else {
      assert log + [] == log;
    }
  }

  lemma DeliverKeeps(s: Slot, p: Push)
    requires Flow(s.semantics, s.log, s.lastSeq)
    ensures var r := Deliver(s, p);
      && Flow(s.semantics, r.log, r.lastSeq)
      && r == s.(lastSeq := r.lastSeq, received := r.received, log := r.log)
  {
    JudgeFlows(s.semantics, s.log, s.lastSeq, p);
  }

  lemma {:induction false} DrainKeeps(s: Slot, next: nat)
    requires Flow(s.semantics, s.log, s.lastSeq)
    ensures var r := Drain(s, next);
      && Flow(s.semantics, r.log, r.lastSeq)
      && r == s.(buffer := [], lastSeq := r.lastSeq, drops := r.drops, received := r.received, log := r.log)
    decreases |s.buffer|
  {
    if s.buffer != [] {
      var p, s1 := s.buffer[0], s.(buffer := s.buffer[1..]);
      DeliverKeeps(s1, p);
      DrainKeeps(if Stale(s.semantics, p, next) then s1.(drops := s.drops + 1) else Deliver(s1, p), next);
    }
  }

  lemma ActivePushKeeps(s: Slot, p: Push)
    requires SlotInv(s) && s.state == Active
    ensures SlotInv(Deliver(s, p))
  {
    DeliverKeeps(s, p);
  }

  lemma HeldPushKeeps(s: Slot, drops: nat, buffer: seq<Push>)
    requires SlotInv(s) && s.state != Active && (s.state == Paused ==> buffer == []) && |buffer| <= s.cap
    ensures SlotInv(s.(drops := drops, buffer := buffer))
  {
  }

  /** A paused subscription counts every push as dropped; a closed one ignores it. */
  lemma HeldPushCounts(s: Slot, p: Push)
    ensures s.state == Paused ==> OnPush(s, p) == s.(drops := s.drops + 1)
    ensures s.state == Closed ==> OnPush(s, p) == s
  {
  }

  lemma OnPushKeeps(s: Slot, p: Push)
    requires SlotInv(s)
    ensures SlotInv(OnPush(s, p)) && OnPush(s, p).state == s.state
  {
    match s.state
    case Active => ActivePushKeeps(s, p);
    case Paused => HeldPushKeeps(s, s.drops + 1, s.buffer);
    case Closed =>
    case Pending =>
      var r := Buffer(s, p);
      HeldPushKeeps(s, r.drops, r.buffer);
      assert r == s.(drops := r.drops, buffer := r.buffer);
  }

  /** An opening without a gap count restarts the account at the promised number. */
  lemma RestartBalances(log: seq<Note>, resumed: bool, next: nat)
    ensures Balanced(log + [Opened(resumed, None, next)], if next >= 1 then next - 1 else 0)
  {
    Snoc(log, Opened(resumed, None, next));
  }

  /** An opening with a gap count extends it. */
  lemma ResumeBalances(log: seq<Note>, lastSeq: nat, gap: nat, resumed: bool, next: nat)
    requires Balanced(log, lastSeq) && lastSeq > 0
    ensures Balanced(log + [Opened(resumed, Some(gap), next)], lastSeq + gap)
  {
    Snoc(log, Opened(resumed, Some(gap), next));
    assert EpochSeqs(log + [Opened(resumed, Some(gap), next)]) == EpochSeqs(log);
  }

  lemma OpenFlows(log: seq<Note>, resumed: bool, gap: Option<nat>, next: nat)
    requires PhaseOf(log) == Silent
    ensures PhaseOf(log + [Opened(resumed, gap, next)]) == Flowing
  {
    Snoc(log, Opened(resumed, gap, next));
  }

  lemma OpenBalances(s: Slot, next: nat)
    requires SlotInv(s) && s.state == Pending && s.semantics == Event
    ensures Balanced(Open(s, next).log, Open(s, next).lastSeq)
  {
    var resumed := s.resuming || s.expected != 0;
    if s.expected != 0 && next >= s.expected {
      ResumeBalances(s.log, s.lastSeq, next - s.expected, resumed, next);
    } else {
      RestartBalances(s.log, resumed, next);
    }
  }

  lemma OpenKeeps(s: Slot, next: nat)
    requires SlotInv(s) && s.state == Pending
    ensures Delivering(Open(s, next))
  {
    OpenFlows(s.log, s.resuming || (s.semantics == Event && s.expected != 0), AckedGap(s, next), next);
    if s.semantics == Event {
      OpenBalances(s, next);
    }
  }

  /** The answer to a replay request: if the server goes on at or after the number asked for, the
      account continues and the numbers in between are reported as lost; if it has fallen back,
      the account starts anew and nothing is reported. */
  lemma ResumeContinues(s: Slot, next: nat)
    requires SlotInv(s) && s.state == Pending && s.expected != 0
    ensures var r := Open(s, next);
      if next > s.lastSeq then
        && EpochBase(r.log) == EpochBase(s.log) && EpochSeqs(r.log) == EpochSeqs(s.log)
        && EpochLost(r.log) == EpochLost(s.log) + (next - s.lastSeq - 1) && r.lastSeq == next - 1
      else
        && EpochSeqs(r.log) == [] && EpochLost(r.log) == 0 && r.lastSeq <= next
  {
    Snoc(s.log, Opened(true, AckedGap(s, next), next));
  }

  lemma AcceptKeeps(s: Slot, next: nat)
    requires SlotInv(s) && s.state == Pending
    ensures SlotInv(Accept(s, next)) && Accept(s, next).state == Active
    ensures var r := Accept(s, next);
      r == s.(state := Active, buffer := [], lastSeq := r.lastSeq, drops := r.drops,
              received := r.received, log := r.log, everActive := true, resuming := false)
  {
    OpenKeeps(s, next);
    DrainKeeps(Open(s, next), if s.semantics == Telemetry then 0 else next);
  }

  /** A subscribe may ask for a replay only from the position held. */
  lemma BeginSubscribeKeeps(s: Slot, since: nat, rid: nat, reconnecting: bool)
    requires SlotInv(s) && (s.state == Pending || s.state == Paused)
    requires since == 0 || (s.lastSeq > 0 && since == s.lastSeq + 1)
    ensures SlotInv(BeginSubscribe(s, since, rid, reconnecting))
  {
  }

  lemma FallbackKeeps(s: Slot)
    requires SlotInv(s) && s.state == Pending
    ensures SlotInv(Fallback(s))
  {
  }

  lemma PauseKeeps(s: Slot, reason: ErrorCode)
    requires SlotInv(s) && s.state != Closed
    ensures SlotInv(Pause(s, reason))
    ensures var r := Pause(s, reason);
      r == s.(state := Paused, buffer := [], inflight := 0, log := r.log)
      && r.log == s.log + (if s.state == Paused then [] else [PauseNote(reason)])
  {
    Snoc(s.log, PauseNote(reason));
  }

  lemma ShutKeeps(s: Slot, error: ErrorCode, reason: ErrorCode)
    requires SlotInv(s) && s.state != Closed
    ensures SlotInv(Shut(s, error, reason))
  {
    Snoc(s.log, CloseNote(reason));
  }

  // ------------------------------------------------------------------------------------------
  // The race between frames and the acknowledgement.

  function PushAll(s: Slot, ps: seq<Push>): Slot {
    if ps == [] then s else OnPush(PushAll(s, ps[..|ps| - 1]), ps[|ps| - 1])
  }

  /** What a buffer of capacity cap keeps of the frames that arrive. */
  function Kept(policy: DropPolicy, cap: Capacity, ps: seq<Push>): seq<Push> {
    if |ps| <= cap then ps
    else if policy == DropOldest then ps[|ps| - cap..]
    else ps[..cap]
  }

  lemma KeptSnoc(policy: DropPolicy, cap: Capacity, ps: seq<Push>, p: Push)
    ensures var kept, kept' := Kept(policy, cap, ps), Kept(policy, cap, ps + [p]);
      if |kept| < cap then kept' == kept + [p]
      else if policy == DropNewest then kept' == kept
      else kept' == kept[1..] + [p]
  {
  }

  /** While pending, the buffer is exactly the last, or first, cap frames, and every other frame
      is counted as dropped. */
  lemma {:induction false} BufferKeeps(s: Slot, ps: seq<Push>)
    requires s.state == Pending && |s.buffer| <= s.cap
    ensures var kept := Kept(s.policy, s.cap, s.buffer + ps);
      PushAll(s, ps) == s.(buffer := kept, drops := s.drops + |s.buffer| + |ps| - |kept|)
  {
    if ps == [] {
      assert s.buffer + [] == s.buffer;
    } else {
      var k := |ps| - 1;
      BufferKeeps(s, ps[..k]);
      KeptSnoc(s.policy, s.cap, s.buffer + ps[..k], ps[k]);
      assert s.buffer + ps == s.buffer + ps[..k] + [ps[k]];
    }
  }

  /** How many of the frames an ack promising next makes stale. */
  function StaleCount(semantics: Semantics, ps: seq<Push>, next: nat): nat {
    if ps == [] then 0 else (if Stale(semantics, ps[0], next) then 1 else 0) + StaleCount(semantics, ps[1..], next)
  }

  function DeliverAll(s: Slot, ps: seq<Push>): Slot
    decreases |ps|
  {
    if ps == [] then s else DeliverAll(Deliver(s, ps[0]), ps[1..])
  }

  lemma StaleIgnored(s: Slot, p: Push, next: nat)
    requires Stale(s.semantics, p, next) && s.lastSeq + 1 >= next
    ensures Deliver(s, p) == s
  {
    assert s.log + [] == s.log;
  }

  lemma DrainSkips(s: Slot, buf: seq<Push>, next: nat)
    requires buf != [] && Stale(s.semantics, buf[0], next)
    ensures Drain(s.(buffer := buf), next) == Drain(s.(buffer := buf[1..], drops := s.drops + 1), next)
  {
  }

  lemma DrainHandsOver(s: Slot, buf: seq<Push>, next: nat)
    requires s.buffer == [] && buf != [] && !Stale(s.semantics, buf[0], next)
    ensures Drain(s.(buffer := buf), next) == Drain(Deliver(s, buf[0]).(buffer := buf[1..]), next)
  {
    assert Deliver(s.(buffer := buf[1..]), buf[0]) == Deliver(s, buf[0]).(buffer := buf[1..]);
  }

  /** Draining buf delivers it, but for what the stale frames add to the drop count. */
  predicate Delivers(s: Slot, buf: seq<Push>, next: nat) {
    Drain(s.(buffer := buf), next) == DeliverAll(s, buf).(drops := s.drops + StaleCount(s.semantics, buf, next))
  }

  lemma StaleDelivers(s: Slot, buf: seq<Push>, next: nat)
    requires s.buffer == [] && (s.semantics == Event && next > 0 ==> s.lastSeq + 1 >= next)
    requires buf != [] && Stale(s.semantics, buf[0], next) && Delivers(s.(drops := s.drops + 1), buf[1..], next)
    ensures Delivers(s, buf, next)
  {
    DrainSkips(s, buf, next);
    StaleIgnored(s, buf[0], next);
    assert DeliverAll(s, buf) == DeliverAll(s, buf[1..]);
    DeliverAllDrops(s, s.drops + 1, buf[1..]);
  }

  lemma FreshDelivers(s: Slot, buf: seq<Push>, next: nat)
    requires s.buffer == [] && buf != [] && !Stale(s.semantics, buf[0], next)
    requires Delivers(Deliver(s, buf[0]), buf[1..], next)
    ensures Delivers(s, buf, next)
  {
    DrainHandsOver(s, buf, next);
    assert DeliverAll(s, buf) == DeliverAll(Deliver(s, buf[0]), buf[1..]);
  }

  /** A stale frame would be ignored anyway: the skip in the drain shows only in the drop count. */
  lemma {:induction false} DrainDelivers(s: Slot, buf: seq<Push>, next: nat)
    requires s.buffer == [] && (s.semantics == Event && next > 0 ==> s.lastSeq + 1 >= next)
    ensures Delivers(s, buf, next)
    decreases |buf|
  {
    if buf == [] {
    } else if Stale(s.semantics, buf[0], next) {
      DrainDelivers(s.(drops := s.drops + 1), buf[1..], next);
      StaleDelivers(s, buf, next);
    } else {
      DrainDelivers(Deliver(s, buf[0]), buf[1..], next);
      FreshDelivers(s, buf, next);
    }
  }

  /** Delivery neither reads nor changes the drop count. */
  lemma {:induction false} DeliverAllDrops(s: Slot, drops: nat, ps: seq<Push>)
    ensures DeliverAll(s.(drops := drops), ps) == DeliverAll(s, ps).(drops := drops)
    decreases |ps|
  {
    if ps != [] { DeliverAllDrops(Deliver(s, ps[0]), drops, ps[1..]); }
  }

  lemma {:induction false} PushAllActive(s: Slot, ps: seq<Push>)
    requires s.state == Active
    ensures PushAll(s, ps) == DeliverAll(s, ps) && PushAll(s, ps).state == Active
  {
    if ps != [] {
      var k := |ps| - 1;
      PushAllActive(s, ps[..k]);
      DeliverAllSnoc(s, ps[..k], ps[k]);
      assert ps == ps[..k] + [ps[k]];
    }
  }

  lemma {:induction false} DeliverAllSnoc(s: Slot, ps: seq<Push>, p: Push)
    ensures DeliverAll(s, ps + [p]) == Deliver(DeliverAll(s, ps), p)
    decreases |ps|
  {
    if ps == [] {
      assert [] + [p] == [p];
      assert DeliverAll(s, [p]) == DeliverAll(Deliver(s, p), []);
    } else {
      DeliverAllSnoc(Deliver(s, ps[0]), ps[1..], p);
      assert (ps + [p])[1..] == ps[1..] + [p];
    }
  }

  /** Frames that overtake the accepting ack, those already buffered and those still to come,
      are seen exactly as if the ack had come first and the frames the buffer kept had followed
      it; only the drop count tells the difference. */
  lemma RaceInvisible(s: Slot, ps: seq<Push>, next: nat)
    requires SlotInv(s) && s.state == Pending
    ensures var kept := Kept(s.policy, s.cap, s.buffer + ps);
      var overtaken := Accept(PushAll(s, ps), next);
      var inOrder := PushAll(Accept(s.(buffer := []), next), kept);
      && overtaken == inOrder.(drops := overtaken.drops)
      && overtaken.drops == inOrder.drops + (|s.buffer| + |ps| - |kept|)
                            + StaleCount(s.semantics, kept, if s.semantics == Telemetry then 0 else next)
  {
    var kept := Kept(s.policy, s.cap, s.buffer + ps);
    BufferKeeps(s, ps);
    AckAfterFrames(PushAll(s, ps), s, next);
    AckBeforeFrames(s.(buffer := []), kept, next);
  }

  /** Accepting with a full buffer: the buffered frames are delivered after the opening. */
  lemma AckAfterFrames(late: Slot, s: Slot, next: nat)
    requires SlotInv(s) && s.state == Pending && late == s.(buffer := late.buffer, drops := late.drops)
    ensures var from := if s.semantics == Telemetry then 0 else next;
      Accept(late, next)
      == DeliverAll(Open(s.(buffer := []), next), late.buffer)
           .(drops := late.drops + StaleCount(s.semantics, late.buffer, from), everActive := true, resuming := false)
  {
    var from := if s.semantics == Telemetry then 0 else next;
    var open, early := Open(late, next), Open(s.(buffer := []), next);
    DrainDelivers(open.(buffer := []), late.buffer, from);
    assert open.(buffer := []) == early.(drops := open.drops);
    DeliverAllDrops(early, open.drops, late.buffer);
  }

  /** Accepting with an empty buffer, frames afterwards. */
  lemma AckBeforeFrames(s: Slot, ps: seq<Push>, next: nat)
    requires s.buffer == []
    ensures PushAll(Accept(s, next), ps)
         == DeliverAll(Open(s, next), ps).(drops := s.drops, everActive := true, resuming := false)
  {
    AcceptedDelivery(Open(s, next), ps);
    PushAllActive(Accept(s, next), ps);
    DeliverAllDropsCount(Open(s, next), ps);
  }

  /** The two flags an ack sets do not matter to delivery. */
  lemma {:induction false} AcceptedDelivery(s: Slot, ps: seq<Push>)
    ensures DeliverAll(s.(everActive := true, resuming := false), ps)
         == DeliverAll(s, ps).(everActive := true, resuming := false)
    decreases |ps|
  {
    if ps != [] { AcceptedDelivery(Deliver(s, ps[0]), ps[1..]); }
  }

  lemma {:induction false} DeliverAllDropsCount(s: Slot, ps: seq<Push>)
    ensures DeliverAll(s, ps).drops == s.drops
    decreases |ps|
  {
    if ps != [] { DeliverAllDropsCount(Deliver(s, ps[0]), ps[1..]); }
  }

  // ------------------------------------------------------------------------------------------
  // The record changed in place.

  /** n deliveries in second sec, as the rate counter logs them. */
  function Times(n: nat, sec: int): (r: seq<int>)
    ensures |r| == n && forall i :: 0 <= i < n ==> r[i] == sec
  {
    if n == 0 then [] else Times(n - 1, sec) + [sec]
  }

  class SubSlot {
    const semantics: Semantics
    const policy: DropPolicy
    const cap: Capacity
    const hz: HzWindow.HzBuckets
    var state: SubscriptionState
    var lastSeq: nat
    var drops: nat
    var error: ErrorCode
    var buffer: seq<Push>
    var inflight: nat
    var retried: bool
    var expected: nat
    var everActive: bool
    var resuming: bool
    var unsubSent: bool
    var received: nat
    ghost var log: seq<Note>

    ghost function View(): Slot
      reads this
    {
      Slot(semantics, policy, cap, state, lastSeq, drops, error, buffer, inflight, retried,
           expected, everActive, resuming, unsubSent, received, log)
    }

    /** The rate counter is in order and not ahead of the clock reading. */
    ghost predicate Ticking(nowMs: int)
      reads hz, hz.buckets
    {
      hz.Valid() && 0 < nowMs && hz.epochMs / 1000 <= nowMs / 1000
    }

    constructor (semantics: Semantics, policy: DropPolicy, cap: Capacity)
      ensures View() == NewSlot(semantics, policy, cap)
      ensures fresh(hz) && fresh(hz.buckets) && hz.Valid() && hz.log == []
    {
      this.semantics, this.policy, this.cap := semantics, policy, cap;
      hz := new HzWindow.HzBuckets();
      state, lastSeq, drops, error, buffer := Pending, 0, 0, Ok, [];
      inflight, retried, expected, everActive, resuming := 0, false, 0, false, false;
      unsubSent, received, log := false, 0, [];
    }

    method FireStatus(n: Note)
      modifies this`log
      ensures log == old(log) + [n]
    {
      log := log + [n];
    }

    /** A frame reaches the rate counter exactly when it reaches the user. */
    method DeliverPushToSub(p: Push, nowMs: int)
      requires Ticking(nowMs)
      modifies this, hz, hz.buckets
      ensures View() == Deliver(old(View()), p) && Ticking(nowMs)
      ensures received >= old(received) && hz.log == old(hz.log) + Times(received - old(received), nowMs / 1000)
    {
      if semantics == Event {
        if p.seqNo == 0 {
        } else if lastSeq == 0 {
          lastSeq := p.seqNo;
        } else if p.seqNo == lastSeq + 1 {
          lastSeq := p.seqNo;
        } else if p.seqNo > lastSeq + 1 {
          var lost := p.seqNo - lastSeq - 1;
          lastSeq := p.seqNo;
          FireStatus(Gap(lost));
        } else {
          assert log == log + [];
          return;
        }
      }
      received := received + 1;
      hz.Record(nowMs);
      log := log + [Frame(p)];
    }

    method DrainPendingBuffer(next: nat, nowMs: int)
      requires Ticking(nowMs)
      modifies this, hz, hz.buckets
      ensures View() == Drain(old(View()), next) && Ticking(nowMs)
      ensures received >= old(received) && hz.log == old(hz.log) + Times(received - old(received), nowMs / 1000)
    {
      while buffer != []
        invariant Ticking(nowMs)
        invariant Drain(View(), next) == old(Drain(View(), next))
        invariant received >= old(received) && hz.log == old(hz.log) + Times(received - old(received), nowMs / 1000)
        decreases |buffer|
      {
        var front := buffer[0];
        buffer := buffer[1..];
        if semantics == Event && next > 0 && front.seqNo != 0 && front.seqNo < next {
          drops := drops + 1;
        } else {
          DeliverPushToSub(front, nowMs);
        }
      }
    }

    method HandlePush(p: Push, nowMs: int)
      requires Ticking(nowMs)
      modifies this, hz, hz.buckets
      ensures View() == OnPush(old(View()), p) && Ticking(nowMs)
      ensures received >= old(received) && hz.log == old(hz.log) + Times(received - old(received), nowMs / 1000)
    {
      if state == Closed { return; }
      if state == Pending {
        if |buffer| >= cap {
          if policy == DropNewest {
            drops := drops + 1;
            return;
          }
          if buffer != [] { buffer := buffer[1..]; }
          drops := drops + 1;
        }
        buffer := buffer + [p];
        return;
      }
      if state == Paused {
        drops := drops + 1;
        return;
      }
      DeliverPushToSub(p, nowMs);
    }

    method MarkSubscribing(since: nat, rid: nat, reconnecting: bool)
      modifies this
      ensures View() == BeginSubscribe(old(View()), since, rid, reconnecting)
    {
      expected := if semantics == Telemetry then 0 else since;
      resuming := state == Paused || (everActive && reconnecting);
      state := Pending;
      inflight := rid;
    }

    method OpenTelemetry(next: nat)
      requires semantics == Telemetry
      modifies this
      ensures View() == Open(old(View()), next)
    {
      lastSeq := 0;
      state := Active;
      FireStatus(Opened(resuming, None, next));
    }

    method OpenEvent(next: nat)
      requires semantics == Event
      modifies this
      ensures View() == Open(old(View()), next)
    {
      var resumed, gap := resuming, None;
      if expected == 0 {
        lastSeq := if next >= 1 then next - 1 else 0;
      } else {
        resumed := true;
        if next == expected {
          gap := Some(0);
        } else if next > expected {
          gap := Some(next - expected);
          lastSeq := next - 1;
        } else {
          lastSeq := if next >= 1 then next - 1 else 0;
        }
      }
      state := Active;
      FireStatus(Opened(resumed, gap, next));
    }

    /** The accepting half of the acknowledgement handler. */
    method HandleAccepted(next: nat, nowMs: int)
      requires Ticking(nowMs)
      modifies this, hz, hz.buckets
      ensures View() == Accept(old(View()), next) && Ticking(nowMs)
      ensures received >= old(received) && hz.log == old(hz.log) + Times(received - old(received), nowMs / 1000)
    {
      if semantics == Telemetry {
        OpenTelemetry(next);
        DrainPendingBuffer(0, nowMs);
      } else {
        OpenEvent(next);
        DrainPendingBuffer(next, nowMs);
      }
      everActive := true;
      resuming := false;
    }

    method MarkPaused(reason: ErrorCode)
      modifies this
      ensures View() == Pause(old(View()), reason)
    {
      var prev := state;
      state := Paused;
      if prev == Active || prev == Pending {
        FireStatus(PauseNote(reason));
      }
      buffer := [];
      inflight := 0;
    }

    method MarkClosed(error: ErrorCode, reason: ErrorCode)
      modifies this
      ensures View() == Shut(old(View()), error, reason)
    {
      state := Closed;
      this.error := error;
      FireStatus(CloseNote(reason));
    }
  }
}
