/** Which frames a subscription hands over and which gaps it reports, said of the pushes alone:
    everything of a telemetry stream; of an event stream what is unnumbered or runs ahead of all
    that came before, with a gap exactly where numbers are missing. */
module StreamDelivery {
  import opened Types
  import opened Stream

  /** The frames among the notes. */
  function Frames(log: seq<Note>): seq<Push> {
    if log == [] then []
    else Frames(log[..|log| - 1]) + (if log[|log| - 1].Frame? then [log[|log| - 1].push] else [])
  }

  /** The highest number of the frames, if it exceeds start. */
  function Highest(start: nat, ps: seq<Push>): nat {
    if ps == [] then start
    else
      var h := Highest(start, ps[..|ps| - 1]);
      if ps[|ps| - 1].seqNo > h then ps[|ps| - 1].seqNo else h
  }

  /** Unnumbered, or numbered beyond the position and beyond every frame before. */
  predicate Ahead(start: nat, before: seq<Push>, p: Push) {
    p.seqNo == 0 || (p.seqNo > start && forall q :: q in before ==> p.seqNo > q.seqNo)
  }

  /** The frames that run ahead of everything before them. */
  function Admitted(start: nat, ps: seq<Push>): seq<Push> {
    if ps == [] then []
    else
      var k := |ps| - 1;
      Admitted(start, ps[..k]) + (if Ahead(start, ps[..k], ps[k]) then [ps[k]] else [])
  }

  /** What a stream of this kind hands over of ps. */
  function HandedOver(semantics: Semantics, start: nat, ps: seq<Push>): seq<Push> {
    if semantics == Telemetry then ps else Admitted(start, ps)
  }

  lemma {:induction false} FramesOf(a: seq<Note>, b: seq<Note>)
    ensures Frames(a + b) == Frames(a) + Frames(b)
  {
    if b == [] {
      assert a + b == a;
    } else {
      var k := |b| - 1;
      FramesOf(a, b[..k]);
      assert (a + b)[..|a + b| - 1] == a + b[..k];
    }
  }

  lemma FramesOfOne(n: Note)
    ensures Frames([n]) == if n.Frame? then [n.push] else []
  {
    assert [n][..0] == [];
  }

  lemma FramesOfOther(log: seq<Note>, n: Note)
    requires !n.Frame?
    ensures Frames(log + [n]) == Frames(log)
  {
    assert (log + [n])[..|log|] == log;
  }

  lemma FramesOfPair(lost: nat, p: Push)
    ensures Frames([Gap(lost), Frame(p)]) == [p]
  {
    FramesOf([Gap(lost)], [Frame(p)]);
    FramesOfOne(Gap(lost));
    FramesOfOne(Frame(p));
    assert [Gap(lost)] + [Frame(p)] == [Gap(lost), Frame(p)];
  }

  /** What one push raises: nothing, the frame, or a gap and the frame. */
  lemma JudgedFrames(semantics: Semantics, lastSeq: nat, p: Push)
    ensures Frames(Judge(semantics, lastSeq, p).notes)
         == if semantics == Telemetry || p.seqNo == 0 || p.seqNo > lastSeq then [p] else []
  {
    FramesOfOne(Frame(p));
    if p.seqNo > lastSeq + 1 { FramesOfPair(p.seqNo - lastSeq - 1, p); }
  }

  lemma {:induction false} HighestBounds(start: nat, ps: seq<Push>)
    ensures start <= Highest(start, ps) && forall q :: q in ps ==> q.seqNo <= Highest(start, ps)
    ensures Highest(start, ps) == start || exists q :: q in ps && q.seqNo == Highest(start, ps)
  {
    if ps != [] {
      var k := |ps| - 1;
      HighestBounds(start, ps[..k]);
      assert ps == ps[..k] + [ps[k]];
    }
  }

  lemma AheadIffBeyond(start: nat, before: seq<Push>, p: Push)
    ensures Ahead(start, before, p) <==> p.seqNo == 0 || p.seqNo > Highest(start, before)
  {
    HighestBounds(start, before);
  }

  lemma HighestSnoc(start: nat, ps: seq<Push>, p: Push)
    ensures Highest(start, ps + [p]) == if p.seqNo > Highest(start, ps) then p.seqNo else Highest(start, ps)
  {
    assert (ps + [p])[..|ps|] == ps;
  }

  // ------------------------------------------------------------------------------------------
  // Frames.

  /** One push: the position never falls, and the frame is handed over exactly if it is ahead. */
  lemma OnePush(s: Slot, start: nat, before: seq<Push>, p: Push)
    requires s.semantics == Event ==> s.lastSeq == Highest(start, before)
    ensures var r, over := Deliver(s, p), s.semantics == Telemetry || Ahead(start, before, p);
      && Frames(r.log) == Frames(s.log) + (if over then [p] else [])
      && r.received == s.received + (if over then 1 else 0)
      && r.lastSeq == (if s.semantics == Event && p.seqNo > s.lastSeq then p.seqNo else s.lastSeq)
  {
    if s.semantics == Event { AheadIffBeyond(start, before, p); }
    JudgedFrames(s.semantics, s.lastSeq, p);
    FramesOf(s.log, Judge(s.semantics, s.lastSeq, p).notes);
  }

  lemma Regroup(told: seq<Push>, a: seq<Push>, b: seq<Push>)
    ensures told + a + b == told + (a + b)
  {
  }

  lemma HandedOverSnoc(semantics: Semantics, start: nat, ps: seq<Push>, p: Push)
    ensures HandedOver(semantics, start, ps + [p])
         == HandedOver(semantics, start, ps) + (if semantics == Telemetry || Ahead(start, ps, p) then [p] else [])
  {
    assert (ps + [p])[..|ps|] == ps;
  }

  /** A flowing subscription hands over every telemetry push, and of the event pushes exactly
      those that are unnumbered, or numbered beyond the position and every push before; each is
      counted once, and nothing is dropped. */
  lemma {:induction false} FlowHandsOver(s: Slot, ps: seq<Push>)
    requires s.state == Active
    ensures var r := PushAll(s, ps);
      && r.state == Active && r.semantics == s.semantics && r.drops == s.drops
      && Frames(r.log) == Frames(s.log) + HandedOver(s.semantics, s.lastSeq, ps)
      && r.received == s.received + |HandedOver(s.semantics, s.lastSeq, ps)|
      && r.lastSeq == if s.semantics == Event then Highest(s.lastSeq, ps) else s.lastSeq
  {
    if ps != [] {
      var k := |ps| - 1;
      var told, h := Frames(s.log), HandedOver(s.semantics, s.lastSeq, ps[..k]);
      FlowHandsOver(s, ps[..k]);
      OnePush(PushAll(s, ps[..k]), s.lastSeq, ps[..k], ps[k]);
      HandedOverSnoc(s.semantics, s.lastSeq, ps[..k], ps[k]);
      HighestSnoc(s.lastSeq, ps[..k], ps[k]);
      Regroup(told, h, if s.semantics == Telemetry || Ahead(s.lastSeq, ps[..k], ps[k]) then [ps[k]] else []);
      assert ps == ps[..k] + [ps[k]];
    } else {
      Regroup(Frames(s.log), [], []);
    }
  }

  /** A telemetry stream raises nothing else. */
  lemma {:induction false} TelemetryIsPlain(s: Slot, ps: seq<Push>)
    requires s.state == Active && s.semantics == Telemetry
    ensures PushAll(s, ps).log == s.log + seq(|ps|, i requires 0 <= i < |ps| => Frame(ps[i]))
    ensures PushAll(s, ps).state == Active && PushAll(s, ps).semantics == Telemetry
  {
    if ps != [] {
      var k := |ps| - 1;
      TelemetryIsPlain(s, ps[..k]);
      assert seq(|ps|, i requires 0 <= i < |ps| => Frame(ps[i]))
          == seq(k, i requires 0 <= i < k => Frame(ps[..k][i])) + [Frame(ps[k])];
    }
  }

  // ------------------------------------------------------------------------------------------
  // Gaps.

  /** The highest number told before note i. */
  function ToldBefore(start: nat, notes: seq<Note>, i: nat): nat
    requires i <= |notes|
  {
    Highest(start, Frames(notes[..i]))
  }

  /** Note i, a gap, covers exactly the numbers between the last one told and the next frame. */
  predicate GapFits(start: nat, notes: seq<Note>, i: nat)
    requires i < |notes| && notes[i].Gap?
  {
    && i + 1 < |notes| && notes[i + 1].Frame? && notes[i].lost > 0 && ToldBefore(start, notes, i) > 0
    && notes[i + 1].push.seqNo == ToldBefore(start, notes, i) + notes[i].lost + 1
  }

  /** Note i, a frame, has its gap in front of it if numbers are missing. */
  predicate FrameFits(start: nat, notes: seq<Note>, i: nat)
    requires i < |notes| && notes[i].Frame?
  {
    var last, q := ToldBefore(start, notes, i), notes[i].push.seqNo;
    last > 0 && q > last + 1 ==> i > 0 && notes[i - 1] == Gap(q - last - 1)
  }

  /** Nothing but frames and gaps; a gap exactly where numbers are missing, for exactly those. */
  predicate NoteFits(start: nat, notes: seq<Note>, i: nat)
    requires i < |notes|
  {
    match notes[i]
    case Gap(_) => GapFits(start, notes, i)
    case Frame(_) => FrameFits(start, notes, i)
    case _ => false
  }

  predicate GapsFit(start: nat, notes: seq<Note>) {
    forall i :: 0 <= i < |notes| ==> NoteFits(start, notes, i)
  }

  lemma NoteStillFits(start: nat, notes: seq<Note>, more: seq<Note>, i: nat)
    requires i < |notes| && NoteFits(start, notes, i)
    ensures NoteFits(start, notes + more, i)
  {
    assert (notes + more)[..i] == notes[..i];
  }

  lemma LongerFits(start: nat, notes: seq<Note>, more: seq<Note>)
    requires GapsFit(start, notes)
    ensures forall i :: 0 <= i < |notes| ==> NoteFits(start, notes + more, i)
  {
    forall i | 0 <= i < |notes| ensures NoteFits(start, notes + more, i) {
      NoteStillFits(start, notes, more, i);
    }
  }

  lemma FrameAddsFit(start: nat, notes: seq<Note>, p: Push)
    requires GapsFit(start, notes)
    requires var last := Highest(start, Frames(notes)); last == 0 || p.seqNo <= last + 1
    ensures GapsFit(start, notes + [Frame(p)])
  {
    LongerFits(start, notes, [Frame(p)]);
    assert (notes + [Frame(p)])[..|notes|] == notes;
  }

  lemma GapAddsFit(start: nat, notes: seq<Note>, lost: nat, p: Push)
    requires GapsFit(start, notes) && lost > 0
    requires Highest(start, Frames(notes)) > 0 && p.seqNo == Highest(start, Frames(notes)) + lost + 1
    ensures GapsFit(start, notes + [Gap(lost), Frame(p)])
  {
    var both, n := notes + [Gap(lost), Frame(p)], |notes|;
    LongerFits(start, notes, [Gap(lost), Frame(p)]);
    assert both[..n] == notes && both[..n + 1] == notes + [Gap(lost)];
    FramesOfOther(notes, Gap(lost));
    assert NoteFits(start, both, n) && NoteFits(start, both, n + 1);
  }

  lemma {:induction false} HighestOf(start: nat, a: seq<Push>, b: seq<Push>)
    ensures Highest(start, a + b) == Highest(Highest(start, a), b)
  {
    if b == [] {
      assert a + b == a;
    } else {
      HighestOf(start, a, b[..|b| - 1]);
      assert (a + b)[..|a + b| - 1] == a + b[..|b| - 1];
    }
  }

  /** The gaps are right so far, and lastSeq is the highest number told. */
  predicate ToldExactly(start: nat, notes: seq<Note>, lastSeq: nat) {
    GapsFit(start, notes) && lastSeq == Highest(start, Frames(notes))
  }

  lemma PlainPushFits(start: nat, notes: seq<Note>, lastSeq: nat, p: Push)
    requires ToldExactly(start, notes, lastSeq) && (p.seqNo == 0 || lastSeq == 0 || p.seqNo == lastSeq + 1)
    ensures ToldExactly(start, notes + [Frame(p)], if p.seqNo > lastSeq then p.seqNo else lastSeq)
  {
    FrameAddsFit(start, notes, p);
    FramesOf(notes, [Frame(p)]);
    FramesOfOne(Frame(p));
    HighestSnoc(start, Frames(notes), p);
  }

  lemma FramesWithPair(notes: seq<Note>, lost: nat, p: Push)
    ensures Frames(notes + [Gap(lost), Frame(p)]) == Frames(notes) + [p]
  {
    FramesOf(notes, [Gap(lost), Frame(p)]);
    FramesOfPair(lost, p);
  }

  lemma SkippingPushFits(start: nat, notes: seq<Note>, lastSeq: nat, p: Push)
    requires ToldExactly(start, notes, lastSeq) && lastSeq > 0 && p.seqNo > lastSeq + 1
    ensures ToldExactly(start, notes + [Gap(p.seqNo - lastSeq - 1), Frame(p)], p.seqNo)
  {
    var lost := p.seqNo - lastSeq - 1;
    GapAddsFit(start, notes, lost, p);
    FramesWithPair(notes, lost, p);
    HighestSnoc(start, Frames(notes), p);
  }

  lemma NothingFits(start: nat, notes: seq<Note>, lastSeq: nat)
    requires ToldExactly(start, notes, lastSeq)
    ensures ToldExactly(start, notes + [], lastSeq)
  {
    assert notes + [] == notes;
  }

  /** One push keeps the gaps right. */
  lemma OnePushFits(start: nat, notes: seq<Note>, lastSeq: nat, p: Push)
    requires ToldExactly(start, notes, lastSeq)
    ensures var v := Judge(Event, lastSeq, p); ToldExactly(start, notes + v.notes, v.lastSeq)
  {
    var v := Judge(Event, lastSeq, p);
    if p.seqNo == 0 || lastSeq == 0 || p.seqNo == lastSeq + 1 {
      assert v == Verdict(if p.seqNo > lastSeq then p.seqNo else lastSeq, [Frame(p)]);
      PlainPushFits(start, notes, lastSeq, p);
    } else if p.seqNo > lastSeq {
      assert v == Verdict(p.seqNo, [Gap(p.seqNo - lastSeq - 1), Frame(p)]);
      SkippingPushFits(start, notes, lastSeq, p);
    } else {
      NothingFits(start, notes, lastSeq);
    }
  }

  /** What a flowing event stream adds to its log: a gap exactly in front of each frame that skips
      numbers, covering exactly those above the last one told and below the frame. */
  lemma {:induction false} GapsAreExact(s: Slot, ps: seq<Push>)
    requires s.state == Active && s.semantics == Event
    ensures var r := PushAll(s, ps);
      && r.state == Active && r.semantics == Event && s.log <= r.log
      && ToldExactly(s.lastSeq, r.log[|s.log|..], r.lastSeq)
  {
    if ps != [] {
      var k := |ps| - 1;
      var s1 := PushAll(s, ps[..k]);
      GapsAreExact(s, ps[..k]);
      OnePushFits(s.lastSeq, s1.log[|s.log|..], s1.lastSeq, ps[k]);
      AddedSince(s.log, s1.log, Judge(Event, s1.lastSeq, ps[k]).notes);
    }
  }

  lemma AddedSince(log: seq<Note>, longer: seq<Note>, more: seq<Note>)
    requires log <= longer
    ensures log <= longer + more && (longer + more)[|log|..] == longer[|log|..] + more
  {
  }

  // ------------------------------------------------------------------------------------------
  // From the acknowledgement on.

  lemma {:induction false} AdmittedOf(start: nat, a: seq<Push>, b: seq<Push>)
    ensures Admitted(start, a + b) == Admitted(start, a) + Admitted(Highest(start, a), b)
  {
    if b == [] {
      assert a + b == a;
    } else {
      var k := |b| - 1;
      AdmittedOf(start, a, b[..k]);
      HighestOf(start, a, b[..k]);
      AheadIffBeyond(start, a + b[..k], b[k]);
      AheadIffBeyond(Highest(start, a), b[..k], b[k]);
      assert (a + b)[..|a + b| - 1] == a + b[..k];
    }
  }

  /** The position an acknowledgement promising next leads to. */
  function From(next: nat): nat { if next >= 1 then next - 1 else 0 }

  lemma OpenTells(s: Slot, next: nat)
    requires SlotInv(s) && s.state == Pending
    ensures var r, replayed := Open(s, next), s.expected != 0;
      && r.log == s.log + [Opened(s.resuming || replayed,
                                  if replayed && next >= s.expected then Some(next - s.expected) else None, next)]
      && Frames(r.log) == Frames(s.log) && r.state == Active && r.semantics == s.semantics
      && (s.semantics == Event ==> r.lastSeq == From(next))
  {
    FramesOfOther(s.log, Open(s, next).log[|s.log|]);
  }

  /** Accepting is opening, then delivering what is buffered; the rest is counters and flags. */
  lemma AcceptDelivers(s: Slot, next: nat)
    requires SlotInv(s) && s.state == Pending
    ensures var r, d := Accept(s, next), PushAll(Open(s.(buffer := []), next), s.buffer);
      r.log == d.log && r.lastSeq == d.lastSeq && r.state == Active && r.buffer == [] && r.everActive && r.semantics == s.semantics
  {
    AckAfterFrames(s, s, next);
    PushAllActive(Open(s.(buffer := []), next), s.buffer);
    AcceptKeeps(s, next);
  }

  /** An opening that promises next is told rightly: as resumed if the stream was paused or a
      replay was asked for, with the loss if a replay was asked for and the server goes on at or
      after the number asked for; then come the buffered frames that run ahead of the position
      next - 1, each gap in its place. */
  ghost predicate OpensRight(s: Slot, r: Slot, next: nat) {
    var replayed := s.expected != 0;
    var opening := Opened(s.resuming || replayed, if replayed && next >= s.expected then Some(next - s.expected) else None, next);
    && r.state == Active && r.buffer == [] && r.everActive && s.log + [opening] <= r.log
    && Frames(r.log) == Frames(s.log) + HandedOver(s.semantics, From(next), s.buffer)
    && (s.semantics == Event ==>
          r.lastSeq == Highest(From(next), s.buffer) && GapsFit(From(next), r.log[|s.log| + 1..]))
  }

  /** What an accepting acknowledgement promising next tells. */
  lemma AcceptTells(s: Slot, next: nat)
    requires SlotInv(s) && s.state == Pending
    ensures OpensRight(s, Accept(s, next), next)
  {
    var s0 := s.(buffer := []);
    var open := Open(s0, next);
    AcceptDelivers(s, next);
    OpenTells(s0, next);
    FlowHandsOver(open, s.buffer);
    if s.semantics == Event {
      GapsAreExact(open, s.buffer);
    } else {
      TelemetryIsPlain(open, s.buffer);
    }
  }

  lemma HandedOverOf(semantics: Semantics, start: nat, a: seq<Push>, b: seq<Push>)
    ensures HandedOver(semantics, start, a + b) == HandedOver(semantics, start, a) + HandedOver(semantics, Highest(start, a), b)
  {
    AdmittedOf(start, a, b);
  }

  lemma MoreHandedOver(s: Slot, told: seq<Push>, start: nat, kept: seq<Push>, late: seq<Push>)
    requires s.state == Active && Frames(s.log) == told + HandedOver(s.semantics, start, kept)
    requires s.semantics == Event ==> s.lastSeq == Highest(start, kept)
    ensures Frames(PushAll(s, late).log) == told + HandedOver(s.semantics, start, kept + late)
  {
    FlowHandsOver(s, late);
    HandedOverOf(s.semantics, start, kept, late);
    Regroup(told, HandedOver(s.semantics, start, kept), HandedOver(s.semantics, s.lastSeq, late));
  }

  /** The whole of it: frames that overtake the acknowledgement and frames that follow it. What
      the user is handed is what the buffer kept and what came later, all of it or all that ran
      ahead, as if the stream had flowed from the promised number on. */
  lemma NothingElseIsLost(s: Slot, early: seq<Push>, next: nat, late: seq<Push>)
    requires SlotInv(s) && s.state == Pending
    ensures Frames(PushAll(Accept(PushAll(s, early), next), late).log)
         == Frames(s.log) + HandedOver(s.semantics, From(next), Kept(s.policy, s.cap, s.buffer + early) + late)
  {
    var s1 := PushAll(s, early);
    BufferKeeps(s, early);
    assert SlotInv(s1);
    AcceptTells(s1, next);
    AcceptDelivers(s1, next);
    MoreHandedOver(Accept(s1, next), Frames(s.log), From(next), s1.buffer, late);
  }
}
