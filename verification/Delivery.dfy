/** How the notes of a subscription reach its user. Status notes always go through the dispatcher;
    frames do so in Dispatched mode and are handed over at once in Inline mode. */
module Delivery {
  import opened Types
  import opened Stream
  import Dispatcher

  datatype CallbackMode = Dispatched | Inline

  /** A task of the dispatcher: one of this subscription's notes, or anything else. */
  datatype Task = Ours(note: Note) | Other

  /** What happens, in any interleaving: the control thread raises a note, somebody posts another
      task, the worker takes a turn, the dispatcher is shut down. */
  datatype Act = Raise(note: Note) | Elsewhere | Turn | Stop

  /** Handed to the user on the control thread. */
  predicate Direct(mode: CallbackMode, n: Note) {
    mode == Inline && n.Frame?
  }

  /** What an act means to the dispatcher. */
  function Posts(mode: CallbackMode, a: Act): seq<Dispatcher.Step<Task>> {
    match a
    case Raise(n) => if Direct(mode, n) then [] else [Dispatcher.Post(Ours(n))]
    case Elsewhere => [Dispatcher.Post(Other)]
    case Turn => [Dispatcher.WorkerTurn]
    case Stop => [Dispatcher.Stop]
  }

  function AllPosts(mode: CallbackMode, acts: seq<Act>): seq<Dispatcher.Step<Task>> {
    if acts == [] then [] else AllPosts(mode, acts[..|acts| - 1]) + Posts(mode, acts[|acts| - 1])
  }

  /** The dispatcher after the acts. */
  function Queue(mode: CallbackMode, acts: seq<Act>): Dispatcher.State<Task> {
    Dispatcher.Run(AllPosts(mode, acts))
  }

  /** The notes raised, in order: the log of the subscription. */
  function Raised(acts: seq<Act>): seq<Note> {
    if acts == [] then []
    else Raised(acts[..|acts| - 1]) + (if acts[|acts| - 1].Raise? then [acts[|acts| - 1].note] else [])
  }

  /** This subscription's notes among the tasks. */
  function Notes(ts: seq<Task>): seq<Note> {
    if ts == [] then [] else Notes(ts[..|ts| - 1]) + (if ts[|ts| - 1].Ours? then [ts[|ts| - 1].note] else [])
  }

  /** What the user has been told, in the order it was told. */
  function Seen(mode: CallbackMode, acts: seq<Act>): seq<Note> {
    if acts == [] then []
    else
      var front, a := acts[..|acts| - 1], acts[|acts| - 1];
      Seen(mode, front) +
      match a
      case Raise(n) => if Direct(mode, n) then [n] else []
      case Turn => var q := Queue(mode, front).queue; if q == [] then [] else Notes([q[0]])
      case _ => []
  }

  lemma QueueStep(mode: CallbackMode, acts: seq<Act>)
    requires acts != []
    ensures var q := Queue(mode, acts[..|acts| - 1]);
      Queue(mode, acts) == match acts[|acts| - 1]
                           case Raise(n) => if Direct(mode, n) then q else Dispatcher.Next(q, Dispatcher.Post(Ours(n)))
                           case Elsewhere => Dispatcher.Next(q, Dispatcher.Post(Other))
                           case Turn => Dispatcher.Next(q, Dispatcher.WorkerTurn)
                           case Stop => Dispatcher.Next(q, Dispatcher.Stop)
  {
    var front, last := AllPosts(mode, acts[..|acts| - 1]), Posts(mode, acts[|acts| - 1]);
    if last == [] {
      assert front + last == front;
    } else {
      assert (front + last)[..|front + last| - 1] == front;
    }
  }

  lemma {:induction false} NotesConcat(a: seq<Task>, b: seq<Task>)
    ensures Notes(a + b) == Notes(a) + Notes(b)
  {
    if b == [] {
      assert a + b == a;
    } else {
      NotesConcat(a, b[..|b| - 1]);
      assert (a + b)[..|a + b| - 1] == a + b[..|b| - 1];
    }
  }

  lemma NotesOfFirst(ts: seq<Task>)
    requires ts != []
    ensures Notes(ts) == Notes([ts[0]]) + Notes(ts[1..])
  {
    NotesConcat([ts[0]], ts[1..]);
    assert ts == [ts[0]] + ts[1..];
  }

  // ------------------------------------------------------------------------------------------
  // Dispatched mode.

  /** What has been seen and what waits. */
  function Told(mode: CallbackMode, acts: seq<Act>): seq<Note> {
    Seen(mode, acts) + Notes(Queue(mode, acts).queue)
  }

  lemma Regroup(a: seq<Note>, b: seq<Note>, c: seq<Note>)
    ensures (a + b) + c == a + (b + c)
  {
  }

  /** A worker turn moves the first waiting task over. */
  lemma ToldTurn(mode: CallbackMode, acts: seq<Act>)
    requires acts != [] && acts[|acts| - 1].Turn?
    ensures var front := acts[..|acts| - 1];
      Told(mode, acts) == Told(mode, front) && Queue(mode, acts).running == Queue(mode, front).running
  {
    var front := acts[..|acts| - 1];
    var q := Queue(mode, front);
    QueueStep(mode, acts);
    if q.queue == [] {
      assert Seen(mode, acts) == Seen(mode, front);
    } else {
      NotesOfFirst(q.queue);
      Regroup(Seen(mode, front), Notes([q.queue[0]]), Notes(q.queue[1..]));
    }
  }

  lemma NotesSnoc(ts: seq<Task>, t: Task)
    ensures Notes(ts + [t]) == Notes(ts) + (if t.Ours? then [t.note] else [])
  {
    assert (ts + [t])[..|ts + [t]| - 1] == ts;
  }

  lemma SeenPost(mode: CallbackMode, acts: seq<Act>)
    requires acts != [] && acts[|acts| - 1].Raise? && !Direct(mode, acts[|acts| - 1].note)
    ensures Seen(mode, acts) == Seen(mode, acts[..|acts| - 1])
  {
    assert Seen(mode, acts) == Seen(mode, acts[..|acts| - 1]) + [];
  }

  lemma WaitingPost(mode: CallbackMode, acts: seq<Act>)
    requires acts != [] && acts[|acts| - 1].Raise? && !Direct(mode, acts[|acts| - 1].note)
    ensures var q, r := Queue(mode, acts[..|acts| - 1]), Queue(mode, acts);
      r.running == q.running && Notes(r.queue) == if q.running then Notes(q.queue) + [acts[|acts| - 1].note] else Notes(q.queue)
  {
    QueueStep(mode, acts);
    NotesSnoc(Queue(mode, acts[..|acts| - 1]).queue, Ours(acts[|acts| - 1].note));
  }

  /** A running dispatcher takes a posted note in; a stopped one drops it. */
  lemma ToldPost(mode: CallbackMode, acts: seq<Act>)
    requires acts != [] && acts[|acts| - 1].Raise? && !Direct(mode, acts[|acts| - 1].note)
    ensures var front, n := acts[..|acts| - 1], acts[|acts| - 1].note;
      && Told(mode, acts) == (if Queue(mode, front).running then Told(mode, front) + [n] else Told(mode, front))
      && Seen(mode, acts) == Seen(mode, front) && Queue(mode, acts).running == Queue(mode, front).running
      && Raised(acts) == Raised(front) + [n]
  {
    var front, n := acts[..|acts| - 1], acts[|acts| - 1].note;
    SeenPost(mode, acts);
    WaitingPost(mode, acts);
    Regroup(Seen(mode, front), Notes(Queue(mode, front).queue), [n]);
  }

  lemma ToldElsewhere(mode: CallbackMode, acts: seq<Act>)
    requires acts != [] && (acts[|acts| - 1].Elsewhere? || acts[|acts| - 1].Stop?)
    ensures var front := acts[..|acts| - 1];
      && Told(mode, acts) == Told(mode, front) && Seen(mode, acts) == Seen(mode, front) && Raised(acts) == Raised(front)
      && (Queue(mode, acts).running <==> Queue(mode, front).running && acts[|acts| - 1].Elsewhere?)
  {
    var q := Queue(mode, acts[..|acts| - 1]);
    QueueStep(mode, acts);
    NotesSnoc(q.queue, Other);
  }

  /** What is told is a prefix of what was raised, all of it while the dispatcher runs. */
  predicate InOrder(mode: CallbackMode, acts: seq<Act>) {
    Told(mode, acts) <= Raised(acts) && (Queue(mode, acts).running ==> Told(mode, acts) == Raised(acts))
  }

  /** In Dispatched mode the user is told a prefix of the log, and all of it once nothing waits. */
  lemma {:induction false} DispatchedInOrder(acts: seq<Act>)
    ensures InOrder(Dispatched, acts) && Seen(Dispatched, acts) <= Raised(acts)
  {
    if acts != [] {
      var a := acts[|acts| - 1];
      DispatchedInOrder(acts[..|acts| - 1]);
      match a
      case Turn => ToldTurn(Dispatched, acts);
      case Raise(_) => ToldPost(Dispatched, acts);
      case _ => ToldElsewhere(Dispatched, acts);
    }
  }

  /** The beginning of a well-formed story is well formed. */
  lemma {:induction false} PrefixIsWellFormed(log: seq<Note>, k: nat)
    requires k <= |log| && PhaseOf(log) != Broken
    ensures PhaseOf(log[..k]) != Broken
  {
    if k < |log| {
      var front := log[..|log| - 1];
      PrefixIsWellFormed(front, k);
      assert front[..k] == log[..k];
    } else {
      assert log[..k] == log;
    }
  }

  /** So in Dispatched mode a user is told a well-formed story of every well-formed log. */
  lemma DispatchedIsWellFormed(acts: seq<Act>)
    requires PhaseOf(Raised(acts)) != Broken
    ensures PhaseOf(Seen(Dispatched, acts)) != Broken
  {
    DispatchedInOrder(acts);
    PrefixIsWellFormed(Raised(acts), |Seen(Dispatched, acts)|);
    assert Raised(acts)[..|Seen(Dispatched, acts)|] == Seen(Dispatched, acts);
  }

  // ------------------------------------------------------------------------------------------
  // Inline mode.

  /** A note of this subscription was raised for the dispatcher after its shutdown. */
  predicate Dropped(acts: seq<Act>) {
    acts != [] &&
      var front, a := acts[..|acts| - 1], acts[|acts| - 1];
      Dropped(front) || (a.Raise? && !Direct(Inline, a.note) && !Queue(Inline, front).running)
  }

  /** None of this subscription's status notes waits, and none was dropped. */
  predicate CaughtUp(acts: seq<Act>) {
    Notes(Queue(Inline, acts).queue) == [] && !Dropped(acts)
  }

  /** Frames are raised only when the user has caught up with the status notes. */
  predicate KeepsUp(acts: seq<Act>) {
    acts != [] ==>
      var front, a := acts[..|acts| - 1], acts[|acts| - 1];
      KeepsUp(front) && (a.Raise? && a.note.Frame? ==> CaughtUp(front))
  }

  /** At every moment the user has been told a prefix of the log. */
  predicate AlwaysInOrder(acts: seq<Act>) {
    Seen(Inline, acts) <= Raised(acts) && (acts != [] ==> AlwaysInOrder(acts[..|acts| - 1]))
  }

  predicate NoFrames(log: seq<Note>) {
    forall i :: 0 <= i < |log| ==> !log[i].Frame?
  }

  /** As long as frames keep up, what is missing from the user's view are status notes: those that
      wait, and then those that were dropped. */
  ghost predicate Behind(acts: seq<Act>) {
    && Told(Inline, acts) <= Raised(acts) && (Told(Inline, acts) == Raised(acts) <==> !Dropped(acts))
    && NoFrames(Raised(acts)[|Seen(Inline, acts)|..])
    && (Dropped(acts) ==> !Queue(Inline, acts).running)
  }

  lemma DirectBehind(acts: seq<Act>)
    requires acts != [] && acts[|acts| - 1].Raise? && acts[|acts| - 1].note.Frame?
    requires Behind(acts[..|acts| - 1]) && CaughtUp(acts[..|acts| - 1])
    ensures Behind(acts)
  {
    QueueStep(Inline, acts);
    assert Seen(Inline, acts[..|acts| - 1]) + [] == Seen(Inline, acts[..|acts| - 1]);
    assert Seen(Inline, acts) == Raised(acts);
  }

  lemma NoFramesSnoc(log: seq<Note>, k: nat, n: Note)
    requires k <= |log| && NoFrames(log[k..]) && !n.Frame?
    ensures NoFrames((log + [n])[k..])
  {
    assert (log + [n])[k..] == log[k..] + [n];
  }

  lemma PostBehind(acts: seq<Act>)
    requires acts != [] && acts[|acts| - 1].Raise? && !acts[|acts| - 1].note.Frame? && Behind(acts[..|acts| - 1])
    ensures Behind(acts)
  {
    var front, n := acts[..|acts| - 1], acts[|acts| - 1].note;
    var k := |Seen(Inline, front)|;
    ToldPost(Inline, acts);
    NoFramesSnoc(Raised(front), k, n);
  }

  lemma NoFramesLater(log: seq<Note>, k: nat, m: nat)
    requires k <= m <= |log| && NoFrames(log[k..])
    ensures NoFrames(log[m..])
  {
    forall i | 0 <= i < |log[m..]| ensures !log[m..][i].Frame? {
      assert log[m..][i] == log[k..][m - k + i];
    }
  }

  lemma SeenGrows(mode: CallbackMode, acts: seq<Act>)
    requires acts != []
    ensures |Seen(mode, acts[..|acts| - 1])| <= |Seen(mode, acts)| <= |Told(mode, acts)|
  {
  }

  lemma TurnBehind(acts: seq<Act>)
    requires acts != [] && acts[|acts| - 1].Turn? && Behind(acts[..|acts| - 1])
    ensures Behind(acts)
  {
    var front := acts[..|acts| - 1];
    ToldTurn(Inline, acts);
    SeenGrows(Inline, acts);
    assert Raised(acts) == Raised(front) + [] == Raised(front);
    NoFramesLater(Raised(front), |Seen(Inline, front)|, |Seen(Inline, acts)|);
  }

  lemma {:induction false} KeepingUpIsBehind(acts: seq<Act>)
    requires KeepsUp(acts)
    ensures Behind(acts) && AlwaysInOrder(acts)
  {
    if acts != [] {
      KeepingUpIsBehind(acts[..|acts| - 1]);
      match acts[|acts| - 1]
      case Turn => TurnBehind(acts);
      case Raise(n) => if n.Frame? { DirectBehind(acts); } else { PostBehind(acts); }
      case _ => ToldElsewhere(Inline, acts);
    }
  }

  /** A frame that overtakes a status note spoils the order. */
  lemma OvertakingSpoils(acts: seq<Act>)
    requires acts != [] && Behind(acts[..|acts| - 1]) && !CaughtUp(acts[..|acts| - 1])
    requires acts[|acts| - 1].Raise? && acts[|acts| - 1].note.Frame?
    ensures !(Seen(Inline, acts) <= Raised(acts))
  {
    var front, n := acts[..|acts| - 1], |Seen(Inline, acts[..|acts| - 1])|;
    assert n < |Raised(front)|;
    assert Raised(acts)[n] == Raised(front)[n] == Raised(front)[n..][0];
    assert Seen(Inline, acts)[n].Frame? && !Raised(acts)[n].Frame?;
  }

  /** In Inline mode the user is told everything in order if and only if no frame is raised while
      a status note of its subscription still waits in the dispatcher or was dropped by it. */
  lemma {:induction false} InlineInOrderIff(acts: seq<Act>)
    ensures AlwaysInOrder(acts) <==> KeepsUp(acts)
  {
    if KeepsUp(acts) {
      KeepingUpIsBehind(acts);
    } else {
      var front := acts[..|acts| - 1];
      InlineInOrderIff(front);
      if KeepsUp(front) {
        KeepingUpIsBehind(front);
        OvertakingSpoils(acts);
      }
    }
  }

  function FirstFrame(): Push { Push(1, []) }

  /** A subscription is accepted and its first frame arrives before the dispatcher's worker has had
      a turn. */
  function FrameFirst(): seq<Act> {
    [Raise(Opened(false, None, 1)), Raise(Frame(FirstFrame()))]
  }

  lemma RaiseSnoc(mode: CallbackMode, acts: seq<Act>, n: Note)
    ensures Seen(mode, acts + [Raise(n)]) == Seen(mode, acts) + (if Direct(mode, n) then [n] else [])
    ensures Raised(acts + [Raise(n)]) == Raised(acts) + [n]
  {
    assert (acts + [Raise(n)])[..|acts + [Raise(n)]| - 1] == acts;
  }

  lemma TwoNotes(a: Note, b: Note)
    ensures [a, b][..1] == [a] && [a][..0] == [] && [] + [a] == [a] && [a] + [b] == [a, b]
  {
  }

  /** In Inline mode that user sees a frame of a stream that has not started. */
  lemma InlineCanBreak()
    ensures Seen(Inline, FrameFirst()) == [Frame(FirstFrame())] && PhaseOf(Seen(Inline, FrameFirst())) == Broken
    ensures Raised(FrameFirst()) == [Opened(false, None, 1), Frame(FirstFrame())] && PhaseOf(Raised(FrameFirst())) == Flowing
  {
    var start, frame := Opened(false, None, 1), Frame(FirstFrame());
    RaiseSnoc(Inline, [], start);
    assert [] + [Raise(start)] == [Raise(start)];
    RaiseSnoc(Inline, [Raise(start)], frame);
    assert [Raise(start)] + [Raise(frame)] == FrameFirst();
    TwoNotes(start, frame);
    TwoNotes(frame, frame);
    StoryOfBoth(start, frame);
  }

  lemma StoryOfBoth(start: Note, frame: Note)
    requires start.Opened? && frame.Frame?
    ensures PhaseOf([start, frame]) == Flowing && PhaseOf([frame]) == Broken
  {
    TwoNotes(start, frame);
    TwoNotes(frame, frame);
    assert PhaseOf([start]) == Flowing;
  }
}
