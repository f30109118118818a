/** The task that owns the write half of a connection, on the host and on the device. */
module WriterTask {
  import opened Wrappers
  import opened Bytes
  import opened Frames
  import opened Sinks
  import opened SecureFrames

  const WRITER_QUEUE_CAPACITY := 16

  /** Where the task is; a stopped task remembers how far into a frame it was cut off. */
  datatype Phase = Idle | Writing(sent: nat) | Stopped(cut: Option<nat>)

  /** `accepted` lists every queued command in order, the first `taken` of which the task has received. `waiting` are
      the waiters still listening; an entry in `acks` is an answer that reached one of them. */
  datatype State = State(accepted: seq<Frame>, taken: nat, completed: nat, phase: Phase, wire: seq<Byte>,
                         closed: bool, acks: map<nat, bool>, waiting: set<nat>)

  datatype Action =
    | Enqueue(frame: Frame) | Take | WriteSome(n: nat) | Finish | Abort | Stop | Close | DropWaiter(id: nat)

  const INIT := State([], 0, 0, Idle, [], false, map[], {})

  /** The frame being written and the bytes it takes. */
  ghost predicate Busy(mode: Mode, s: State) {
    && mode.Valid()
    && s.phase.Writing?
    && s.completed < |s.accepted|
    && Sendable(s.accepted[..s.completed])
    && |s.accepted[s.completed].payload| <= MAX_PAYLOAD
  }

  ghost function Current(mode: Mode, s: State): seq<Byte>
    requires mode.Valid() && s.completed < |s.accepted| && Sendable(s.accepted[..s.completed])
    requires |s.accepted[s.completed].payload| <= MAX_PAYLOAD
  {
    OnWire(mode, NonceAfter(mode, s.accepted[..s.completed]), s.accepted[s.completed])
  }

  /** An answer reaches its waiter only if it still listens. */
  function Told(s: State, id: nat, answer: bool): map<nat, bool> {
    if id in s.waiting then s.acks[id := answer] else s.acks
  }

  ghost function Apply(mode: Mode, s: State, action: Action): Option<State> {
    match action
    case Enqueue(frame) =>
      if s.phase.Stopped? || |s.accepted| >= s.taken + WRITER_QUEUE_CAPACITY then None
      else Some(s.(accepted := s.accepted + [frame], waiting := s.waiting + {|s.accepted|}))
    case Take =>
      if s.phase != Idle || s.taken >= |s.accepted| then None
      else Some(s.(taken := s.taken + 1, phase := Writing(0)))
    case WriteSome(n) =>
      if !Busy(mode, s) || s.phase.sent + n > |Current(mode, s)| then None
      else Some(s.(phase := Writing(s.phase.sent + n),
                   wire := s.wire + Current(mode, s)[s.phase.sent..s.phase.sent + n]))
    case Finish =>
      if !Busy(mode, s) || s.phase.sent != |Current(mode, s)| then None
      else Some(s.(phase := Idle, completed := s.completed + 1, acks := Told(s, s.completed, true)))
    case Abort =>
      if !s.phase.Writing? then None
      else Some(s.(phase := Stopped(Some(s.phase.sent)), acks := Told(s, s.completed, false), closed := true))
    case Stop =>
      if s.phase != Idle then None else Some(s.(phase := Stopped(None), closed := true))
    case Close => Some(s.(closed := true))
    case DropWaiter(id) => Some(s.(waiting := s.waiting - {id}))
  }

  ghost function Exec(mode: Mode, s: State, actions: seq<Action>): Option<State>
    decreases |actions|
  {
    if actions == [] then Some(s)
    else match Apply(mode, s, actions[0])
      case None => None
      case Some(next) => Exec(mode, next, actions[1..])
  }

  /** How much of the command after the completed ones is on the wire. */
  function Cut(s: State): Option<nat> {
    match s.phase
    case Idle => None
    case Writing(sent) => Some(sent)
    case Stopped(cut) => cut
  }

  /** Whole frames in queue order, then at most one cut frame; answers say exactly which are whole, and every waiter
      that still listens to a whole one has its answer. */
  ghost predicate Inv(mode: Mode, s: State) {
    && mode.Valid()
    && s.taken <= |s.accepted| <= s.taken + WRITER_QUEUE_CAPACITY
    && s.taken == s.completed + (if Cut(s).Some? then 1 else 0)
    && Sendable(s.accepted[..s.completed])
    && (forall i :: i in s.acks ==> i < s.taken && (s.acks[i] <==> i < s.completed))
    && (forall i :: i in s.acks && !s.acks[i] ==> s.phase.Stopped?)
    && (forall i :: i in s.waiting ==> i < |s.accepted| && (i < s.completed ==> i in s.acks))
    && match Cut(s)
       case None => s.wire == Wire(mode, s.accepted[..s.completed])
       case Some(sent) =>
         if |s.accepted[s.completed].payload| > MAX_PAYLOAD then
           sent == 0 && s.wire == Wire(mode, s.accepted[..s.completed])
         else
           && sent <= |Current(mode, s)|
           && s.wire == Wire(mode, s.accepted[..s.completed]) + Current(mode, s)[..sent]
  }

  lemma EnqueueKeepsInv(mode: Mode, s: State, frame: Frame)
    requires Inv(mode, s) && Apply(mode, s, Enqueue(frame)).Some?
    ensures Inv(mode, Apply(mode, s, Enqueue(frame)).value)
  {
    hide OnWire, Wire, NonceAfter, Sendable;
    var next := Apply(mode, s, Enqueue(frame)).value;
    assert next.accepted[..s.completed] == s.accepted[..s.completed];
  }

  lemma WriteSomeKeepsInv(mode: Mode, s: State, n: nat)
    requires Inv(mode, s) && Apply(mode, s, WriteSome(n)).Some?
    ensures Inv(mode, Apply(mode, s, WriteSome(n)).value)
  {
    hide OnWire, Wire, NonceAfter, Sendable;
    var next := Apply(mode, s, WriteSome(n)).value;
    var current, sent := Current(mode, s), s.phase.sent;
    assert Current(mode, next) == current;
    assert current[..sent] + current[sent..sent + n] == current[..sent + n];
  }

  lemma FinishKeepsInv(mode: Mode, s: State)
    requires Inv(mode, s) && Apply(mode, s, Finish).Some?
    ensures Inv(mode, Apply(mode, s, Finish).value)
  {
    hide OnWire, NonceAfter;
    var current, frames := Current(mode, s), s.accepted[..s.completed + 1];
    assert current[..|current|] == current;
    assert frames[..s.completed] == s.accepted[..s.completed];
    assert Wire(mode, frames) == Wire(mode, s.accepted[..s.completed]) + current;
  }

  lemma StepKeepsInv(mode: Mode, s: State, action: Action)
    requires Inv(mode, s) && Apply(mode, s, action).Some?
    ensures Inv(mode, Apply(mode, s, action).value)
  {
    hide OnWire, Wire, NonceAfter, Sendable;
    match action
    case Enqueue(frame) => EnqueueKeepsInv(mode, s, frame);
    case WriteSome(n) => WriteSomeKeepsInv(mode, s, n);
    case Finish => FinishKeepsInv(mode, s);
    case _ =>
  }

  lemma {:induction false} RunKeepsInv(mode: Mode, s: State, actions: seq<Action>)
    requires Inv(mode, s) && Exec(mode, s, actions).Some?
    ensures Inv(mode, Exec(mode, s, actions).value)
    decreases |actions|
  {
    if actions != [] {
      StepKeepsInv(mode, s, actions[0]);
      RunKeepsInv(mode, Apply(mode, s, actions[0]).value, actions[1..]);
    }
  }

  /** In every run the peer reads back the first `whole` queued frames in queue order and nothing else, and the
      commands acknowledged `Ok` are among them. */
  lemma PeerReadsQueuedPrefix(mode: Mode, actions: seq<Action>) returns (whole: nat)
    requires mode.Valid() && Exec(mode, INIT, actions).Some?
    ensures var s := Exec(mode, INIT, actions).value;
            && s.completed <= whole <= s.taken <= |s.accepted|
            && ReadAll(mode, 0, s.wire) == s.accepted[..whole]
            && forall i :: i in s.acks && s.acks[i] ==> i < whole
  {
    assert Inv(mode, INIT);
    RunKeepsInv(mode, INIT, actions);
    var s := Exec(mode, INIT, actions).value;
    whole := CutReadsNothing(mode, s);
  }

  /** The peer also reads the frame in progress once its last byte is out, acknowledged or not. */
  lemma CutReadsNothing(mode: Mode, s: State) returns (whole: nat)
    requires Inv(mode, s)
    ensures s.completed <= whole <= s.taken
    ensures ReadAll(mode, 0, s.wire) == s.accepted[..whole]
  {
    hide OnWire, ReadNext, Wire, NonceAfter, Messages;
    whole := s.completed;
    var frames := s.accepted[..whole];
    var nonce := NonceAfter(mode, frames);
    if Cut(s).None? || |s.accepted[whole].payload| > MAX_PAYLOAD {
      WireRoundTrip(mode, frames, []);
      assert s.wire + [] == s.wire;
      NothingToRead(mode, nonce);
      return;
    }
    var frame, current, sent := s.accepted[whole], Current(mode, s), Cut(s).value;
    WireRoundTrip(mode, frames, current[..sent]);
    if sent < |current| {
      TruncatedFrameReadsNothing(mode, nonce, frame, sent);
    } else {
      assert current[..sent] == current + [];
      ReadAllStep(mode, nonce, frame, []);
      NothingToRead(mode, nonce + Messages(mode, frame));
      assert s.accepted[..whole + 1] == frames + [frame];
      whole := whole + 1;
    }
  }

  lemma NothingToRead(mode: Mode, nonce: nat)
    ensures ReadAll(mode, nonce, []) == []
  {
  }

  lemma {:induction false} StoppedForGood(mode: Mode, s: State, actions: seq<Action>)
    requires s.phase.Stopped? && Exec(mode, s, actions).Some?
    ensures var end := Exec(mode, s, actions).value;
            end == s.(closed := end.closed, waiting := end.waiting)
    decreases |actions|
  {
    if actions != [] {
      StoppedForGood(mode, Apply(mode, s, actions[0]).value, actions[1..]);
    }
  }

  /** A failed answer is final: however the run goes on, the wire stays as it is, the peer reads no further frame, and
      nobody is told of a success any more. */
  lemma FailuresAreFinal(mode: Mode, before: seq<Action>, after: seq<Action>, i: nat) returns (whole: nat)
    requires mode.Valid() && Exec(mode, INIT, before).Some?
    requires i in Exec(mode, INIT, before).value.acks && !Exec(mode, INIT, before).value.acks[i]
    requires Exec(mode, Exec(mode, INIT, before).value, after).Some?
    ensures var s := Exec(mode, INIT, before).value;
            var end := Exec(mode, s, after).value;
            && end.wire == s.wire && end.acks == s.acks && end.accepted == s.accepted
            && whole <= i + 1 <= |s.accepted| && ReadAll(mode, 0, end.wire) == s.accepted[..whole]
  {
    assert Inv(mode, INIT);
    RunKeepsInv(mode, INIT, before);
    hide Exec, Apply, ReadAll;
    var s := Exec(mode, INIT, before).value;
    StoppedForGood(mode, s, after);
    whole := CutReadsNothing(mode, s);
  }

  /** What the waiter of a command learns: its answer, or an error once the task is gone with the command. */
  function Answer(s: State, id: nat): Option<bool> {
    if id in s.acks then Some(s.acks[id]) else if s.phase.Stopped? then Some(false) else None
  }

  /** In every reachable state a waiter that still listens has been told of success exactly if its frame is whole on
      the wire and the task saw it, and of failure exactly if the task has stopped before that. */
  lemma EveryWaiterIsTold(mode: Mode, actions: seq<Action>, id: nat)
    requires mode.Valid() && Exec(mode, INIT, actions).Some? && id in Exec(mode, INIT, actions).value.waiting
    ensures var s := Exec(mode, INIT, actions).value;
            Answer(s, id) == if id < s.completed then Some(true) else if s.phase.Stopped? then Some(false) else None
  {
    assert Inv(mode, INIT);
    RunKeepsInv(mode, INIT, actions);
  }

  function Undropped(actions: seq<Action>): seq<Action> {
    if actions == [] then []
    else if actions[0].DropWaiter? then Undropped(actions[1..])
    else [actions[0]] + Undropped(actions[1..])
  }

  /** The same queue, wire and task; whoever listens in the first state has the same answer in the second. */
  ghost predicate Agree(s: State, t: State) {
    && t == s.(acks := t.acks, waiting := t.waiting)
    && s.waiting <= t.waiting
    && (forall i :: i in s.acks ==> i in t.acks && t.acks[i] == s.acks[i])
    && (forall i :: i in s.waiting && i in t.acks ==> i in s.acks)
    && (forall i :: i in t.acks ==> i < |t.accepted|)
  }

  lemma StepsAgree(mode: Mode, s: State, t: State, action: Action)
    requires Inv(mode, s) && Agree(s, t) && Apply(mode, s, action).Some? && !action.DropWaiter?
    ensures Apply(mode, t, action).Some? && Agree(Apply(mode, s, action).value, Apply(mode, t, action).value)
  {
    hide OnWire, Wire, NonceAfter, Sendable;
  }

  /** Waiters that are dropped change nothing for anybody else: without the drops the run is still a run, it ends with
      the same queue, wire and task, and every waiter still listening has the same answer. */
  lemma {:induction false} DroppingWaitersChangesNothing(mode: Mode, s: State, t: State, actions: seq<Action>)
    requires Inv(mode, s) && Agree(s, t) && Exec(mode, s, actions).Some?
    ensures var kept := Exec(mode, t, Undropped(actions));
            var end := Exec(mode, s, actions).value;
            && kept.Some? && Agree(end, kept.value)
            && forall i :: i in end.waiting ==> Answer(end, i) == Answer(kept.value, i)
    decreases |actions|
  {
    hide Apply, Answer, Agree, Inv;
    if actions == [] {
      SameAnswers(s, t);
    } else {
      var next := Apply(mode, s, actions[0]).value;
      StepKeepsInv(mode, s, actions[0]);
      if actions[0].DropWaiter? {
        assert Agree(next, t) by { DropAgrees(mode, s, t, actions[0].id); }
        DroppingWaitersChangesNothing(mode, next, t, actions[1..]);
      } else {
        StepsAgree(mode, s, t, actions[0]);
        DroppingWaitersChangesNothing(mode, next, Apply(mode, t, actions[0]).value, actions[1..]);
        assert Undropped(actions)[0] == actions[0] && Undropped(actions)[1..] == Undropped(actions[1..]);
      }
    }
  }

  lemma SameAnswers(s: State, t: State)
    requires Agree(s, t)
    ensures forall i :: i in s.waiting ==> Answer(s, i) == Answer(t, i)
  {
    forall i | i in s.waiting ensures Answer(s, i) == Answer(t, i) {
      assert i in s.acks <==> i in t.acks;
    }
  }

  lemma DropAgrees(mode: Mode, s: State, t: State, id: nat)
    requires Agree(s, t)
    ensures Agree(Apply(mode, s, DropWaiter(id)).value, t)
  {
  }

  /** The queue takes a frame exactly while the task has not stopped and fewer than sixteen are waiting. */
  lemma QueueTakesSixteen(mode: Mode, s: State, frame: Frame)
    requires Inv(mode, s)
    ensures Apply(mode, s, Enqueue(frame)).Some? <==> !s.phase.Stopped? && |s.accepted| - s.taken < 16
    ensures Apply(mode, s, Enqueue(frame)).Some? ==>
              var next := Apply(mode, s, Enqueue(frame)).value;
              next.accepted == s.accepted + [frame] && |s.accepted| in next.waiting && next.wire == s.wire
  {
    hide OnWire, Wire, NonceAfter;
  }

  /** One frame written from the place the task has got to. */
  lemma FrameIsWritten(mode: Mode, s: State) returns (actions: seq<Action>, end: State)
    requires Inv(mode, s) && !s.phase.Stopped? && s.completed < |s.accepted| && Sendable(s.accepted)
    ensures Exec(mode, s, actions) == Some(end) && Inv(mode, end) && end.phase == Idle
    ensures end.completed == s.completed + 1 && end.accepted == s.accepted && end.waiting == s.waiting
  {
    hide OnWire, Wire, NonceAfter;
    var start := s;
    actions := [];
    if s.phase == Idle {
      start := Apply(mode, s, Take).value;
      actions := [Take];
      StepKeepsInv(mode, s, Take);
    }
    assert Exec(mode, s, actions) == Some(start) by {
      assert Exec(mode, start, []) == Some(start) && [Take][1..] == [];
    }
    assert Busy(mode, start);
    var left := |Current(mode, start)| - start.phase.sent;
    var written := Apply(mode, start, WriteSome(left)).value;
    StepKeepsInv(mode, start, WriteSome(left));
    assert Current(mode, written) == Current(mode, start);
    end := Apply(mode, written, Finish).value;
    StepKeepsInv(mode, written, Finish);
    var rest := [WriteSome(left), Finish];
    assert rest[1..] == [Finish] && [Finish][1..] == [];
    assert Exec(mode, start, rest) == Some(end) by {
      assert Exec(mode, end, []) == Some(end);
      assert Exec(mode, written, [Finish]) == Some(end);
    }
    ExecJoins(mode, s, actions, rest);
    actions := actions + rest;
  }

  lemma {:induction false} ExecJoins(mode: Mode, s: State, before: seq<Action>, after: seq<Action>)
    requires Exec(mode, s, before).Some?
    ensures Exec(mode, s, before + after) == Exec(mode, Exec(mode, s, before).value, after)
    decreases |before|
  {
    hide Apply;
    if before == [] {
      assert before + after == after;
    } else {
      assert (before + after)[1..] == before[1..] + after;
      ExecJoins(mode, Apply(mode, s, before[0]).value, before[1..], after);
    }
  }

  /** A task that has not stopped can write everything that is queued, if no frame is too large: then the wire is
      exactly the queue, and everyone who listens is told of success. */
  lemma {:induction false} TaskCanDrain(mode: Mode, s: State) returns (actions: seq<Action>, end: State)
    requires Inv(mode, s) && !s.phase.Stopped? && Sendable(s.accepted)
    ensures Exec(mode, s, actions) == Some(end)
    ensures end.accepted == s.accepted && end.wire == Wire(mode, s.accepted)
    ensures forall i :: i in s.waiting ==> Answer(end, i) == Some(true)
    decreases |s.accepted| - s.completed
  {
    if s.completed == |s.accepted| {
      actions, end := [], s;
      assert s.accepted[..s.completed] == s.accepted && Cut(s).None?;
    } else {
      var first, next := FrameIsWritten(mode, s);
      var rest;
      rest, end := TaskCanDrain(mode, next);
      hide Apply, Inv;
      ExecJoins(mode, s, first, rest);
      actions := first + rest;
    }
  }

  /** The task stops between frames, or in the middle of one, whose waiter is then told that it failed. */
  lemma StoppingIsTold(mode: Mode, s: State)
    ensures Apply(mode, s, Stop) == if s.phase == Idle then Some(s.(phase := Stopped(None), closed := true)) else None
    ensures Apply(mode, s, Abort).Some? <==> s.phase.Writing?
    ensures s.phase.Writing? ==>
              var next := Apply(mode, s, Abort).value;
              && next == s.(phase := Stopped(Some(s.phase.sent)), closed := true, acks := next.acks)
              && next.acks == if s.completed in s.waiting then s.acks[s.completed := false] else s.acks
  {
  }

  /** The connection is closed exactly if it was, or its task has stopped, or somebody has closed it. */
  lemma {:induction false} ClosingIsExact(mode: Mode, s: State, actions: seq<Action>)
    requires Exec(mode, s, actions).Some?
    ensures Exec(mode, s, actions).value.closed
       <==> s.closed || Close in actions || Stop in actions || Abort in actions
    decreases |actions|
  {
    if actions != [] {
      var next := Apply(mode, s, actions[0]).value;
      assert next.closed <==> s.closed || actions[0] == Close || actions[0] == Stop || actions[0] == Abort;
      hide Apply;
      ClosingIsExact(mode, next, actions[1..]);
    }
  }

  /** A frame that is too large is never written; the task can only stop at it. */
  lemma TooLargeStopsTheTask(mode: Mode, s: State, action: Action)
    requires Inv(mode, s) && s.phase.Writing? && |s.accepted[s.completed].payload| > 16777216
    requires Apply(mode, s, action).Some?
    ensures Apply(mode, s, Abort).Some?
    ensures var next := Apply(mode, s, action).value;
            && next.wire == s.wire
            && (next.phase == s.phase || (next.phase.Stopped? && (s.completed in s.waiting ==>
                                            s.completed in next.acks && !next.acks[s.completed])))
  {
    hide OnWire, Wire, NonceAfter;
  }

  lemma NothingWritten(mode: Mode, commands: seq<Frame>)
    requires mode.Valid()
    ensures Sendable(commands[..0]) && Wire(mode, commands[..0]) == [] && NonceAfter(mode, commands[..0]) == 0
  {
  }

  lemma OneMoreFrame(mode: Mode, commands: seq<Frame>, n: nat)
    requires mode.Valid() && n < |commands| && Sendable(commands[..n])
    ensures Sendable(commands[..n + 1]) <==> |commands[n].payload| <= MAX_PAYLOAD
    ensures Sendable(commands[..n + 1]) ==>
              var nonce := NonceAfter(mode, commands[..n]);
              && NonceAfter(mode, commands[..n + 1]) == nonce + Messages(mode, commands[n])
              && Wire(mode, commands[..n + 1]) == Wire(mode, commands[..n]) + OnWire(mode, nonce, commands[n])
  {
    hide OnWire, Messages;
    var upTo := commands[..n + 1];
    assert upTo[..n] == commands[..n] && upTo[n] == commands[n];
  }

  /** The loop of the task over the commands it receives. The connection may be closed while it waits for a command,
      between receiving and writing one, or during the write; it stops then, and at the first frame that is not written
      whole. `acks` holds the answers sent, in order. */
  method WriterLoop(writer: SecureFrameWriter, commands: seq<Frame>) returns (acks: seq<bool>, closed: bool)
    requires writer.mode.Valid() && writer.nonce == 0 && writer.sink.written == [] && !writer.sink.Stopped()
    modifies writer`nonce, writer.sink
    ensures |acks| <= |commands| && forall i :: 0 <= i < |acks| - 1 ==> acks[i]
    ensures var whole := if acks != [] && !acks[|acks| - 1] then |acks| - 1 else |acks|;
            && Sendable(commands[..whole])
            && Wire(writer.mode, commands[..whole]) <= writer.sink.written
            && (whole == |acks| ==> writer.sink.written == Wire(writer.mode, commands[..whole]))
            && (whole < |acks| && Sendable(commands[..whole + 1]) ==>
                  writer.sink.written <= Wire(writer.mode, commands[..whole + 1]))
            && (whole < |acks| && Sendable(commands[..whole + 1]) ==> writer.sink.broken || closed)
            && (writer.sink.Stopped() ==> whole < |acks|)
            && (whole == |acks| < |commands| ==> closed)
  {
    hide OnWire, Messages, Sendable, Wire, NonceAfter;
    acks, closed := [], false;
    NothingWritten(writer.mode, commands);
    while |acks| < |commands|
      invariant |acks| <= |commands| && forall i :: 0 <= i < |acks| ==> acks[i]
      invariant Sendable(commands[..|acks|])
      invariant !writer.sink.Stopped()
      invariant writer.nonce == NonceAfter(writer.mode, commands[..|acks|])
      invariant writer.sink.written == Wire(writer.mode, commands[..|acks|])
      decreases |commands| - |acks|
    {
      var next := |acks|;
      OneMoreFrame(writer.mode, commands, next);
      closed := *;
      if closed {
        return;
      }
      closed := *;
      if closed {
        // Closed after the command was received: an error without a byte written.
        acks := acks + [false];
        return;
      }
      var result := writer.WriteFrame(commands[next]);
      acks := acks + [result == Written];
      if result != Written {
        closed := writer.sink.dropped;
        return;
      }
    }
  }
}
