/** An undisturbed push succeeds; and what a host makes of cancellations and errors. */
module PushDelivery {
  import opened Wrappers
  import opened Bytes
  import opened TransferWires
  import opened PushEnds
  import FileTransfer

  /** A frame that finds the daemon's queue full. */
  predicate Overflows(s: State, action: Action) {
    && action == ArriveAtDaemon && s.daemon.routed && |s.daemon.inbox| >= 16
    && s.toDaemon != [] && s.toDaemon[0] != Cancel
  }

  /** A run without an error from outside and without an overflow. */
  ghost predicate Smooth(s: State, actions: seq<Action>)
    requires Exec(s, actions).Some?
    decreases |actions|
  {
    actions != [] ==>
      && Due(actions[0]) && !Overflows(s, actions[0])
      && Smooth(Apply(s, actions[0]).value, actions[1..])
  }

  /** All but the window updates. */
  function Replies(data: seq<Message>): seq<Message> {
    if data == [] then [] else (if data[0].Grant? then [] else [data[0]]) + Replies(data[1..])
  }

  lemma {:induction false} RepliesSnoc(data: seq<Message>, message: Message)
    ensures Replies(data + [message]) == Replies(data) + if message.Grant? then [] else [message]
  {
    var all := data + [message];
    if data == [] {
      assert all == [message] && all[1..] == [];
    } else {
      assert all[0] == data[0] && all[1..] == data[1..] + [message];
      RepliesSnoc(data[1..], message);
    }
  }

  /** What the daemon has said and the host has not taken yet. */
  function Expected(s: State): seq<Message> {
    if s.host.phase == Opening then (if s.daemon.phase == Starting then [] else [Meta])
    else if (s.host.phase == Ended || s.host.phase == Waiting) && s.daemon.phase == Complete then [End]
    else []
  }

  ghost predicate Undisturbed(s: State) {
    && s.open && !s.host.canceled && s.host.cancels == 0 && s.host.phase != HostFailed
    && !s.daemon.canceled && !s.daemon.told && !s.daemon.spawned && !s.daemon.clearing
    && (Serving(s.daemon.phase) || s.daemon.phase == Complete)
    && (s.host.routed <==> s.host.phase != Succeeded)
    && (s.daemon.routed <==> s.daemon.phase != Complete)
    && (s.daemon.phase == Starting ==> s.host.phase == Opening)
    && (s.daemon.phase == Complete ==> DoneSending(s.host.phase))
    && Plain(s.toDaemon)
    && s.host.inbox + Replies(s.toHost) == Expected(s)
  }

  lemma HostKeepsUndisturbed(s: State)
    requires Undisturbed(s) && HostSteps(s).Some?
    ensures Undisturbed(HostSteps(s).value)
  {
    PlainSnoc(s.toDaemon, End);
    if s.host.phase.Holding? && s.host.phase.n <= |s.host.unsent| {
      PlainSnoc(s.toDaemon, Chunk(s.host.unsent[..s.host.phase.n]));
    }
    hide Replies, Plain;
    var inbox, replies := s.host.inbox, Replies(s.toHost);
    if inbox != [] {
      assert inbox[0] == Expected(s)[0] && |inbox| + |replies| == 1;
      assert inbox[1..] == [] && replies == [];
    }
    match s.host.phase
    case Opening =>
    case Waiting =>
    case Holding(n) =>
      assert HostSteps(s).value
          == s.(host := s.host.(phase := Sent, unsent := s.host.unsent[n..], credit := s.host.credit - n),
                toDaemon := s.toDaemon + [Chunk(s.host.unsent[..n])]);
      hide HostSteps;
    case _ =>
  }

  lemma HostArrivalKeepsUndisturbed(s: State)
    requires Undisturbed(s) && ArrivedAtHost(s).Some?
    ensures Undisturbed(ArrivedAtHost(s).value)
  {
    var first, rest := s.toHost[0], s.toHost[1..];
    assert Replies(s.toHost) == (if first.Grant? then [] else [first]) + Replies(rest);
    hide Replies, Plain, Credited;
    if !first.Grant? {
      assert Expected(s)[|s.host.inbox|] == first;
      assert s.host.inbox + ([first] + Replies(rest)) == (s.host.inbox + [first]) + Replies(rest);
    }
  }

  /** Something is posted while the daemon is active. */
  lemma PostingExtends(s: State, message: Message)
    ensures s.host.inbox + Replies(s.toHost + [message])
         == s.host.inbox + Replies(s.toHost) + if message.Grant? then [] else [message]
  {
    RepliesSnoc(s.toHost, message);
  }

  lemma WritingKeepsUndisturbed(s: State, bytes: seq<Byte>)
    requires Undisturbed(s) && s.daemon.phase == Working && s.daemon.inbox != []
    ensures Undisturbed(Written(s, bytes))
  {
    var (held, grant) := FileTransfer.Consume(s.daemon.held, |bytes|);
    PostingExtends(s, Grant(grant));
    hide Replies, Plain, FileTransfer.Consume;
    assert s.host.inbox + Replies(s.toHost) + [] == s.host.inbox + Replies(s.toHost);
  }

  lemma EndingKeepsUndisturbed(s: State)
    requires Undisturbed(s) && s.daemon.phase == Working && s.daemon.inbox != []
    requires s.host.phase == Ended || s.host.phase == Waiting
    ensures Undisturbed(TakenEnd(s))
  {
    PostingExtends(s, End);
    hide Replies, Plain;
  }

  lemma OpeningKeepsUndisturbed(s: State)
    requires Undisturbed(s) && (s.daemon.phase == Starting || s.daemon.phase == Granting)
    ensures Undisturbed(DaemonSteps(s).value)
  {
    PostingExtends(s, Meta);
    PostingExtends(s, Grant(FILE_FLOW_WINDOW));
    hide Replies, Plain;
    assert s.host.inbox + Replies(s.toHost) + [] == s.host.inbox + Replies(s.toHost);
    if s.daemon.phase == Starting {
      assert s.host.inbox + Replies(s.toHost) + [Meta] == [Meta];
    }
  }

  lemma DaemonKeepsUndisturbed(file: seq<Byte>, s: State)
    requires Inv(file, s) && Undisturbed(s) && DaemonSteps(s).Some?
    ensures Undisturbed(DaemonSteps(s).value)
  {
    if s.daemon.phase == Working {
      assert s.daemon.inbox != [] && !s.daemon.told by { hide Inv; }
      EndMeansDone(file, s);
      hide Inv, Undisturbed, Written;
      match s.daemon.inbox[0] {
        case Chunk(bytes) => WritingKeepsUndisturbed(s, bytes);
        case End => EndingKeepsUndisturbed(s);
      }
    } else {
      assert s.daemon.phase == Starting || s.daemon.phase == Granting by { hide Inv; }
      hide Inv, Undisturbed, DaemonSteps;
      OpeningKeepsUndisturbed(s);
    }
  }

  lemma EndMeansDone(file: seq<Byte>, s: State)
    requires Inv(file, s) && Undisturbed(s) && s.daemon.phase == Working && s.daemon.inbox != []
    ensures s.daemon.inbox[0].Chunk? || s.daemon.inbox[0].End?
    ensures s.daemon.inbox[0] == End ==> s.host.phase == Ended || s.host.phase == Waiting
  {
    PlainTail(s.daemon.inbox);
    CarriesFirst(s.daemon.inbox);
    hide BytesInv, CreditInv, KnowledgeInv, Carries, Plain, Shaped, Spent;
  }

  lemma ArrivalKeepsUndisturbed(file: seq<Byte>, s: State)
    requires Inv(file, s) && Undisturbed(s) && ArrivedAtDaemon(s).Some? && !Overflows(s, ArriveAtDaemon)
    ensures Undisturbed(ArrivedAtDaemon(s).value)
  {
    PlainTail(s.toDaemon);
    if s.daemon.phase == Complete {
      NothingIsLeft(s.toDaemon) by { hide BytesInv, CreditInv, KnowledgeInv; }
    }
    hide Inv, Replies, Plain;
  }

  lemma StepKeepsUndisturbed(file: seq<Byte>, s: State, action: Action)
    requires Inv(file, s) && Undisturbed(s) && Apply(s, action).Some? && Due(action) && !Overflows(s, action)
    ensures Undisturbed(Apply(s, action).value)
  {
    hide Inv, HostSteps, ArrivedAtHost, DaemonSteps, ArrivedAtDaemon;
    match action
    case HostStep => HostKeepsUndisturbed(s);
    case ArriveAtHost => HostArrivalKeepsUndisturbed(s);
    case DaemonStep => DaemonKeepsUndisturbed(file, s);
    case ArriveAtDaemon => ArrivalKeepsUndisturbed(file, s);
    case _ => hide Replies, Plain;
  }

  lemma {:induction false} RunKeepsUndisturbed(file: seq<Byte>, s: State, actions: seq<Action>)
    requires Inv(file, s) && Undisturbed(s) && Exec(s, actions).Some? && Smooth(s, actions)
    ensures Undisturbed(Exec(s, actions).value)
    decreases |actions|
  {
    hide Apply, Inv, Undisturbed, Overflows;
    if actions != [] {
      StepKeepsInv(file, s, actions[0]);
      StepKeepsUndisturbed(file, s, actions[0]);
      RunKeepsUndisturbed(file, Apply(s, actions[0]).value, actions[1..]);
    }
  }

  /** A push that nothing disturbs succeeds: when no error comes from outside and no queue overflows, then by the time
      nothing is due any more both ends have succeeded and the daemon has written the whole file. */
  lemma UndisturbedPushDelivers(file: seq<Byte>, s: State, actions: seq<Action>)
    requires Reachable(file, s, actions) && Smooth(Initial(file), actions) && Quiet(s)
    ensures s.host.phase == Succeeded && s.daemon.phase == Complete && s.daemon.received == file
  {
    StartKeepsInv(file);
    assert Undisturbed(Initial(file)) by { hide Exec; assert [] + Replies([]) == []; }
    hide Inv, Apply, Exec, Quiet, Smooth;
    RunKeepsUndisturbed(file, Initial(file), actions);
    QuietMeansOver(file, s, actions);
    ReceivedIsAPrefix(file, s, actions);
  }

  /** What a host makes of a cancellation: the next time it looks, whether at its queue, at its credit or after a send,
      it fails; and it tells the daemon so unless it was the queue it looked at. */
  lemma CanceledHostFails(s: State)
    requires s.host.canceled && !HostEnded(s) && (s.host.phase == Sending ==> s.host.unsent == [])
    ensures var looks := s.host.phase == Opening || s.host.phase == Checking || s.host.phase == Waiting;
            HostSteps(s) == Some(s.(host := s.host.(phase := HostFailed, routed := false,
                                                    cancels := s.host.cancels + if looks then 0 else 1)))
  {
  }

  /** What it makes of an error of the daemon that is first in its queue: it fails when it looks there, which is after
      each chunk and while it awaits an answer, and tells the daemon nothing. */
  lemma ErrorsEndTheHost(s: State)
    requires !s.host.canceled && s.host.inbox != [] && s.host.inbox[0] == Failure
    requires s.host.phase == Opening || s.host.phase == Checking || s.host.phase == Waiting
    ensures HostSteps(s) == Some(s.(host := s.host.(phase := HostFailed, routed := false, inbox := s.host.inbox[1..])))
  {
  }

  /** What the daemon makes of a cancel frame: its handler fails at the next frame it would take. */
  lemma ToldDaemonFails(s: State)
    requires s.daemon.phase == Working && s.daemon.told
    ensures DaemonSteps(s) == Some(s.(daemon := s.daemon.(phase := Failing)))
  {
  }

  /** The daemon says nothing on a canceled stream but the cancel frame that its own overflow has still to send. */
  lemma CanceledStreamsAreSilent(s: State, action: Action)
    requires Apply(s, action).Some? && s.daemon.canceled && !action.SpawnedCancel?
    ensures var toHost := Apply(s, action).value.toHost;
            toHost == if action.ArriveAtHost? then s.toHost[1..] else if action.Disconnect? then [] else s.toHost
  {
    hide FileTransfer.Consume, Delivered, HostSteps;
    if action.HostStep? {
      HostSaysNothing(s);
    }
  }

  lemma HostSaysNothing(s: State)
    requires HostSteps(s).Some?
    ensures HostSteps(s).value.toHost == s.toHost
  {
  }

  // ---- Which steps there are ----

  /** The host reads up to 256 KiB while it is sending, and an error can meet it there; the daemon's errors come before
      it is ready and at a frame it has taken. The connection is lost once. */
  lemma WhatCanHappen(s: State, n: nat)
    ensures Apply(s, Read(n)).Some? <==> s.host.phase == Sending && 1 <= n <= 262144 && n <= |s.host.unsent|
    ensures Apply(s, Read(n)).Some? ==> Apply(s, Read(n)).value == s.(host := s.host.(phase := Holding(n)))
    ensures Apply(s, HostBreaks).Some? <==> s.host.phase == Sending
    ensures Apply(s, DaemonBreaks).Some?
       <==> s.daemon.phase == Starting || (s.daemon.phase == Working && s.daemon.inbox != [])
    ensures Apply(s, DaemonBreaks).Some? ==> Apply(s, DaemonBreaks).value.daemon.phase == Failing
    ensures Apply(s, Disconnect).Some? <==> s.open
    ensures s.open ==>
              Apply(s, Disconnect).value == State(s.host.(routed := false), s.daemon.(routed := false, canceled := true,
                                                                                     told := true), [], [], false)
  {
  }

  /** A cancel frame takes the route, marks the stream and tells the handler, also one that has frames left to take. */
  lemma CancelFramesAreHandled(s: State)
    requires s.open && s.toDaemon != [] && s.toDaemon[0] == Cancel && !s.daemon.clearing
    ensures Apply(s, ArriveAtDaemon)
         == Some(s.(toDaemon := s.toDaemon[1..], daemon := s.daemon.(canceled := true, told := true, routed := false)))
  {
  }

  /** A daemon that fails unregisters the stream, reports the error unless the stream is canceled, and forgets the
      cancellation. */
  lemma FailingDaemonsReport(s: State)
    requires s.daemon.phase == Failing
    ensures Exec(s, [DaemonStep, DaemonStep, DaemonStep])
         == Some(s.(daemon := s.daemon.(phase := DaemonFailed, routed := false, canceled := false),
                    toHost := s.toHost + if s.daemon.canceled || !s.open then [] else [Failure]))
  {
    var s1 := DaemonSteps(s).value;
    var s2 := DaemonSteps(s1).value;
    var s3 := DaemonSteps(s2).value;
    assert Exec(s3, []) == Some(s3) && [DaemonStep][1..] == [] && [DaemonStep, DaemonStep][1..] == [DaemonStep];
    assert Exec(s2, [DaemonStep]) == Some(s3) && [DaemonStep, DaemonStep, DaemonStep][1..] == [DaemonStep, DaemonStep];
    assert Exec(s1, [DaemonStep, DaemonStep]) == Some(s3);
    assert s.toHost + [] == s.toHost;
  }

  /** So does the daemon's loop when it answers a frame without a route, whether or not the handler has failed. */
  lemma StrayFramesForgetTheCancellation(s: State)
    requires s.open && !s.daemon.clearing && !s.daemon.routed && s.toDaemon != [] && s.toDaemon[0] != Cancel
    ensures Exec(s, [ArriveAtDaemon, FinishStream])
         == Some(s.(daemon := s.daemon.(canceled := false), toDaemon := s.toDaemon[1..],
                    toHost := s.toHost + if s.daemon.canceled then [] else [Failure]))
  {
    var s1 := ArrivedAtDaemon(s).value;
    var s2 := StreamFinished(s1).value;
    assert Exec(s2, []) == Some(s2) && [FinishStream][1..] == [];
    assert Exec(s1, [FinishStream]) == Some(s2) && [ArriveAtDaemon, FinishStream][1..] == [FinishStream];
    assert s.toHost + [] == s.toHost;
  }
}
