/** An undisturbed pull succeeds; and what both ends make of cancellations and errors. */
module PullDelivery {
  import opened Wrappers
  import opened Bytes
  import opened TransferWires
  import opened PullEnds
  import FileTransfer

  /** A frame that finds the host's queue full. */
  predicate Overflows(s: State, action: Action) {
    action == ArriveAtHost && s.host.routed && |s.host.inbox| >= 16
  }

  /** A run without an error from outside and without an overflow. */
  ghost predicate Smooth(s: State, actions: seq<Action>)
    requires Exec(s, actions).Some?
    decreases |actions|
  {
    actions != [] ==>
      && Due(actions[0]) && !Overflows(s, actions[0])
      && Smooth(Apply(s, actions[0]).value, actions[1..])
  }

  /** What the daemon has said and the host has not taken yet: the metadata first, then the file and its end. */
  ghost predicate InOrder(opening: bool, starting: bool, said: seq<Message>) {
    if !opening then Plain(said)
    else if starting then said == []
    else said != [] && said[0] == Meta && Plain(said[1..])
  }

  ghost predicate Undisturbed(s: State) {
    && s.open && !s.host.canceled && s.host.cancels == 0 && s.host.phase != HostFailed
    && !s.daemon.canceled && !s.daemon.told && (Serving(s.daemon.phase) || s.daemon.phase == Complete)
    && (s.host.routed <==> s.host.phase != Succeeded)
    && (s.daemon.phase == Starting ==> s.host.phase == Opening)
    && !Carries(s.toDaemon, Cancel)
    && InOrder(s.host.phase == Opening, s.daemon.phase == Starting, s.host.inbox + s.toHost)
  }

  lemma InOrderSnoc(opening: bool, said: seq<Message>, message: Message)
    requires InOrder(opening, false, said) && (message.Chunk? || message.End?)
    ensures InOrder(opening, false, said + [message])
  {
    if opening {
      assert (said + [message])[1..] == said[1..] + [message];
      PlainSnoc(said[1..], message);
    } else {
      PlainSnoc(said, message);
    }
  }

  lemma InOrderTail(opening: bool, said: seq<Message>)
    requires InOrder(opening, false, said) && said != []
    ensures Plain(said[1..])
    ensures if opening then said[0] == Meta else said[0].Chunk? || said[0].End?
  {
    if !opening {
      PlainTail(said);
    }
  }

  /** A frame is taken at the host's end of what the daemon has said. */
  lemma TakingKeepsUndisturbed(file: seq<Byte>, s: State)
    requires Inv(file, s) && Undisturbed(s)
    requires s.host.inbox != [] && (s.host.phase == Opening || s.host.phase == Working)
    ensures Undisturbed(Taken(s))
  {
    assert s.host.phase == Opening ==> s.daemon.phase != Starting by { hide Inv; }
    hide Inv;
    var inbox, toHost := s.host.inbox, s.toHost;
    assert (inbox + toHost)[1..] == inbox[1..] + toHost && (inbox + toHost)[0] == inbox[0];
    InOrderTail(s.host.phase == Opening, inbox + toHost);
    CarriesSnoc(s.toDaemon, Grant(s.host.held + if inbox[0].Chunk? then |inbox[0].bytes| else 0));
    hide Carries, Plain, FileTransfer.Consume;
  }

  lemma HostKeepsUndisturbed(file: seq<Byte>, s: State)
    requires Inv(file, s) && Undisturbed(s) && HostSteps(s).Some?
    ensures Undisturbed(HostSteps(s).value)
  {
    if s.host.phase == Opening || s.host.phase == Working {
      assert s.host.inbox != [] && HostSteps(s) == Some(Taken(s)) by { hide Inv, Taken; }
      hide HostSteps, Undisturbed;
      TakingKeepsUndisturbed(file, s);
    } else {
      CarriesSnoc(s.toDaemon, Grant(FILE_FLOW_WINDOW));
      hide Inv, Carries, Plain, FileTransfer.Consume;
    }
  }

  lemma HostArrivalKeepsUndisturbed(s: State)
    requires Undisturbed(s) && ArrivedAtHost(s).Some? && !Overflows(s, ArriveAtHost) && s.host.routed
    ensures Undisturbed(ArrivedAtHost(s).value)
  {
    var inbox, toHost := s.host.inbox, s.toHost;
    assert inbox + toHost == (inbox + [toHost[0]]) + toHost[1..];
    hide InOrder, Carries;
  }

  lemma DaemonKeepsUndisturbed(s: State)
    requires Undisturbed(s) && DaemonSteps(s).Some?
    ensures Undisturbed(DaemonSteps(s).value)
  {
    var d, said := s.daemon, s.host.inbox + s.toHost;
    var message := match d.phase
      case Starting => Meta
      case Holding(n) => Chunk(if n <= |d.unsent| then d.unsent[..n] else [])
      case _ => End;
    assert s.host.inbox + (s.toHost + [message]) == said + [message];
    if d.phase == Starting {
      assert said + [Meta] == [Meta] && [Meta][1..] == [];
    } else {
      InOrderSnoc(s.host.phase == Opening, said, message);
      hide InOrder;
    }
    hide Carries;
  }

  lemma DaemonArrivalKeepsUndisturbed(s: State)
    requires Undisturbed(s) && ArrivedAtDaemon(s).Some? && Controls(s.toDaemon)
    ensures Undisturbed(ArrivedAtDaemon(s).value)
  {
    ControlsTail(s.toDaemon);
    CarriesFirst(s.toDaemon);
    hide Carries, InOrder, Controls, Credited;
  }

  lemma PlainSuffix(left: seq<Message>, right: seq<Message>)
    requires Plain(left + right)
    ensures Plain(right)
  {
    assert forall i :: 0 <= i < |right| ==> right[i] == (left + right)[|left| + i];
  }

  lemma SucceededIsQuiet(file: seq<Byte>, s: State)
    requires Inv(file, s) && Undisturbed(s) && s.host.phase == Succeeded
    ensures s.toHost == []
  {
    assert Spent(s.host.inbox) && Spent(s.toHost) by { hide BytesInv, CreditInv, KnowledgeInv, Carries; }
    hide Inv, Carries;
    PlainSuffix(s.host.inbox, s.toHost);
    NothingIsLeft(s.toHost);
  }

  lemma StepKeepsUndisturbed(file: seq<Byte>, s: State, action: Action)
    requires Inv(file, s) && Undisturbed(s) && Apply(s, action).Some? && Due(action) && !Overflows(s, action)
    ensures Undisturbed(Apply(s, action).value)
  {
    assert Controls(s.toDaemon) by { hide DataInv, KnowledgeInv; }
    if s.host.phase == Succeeded {
      SucceededIsQuiet(file, s);
    }
    hide Inv, HostSteps, ArrivedAtHost, DaemonSteps, ArrivedAtDaemon, InOrder;
    match action
    case HostStep => HostKeepsUndisturbed(file, s);
    case ArriveAtHost =>
      assert s.toHost != [] by { ArrivalNeedsAFrame(s); }
      HostArrivalKeepsUndisturbed(s);
    case DaemonStep => DaemonKeepsUndisturbed(s);
    case ArriveAtDaemon => DaemonArrivalKeepsUndisturbed(s);
    case _ =>
  }

  lemma ArrivalNeedsAFrame(s: State)
    requires ArrivedAtHost(s).Some?
    ensures s.toHost != []
  {
  }

  lemma {:induction false} RunKeepsUndisturbed(file: seq<Byte>, s: State, actions: seq<Action>)
    requires Inv(file, s) && Undisturbed(s) && Exec(s, actions).Some? && Smooth(s, actions)
    ensures Undisturbed(Exec(s, actions).value)
    decreases |actions|
  {
    hide Apply, Inv, Undisturbed, Overflows;
    if actions != [] {
      StepKeepsInv(file, s, actions[0]);
      StepKeepsUndisturbed(file, s, actions[0]);
      RunKeepsUndisturbed(file, Apply(s, actions[0]).value, actions[1..]);
    }
  }

  /** A pull that nothing disturbs succeeds: when no error comes from outside and no queue overflows, then by the time
      nothing is due any more both ends have succeeded and the host has written the whole file. */
  lemma UndisturbedPullDelivers(file: seq<Byte>, s: State, actions: seq<Action>)
    requires Reachable(file, s, actions) && Smooth(Initial(file), actions) && Quiet(s)
    ensures s.host.phase == Succeeded && s.daemon.phase == Complete && s.host.received == file
  {
    StartKeepsInv(file);
    assert Undisturbed(Initial(file)) by { hide Exec; }
    hide Inv, Apply, Exec, Quiet, Smooth;
    RunKeepsUndisturbed(file, Initial(file), actions);
    EveryPullEnds(file, s, actions);
    HostSuccessMeansDelivered(file, s, actions);
  }

  /** What a host makes of a cancellation: the next time it looks it fails, and tells the daemon so unless it was the
      queue it looked at. Only a transfer whose end it has seen goes on. */
  lemma CanceledHostFails(s: State)
    requires s.host.canceled && !HostEnded(s) && s.host.phase != Flushing
    ensures var looks := s.host.phase == Opening || s.host.phase == Working;
            HostSteps(s) == Some(s.(host := s.host.(phase := HostFailed, routed := false,
                                                    cancels := s.host.cancels + if looks then 0 else 1)))
  {
  }

  /** An error of the daemon that is first in the queue ends the host, which tells the daemon nothing. */
  lemma ErrorsEndTheHost(s: State)
    requires !s.host.canceled && s.host.inbox != [] && s.host.inbox[0] == Failure
    requires s.host.phase == Opening || s.host.phase == Working
    ensures HostSteps(s) == Some(s.(host := s.host.(phase := HostFailed, routed := false, inbox := s.host.inbox[1..])))
  {
  }

  /** A canceled daemon fails at its next step, also if it sleeps for credit. */
  lemma CanceledDaemonFails(s: State)
    requires s.daemon.canceled && s.daemon.told && Serving(s.daemon.phase)
    ensures DaemonSteps(s) == Some(s.(daemon := s.daemon.(phase := Failing)))
  {
  }

  /** The daemon says nothing on a canceled stream. */
  lemma CanceledStreamsAreSilent(s: State, action: Action)
    requires Apply(s, action).Some? && s.daemon.canceled
    ensures var toHost := Apply(s, action).value.toHost;
            toHost == if action.ArriveAtHost? then s.toHost[1..] else if action.Disconnect? then [] else s.toHost
  {
    hide FileTransfer.Consume, Delivered, HostSteps;
    if action.HostStep? {
      HostSaysNothing(s);
    }
  }

  lemma HostSaysNothing(s: State)
    requires HostSteps(s).Some?
    ensures HostSteps(s).value.toHost == s.toHost
  {
  }

  // ---- Which steps there are ----

  /** The daemon reads up to 256 KiB unless it has been told to stop. Errors can meet the host when it creates, writes
      and finishes its file, the daemon when it opens and reads its own. The connection is lost once. */
  lemma WhatCanHappen(s: State, n: nat)
    ensures Apply(s, Read(n)).Some?
       <==> s.daemon.phase == Sending && !s.daemon.told && 1 <= n <= 262144 && n <= |s.daemon.unsent|
    ensures Apply(s, Read(n)).Some? ==> Apply(s, Read(n)).value == s.(daemon := s.daemon.(phase := Holding(n)))
    ensures Apply(s, HostBreaks).Some?
       <==> s.host.phase == Granting || s.host.phase == Flushing
            || (s.host.phase == Working && s.host.inbox != [] && s.host.inbox[0].Chunk?)
    ensures Apply(s, DaemonBreaks).Some? <==> s.daemon.phase == Starting || s.daemon.phase == Sending
    ensures Apply(s, DaemonBreaks).Some? ==> Apply(s, DaemonBreaks).value == s.(daemon := s.daemon.(phase := Failing))
    ensures Apply(s, Disconnect).Some? <==> s.open
    ensures s.open ==>
              Apply(s, Disconnect).value
              == State(s.host.(routed := false), s.daemon.(canceled := true, told := true), [], [], false)
  {
  }

  /** A daemon that fails unregisters the stream, reports the error unless the stream is canceled, and forgets the
      cancellation. */
  lemma FailingDaemonsReport(s: State)
    requires s.daemon.phase == Failing
    ensures Exec(s, [DaemonStep, DaemonStep, DaemonStep])
         == Some(s.(daemon := s.daemon.(phase := DaemonFailed, canceled := false),
                    toHost := s.toHost + if s.daemon.canceled || !s.open then [] else [Failure]))
  {
    var s1 := DaemonSteps(s).value;
    var s2 := DaemonSteps(s1).value;
    var s3 := DaemonSteps(s2).value;
    assert Exec(s3, []) == Some(s3) && [DaemonStep][1..] == [] && [DaemonStep, DaemonStep][1..] == [DaemonStep];
    assert Exec(s2, [DaemonStep]) == Some(s3) && [DaemonStep, DaemonStep, DaemonStep][1..] == [DaemonStep, DaemonStep];
    assert Exec(s1, [DaemonStep, DaemonStep]) == Some(s3);
    assert s.toHost + [] == s.toHost;
  }

  /** A cancel frame marks the stream and tells the handler. */
  lemma CancelFramesAreHandled(s: State)
    requires s.open && s.toDaemon != [] && s.toDaemon[0] == Cancel
    ensures Apply(s, ArriveAtDaemon)
         == Some(s.(toDaemon := s.toDaemon[1..], daemon := s.daemon.(canceled := true, told := true)))
  {
  }

  /** A window update counts until the daemon has finished its stream. */
  lemma GrantsCount(s: State)
    requires s.open && s.toDaemon != [] && s.toDaemon[0].Grant?
    requires 1 <= s.toDaemon[0].window && s.daemon.credit + s.toDaemon[0].window <= 16777216
    ensures var rest, window := s.(toDaemon := s.toDaemon[1..]), s.toDaemon[0].window;
            Apply(s, ArriveAtDaemon)
            == Some(if s.daemon.phase == Complete || s.daemon.phase == DaemonFailed then rest
                    else rest.(daemon := s.daemon.(credit := s.daemon.credit + window)))
  {
  }
}
