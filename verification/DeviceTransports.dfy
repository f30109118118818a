/** The host's connection object: its methods are the critical sections whose interleavings `StreamRouting` studies. */
module DeviceTransports {
  import opened Wrappers
  import opened Bytes
  import opened Frames
  import opened FlowCredits
  import opened StreamRouting

  /** The reader has something to push or a cancellation to signal only for a stream it knows. */
  function Settled(s: State): State
    requires Inv(s)
  {
    if s.reader.Canceling? then Signaled(s).value else s
  }

  /** What the reader does with one frame if the only thing that may come in between is that the holder of a stream
      drops it after the reader has looked up its route. */
  function Handled(flow: bool, s: State, incoming: Incoming, drops: bool): State
    requires s.reader == Reading && Inv(s)
  {
    ArrivalKeepsInv(flow, s, incoming);
    var arrived := Arrived(flow, s, incoming).value;
    if !arrived.reader.Holding? then Settled(arrived)
    else
      LookedUpIsOpen(flow, s, incoming);
      var dropped := if drops then Apply(flow, arrived, Drop(arrived.reader.id)).value else arrived;
      DropKeepsInv(flow, arrived, arrived.reader.id);
      PushKeepsInv(dropped);
      Settled(Pushed(dropped).value)
  }

  lemma LookedUpIsOpen(flow: bool, s: State, incoming: Incoming)
    requires s.reader == Reading && Inv(s) && Arrived(flow, s, incoming).value.reader.Holding?
    ensures var arrived := Arrived(flow, s, incoming).value;
            && Apply(flow, arrived, Drop(arrived.reader.id)).Some? && arrived.opens == s.opens
            && Pushed(arrived).Some? && Pushed(Apply(flow, arrived, Drop(arrived.reader.id)).value).Some?
  {
    assert Delivers(s, incoming.id);
  }

  lemma DropKeepsInv(flow: bool, s: State, id: U32)
    requires Inv(s) && Apply(flow, s, Drop(id)).Some?
    ensures Inv(Apply(flow, s, Drop(id)).value)
  {
    HolderKeepsInv(flow, s, Drop(id));
  }

  lemma {:induction false} ExecAppend(flow: bool, s: State, actions: seq<Action>, action: Action)
    requires Exec(flow, s, actions).Some?
    ensures Exec(flow, s, actions + [action]) == Apply(flow, Exec(flow, s, actions).value, action)
    decreases |actions|
  {
    hide Apply;
    var all := actions + [action];
    if actions == [] {
      assert all[0] == action && all[1..] == [];
    } else {
      assert all[0] == actions[0] && all[1..] == actions[1..] + [action];
      ExecAppend(flow, Apply(flow, s, actions[0]).value, actions[1..], action);
    }
  }

  lemma SettlingIsARun(flow: bool, s: State, actions: seq<Action>, reached: State) returns (all: seq<Action>)
    requires Exec(flow, s, actions) == Some(reached) && Inv(reached)
    ensures Exec(flow, s, all) == Some(Settled(reached)) && Inv(Settled(reached))
  {
    all := actions;
    if reached.reader.Canceling? {
      SignalKeepsInv(reached);
      hide Inv;
      ExecAppend(flow, s, actions, SignalCancel);
      all := actions + [SignalCancel];
    }
  }

  /** The steps that handle one frame are a run of the step relation, so all it keeps is kept. */
  lemma HandlingIsARun(flow: bool, s: State, incoming: Incoming, drops: bool) returns (actions: seq<Action>)
    requires s.reader == Reading && Inv(s)
    ensures Exec(flow, s, actions) == Some(Handled(flow, s, incoming, drops))
    ensures Inv(Handled(flow, s, incoming, drops))
  {
    hide Arrived, Pushed, Signaled, Inv;
    ReadingAccepts(flow, s, incoming);
    ArrivalKeepsInv(flow, s, incoming);
    var arrived := Arrived(flow, s, incoming).value;
    assert Exec(flow, s, []) == Some(s) && [] + [Arrive(incoming)] == [Arrive(incoming)];
    ExecAppend(flow, s, [], Arrive(incoming));
    var before, reached := [Arrive(incoming)], arrived;
    if arrived.reader.Holding? {
      LookedUpIsOpen(flow, s, incoming);
      if drops {
        DropKeepsInv(flow, arrived, arrived.reader.id);
        ExecAppend(flow, s, before, Drop(arrived.reader.id));
        before, reached := before + [Drop(arrived.reader.id)], Apply(flow, arrived, Drop(arrived.reader.id)).value;
      }
      PushKeepsInv(reached);
      ExecAppend(flow, s, before, Push);
      before, reached := before + [Push], Pushed(reached).value;
    }
    actions := SettlingIsARun(flow, s, before, reached);
  }

  lemma ReadingAccepts(flow: bool, s: State, incoming: Incoming)
    requires s.reader == Reading
    ensures Arrived(flow, s, incoming).Some?
  {
  }

  /** Kinds after which nothing more is due on a stream. */
  predicate CompletesStream(kind: FrameKind) {
    kind in {ExecExit, FileEnd, PtyExit, ClipboardData, Pong, ProxyStartAck, Error}
  }

  class DeviceTransport {
    const flow: bool
    var routes: set<U32>
    var streams: map<U32, Stream>
    var nextStreamId: U32
    var closed: bool
    var cleared: bool
    /** Streams whose holder has seen the end: a completing frame or the cancellation. */
    var completed: set<U32>
    ghost var opens: nat
    var reader: Reader

    /** The connection between two critical sections. */
    ghost function View(): State
      reads this
    {
      State(routes, streams, nextStreamId, opens, map[], reader, closed, 0, cleared)
    }

    constructor (flow: bool)
      ensures this.flow == flow && View() == INIT && Inv(View())
    {
      this.flow := flow;
      routes, streams, nextStreamId, opens := {}, map[], 1, 0;
      closed, cleared, completed, reader := false, false, {}, Reading;
    }

    /** The body of the reader loop for one frame. Between looking up the route and sending, the holder may drop the
        stream; the reader then finds the receiver closed. */
    method HandleFrame(incoming: Incoming, drops: bool)
      requires Inv(View()) && reader == Reading
      modifies this`routes, this`streams, this`reader
      ensures View() == Handled(flow, old(View()), incoming, drops)
    {
      var id := incoming.id;
      match incoming
      case WindowUpdate(_, bytes) =>
        if !flow || bytes.None? {
          reader := Closing;
        } else if id in routes {
          var credit := AddCredit(streams[id].credit, bytes.value);
          if credit.None? {
            reader := Closing;
          } else {
            streams := streams[id := streams[id].(credit := credit.value)];
          }
        }
      case CancelFrame(_) =>
        if id in routes {
          routes := routes - {id};
          streams := streams[id := streams[id].(canceled := true)];
        }
      case Data(_, frame) =>
        if id in streams {
          streams := streams[id := streams[id].(arrived := streams[id].arrived + [frame])];
        }
        if id in routes {
          assert Delivers(old(View()), id);
          if drops {
            Forget(id);
          }
          TrySend(id, frame);
        }
    }

    /** The removal of the route and of the receiver when a stream is dropped. */
    method Forget(id: U32)
      requires id in streams
      modifies this`routes, this`streams
      ensures routes == old(routes) - {id} && streams == old(streams)[id := old(streams)[id].(open := false)]
    {
      routes := routes - {id};
      streams := streams[id := streams[id].(open := false)];
    }

    /** `try_send` on the cloned route, and what follows a failure. */
    method TrySend(id: U32, frame: Frame)
      requires id in streams
      modifies this`routes, this`streams
      ensures var stream := old(streams)[id];
              if stream.open && |stream.queue| < ROUTE_CAPACITY then
                routes == old(routes) && streams == old(streams)[id := stream.(queue := stream.queue + [frame])]
              else
                && routes == old(routes) - {id}
                && streams == if stream.open then old(streams)[id := stream.(canceled := true)] else old(streams)
    {
      var stream := streams[id];
      if !stream.open {
        routes := routes - {id};
      } else if |stream.queue| >= ROUTE_CAPACITY {
        routes := routes - {id};
        streams := streams[id := stream.(canceled := true)];
      } else {
        streams := streams[id := stream.(queue := stream.queue + [frame])];
      }
    }

    /** The next value of the id counter. */
    method DrawId() returns (id: U32)
      modifies this`nextStreamId, this`opens
      ensures id == old(nextStreamId) && nextStreamId == (id + 1) % ID_LIMIT && opens == old(opens) + 1
    {
      id := nextStreamId;
      nextStreamId := (nextStreamId + 1) % ID_LIMIT;
      opens := opens + 1;
    }

    /** Another task may set the flag now. */
    method MayBeClosed()
      modifies this`closed
      ensures old(closed) ==> closed
    {
      var closes: bool := *;
      closed := closed || closes;
    }

    /** `open_stream`: draws ids until one is not zero and not taken, which happens as long as some id is free. The
        connection may be closed before the first look at the flag or before any look under the lock. */
    method OpenStream(ghost free: U32) returns (id: Option<U32>)
      requires free != 0 && free !in routes
      modifies this
      ensures reader == old(reader) && cleared == old(cleared) && (old(closed) ==> closed)
      ensures completed == old(completed)
      ensures id.None? ==> closed && routes == old(routes) && streams == old(streams)
      ensures id.Some? ==>
                && !closed && id.value != 0 && id.value !in old(routes)
                && streams == old(streams)[id.value := FRESH] && routes == old(routes) + {id.value}
      ensures id.Some? && old(Inv(View())) && old(opens) < ID_LIMIT - 1 ==>
                id.value == old(nextStreamId) && id.value !in old(streams) && Inv(View())
    {
      hide Inv, Distance, Exec;
      ghost var before, first := View(), true;
      MayBeClosed();
      if closed {
        return None;
      }
      while true
        invariant routes == old(routes) && streams == old(streams) && completed == old(completed)
        invariant reader == old(reader) && cleared == old(cleared) && !closed && !before.closed
        invariant first ==> nextStreamId == old(nextStreamId) && opens == old(opens)
        invariant !first ==> !(Inv(before) && before.opens < ID_LIMIT - 1)
        decreases Distance(free, nextStreamId)
      {
        var drawn := DrawId();
        if first && Inv(before) && before.opens < ID_LIMIT - 1 {
          FirstDrawIsFree(flow, before);
        }
        DistanceShrinks(free, drawn);
        if drawn != 0 {
          MayBeClosed();
          if closed {
            return None;
          }
          if drawn !in routes {
            streams := streams[drawn := FRESH];
            routes := routes + {drawn};
            if Inv(before) && before.opens < ID_LIMIT - 1 {
              OpeningIsARun(flow, before);
            }
            return Some(drawn);
          }
        }
        first := false;
      }
    }

    /** `close`: the flag first, then the table. */
    method Close()
      requires Inv(View()) && opens < ID_LIMIT
      modifies this
      ensures closed && cleared && routes == {} && streams == old(streams)
      ensures Inv(View())
    {
      ghost var before := View();
      closed := true;
      routes := {};
      cleared := true;
      ghost var signaled := before.(closed := true, clearing := 1);
      assert Apply(flow, before, CloseSignals) == Some(signaled);
      StepKeepsInv(flow, before, CloseSignals);
      assert Apply(flow, signaled, CloseClears) == Some(View());
      StepKeepsInv(flow, signaled, CloseClears);
    }

    /** `try_recv`: a canceled stream is an error, an empty queue is nothing yet while the route stands. */
    method TryRecv(id: U32) returns (result: Result<Option<Frame>, bool>)
      requires Inv(View()) && opens < ID_LIMIT && id in streams && streams[id].open
      modifies this`streams, this`completed
      ensures result == (if old(streams)[id].canceled then Err(true)
                         else if old(streams)[id].queue != [] then Ok(Some(old(streams)[id].queue[0]))
                         else if id in routes then Ok(None)
                         else Err(false))
      ensures View() == if result.Ok? && result.value.Some? then Received(old(View()), id).value else old(View())
      ensures completed == if (result.Err? && result.error)
                              || (result.Ok? && result.value.Some?
                                  && result.value.value.kind in {ExecExit, FileEnd, PtyExit, ClipboardData, Pong,
                                                                 ProxyStartAck, Error})
                           then old(completed) + {id} else old(completed)
    {
      var stream := streams[id];
      if stream.canceled {
        completed := completed + {id};
        return Err(true);
      }
      if stream.queue != [] {
        var frame := stream.queue[0];
        result := Ok(Some(frame));
        streams := streams[id := stream.(queue := stream.queue[1..], taken := stream.taken + [frame])];
        if CompletesStream(frame.kind) {
          completed := completed + {id};
        }
        return;
      }
      return if id in routes then Ok(None) else Err(false);
    }

    /** Dropping the holder's end takes the route away first; the peer is to be told exactly if the holder has not
        seen the end of the stream. */
    method DropStream(id: U32) returns (sendsCancel: bool)
      requires Inv(View()) && id in streams && streams[id].open
      modifies this`routes, this`streams
      ensures Apply(flow, old(View()), Drop(id)) == Some(View())
      ensures sendsCancel <==> id !in completed
    {
      Forget(id);
      sendsCancel := id !in completed;
    }
  }

  /** How many draws away a free id is. */
  function Distance(free: U32, next: U32): nat { (free - next) % ID_LIMIT }

  /** Drawing moves the counter towards a free id, unless it has drawn it. */
  lemma DistanceShrinks(free: U32, drawn: U32)
    ensures free != drawn ==> Distance(free, (drawn + 1) % ID_LIMIT) < Distance(free, drawn)
  {
    var next := (drawn + 1) % ID_LIMIT;
    if drawn < free {
      assert next == drawn + 1;
    } else if free < drawn {
      assert (free - drawn) % ID_LIMIT == free - drawn + ID_LIMIT;
      if drawn + 1 < ID_LIMIT {
        assert next == drawn + 1;
      } else {
        assert next == 0;
      }
    }
  }

  lemma FirstDrawIsFree(flow: bool, s: State)
    requires Inv(s) && s.opens < ID_LIMIT - 1
    ensures s.nextId != 0 && s.nextId !in s.streams && s.nextId !in s.routes
  {
  }

  /** An undisturbed opening of an open connection is a run of the step relation. */
  lemma OpeningIsARun(flow: bool, s: State)
    requires Inv(s) && s.opens < ID_LIMIT - 1 && !s.closed && 0 !in s.openers
    ensures var id := s.nextId;
            var end := s.(nextId := (id + 1) % ID_LIMIT, opens := s.opens + 1, streams := s.streams[id := FRESH],
                          routes := s.routes + {id});
            Exec(flow, s, [DrawId(0), CommitOpen(0)]) == Some(end) && Inv(end)
  {
    hide Inv;
    FirstDrawIsFree(flow, s);
    var drawn := Drawn(s, 0).value;
    StepKeepsInv(flow, s, DrawId(0));
    assert drawn.openers - {0} == s.openers;
    StepKeepsInv(flow, drawn, CommitOpen(0));
    var end := Committed(drawn, 0).value;
    assert [DrawId(0), CommitOpen(0)][1..] == [CommitOpen(0)] && [CommitOpen(0)][1..] == [];
    assert Exec(flow, end, []) == Some(end);
    assert Exec(flow, drawn, [CommitOpen(0)]) == Some(end);
  }
}
