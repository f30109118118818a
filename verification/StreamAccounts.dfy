/** What the streams of a host connection have got, against what the reader has read: credit, data and cancellations
    are accounted for by the steps of a run alone. */
module StreamAccounts {
  import opened Wrappers
  import opened Bytes
  import opened Frames
  import opened FlowCredits
  import opened StreamRouting

  /** The byte count of a window update that arrives for the stream while it is routed. */
  function UpdateIn(s: State, action: Action, id: U32): nat {
    if action.Arrive? && action.incoming.WindowUpdate? && action.incoming.id == id && id in s.routes
       && action.incoming.bytes.Some?
    then action.incoming.bytes.value else 0
  }

  function Updates(flow: bool, s: State, actions: seq<Action>, id: U32): nat
    requires Exec(flow, s, actions).Some?
    decreases |actions|
  {
    if actions == [] then 0
    else UpdateIn(s, actions[0], id) + Updates(flow, Apply(flow, s, actions[0]).value, actions[1..], id)
  }

  /** The credit the holder of the stream takes. */
  function TakenIn(action: Action, id: U32): nat { if action.TakeCredit? && action.id == id then action.bytes else 0 }

  function Takes(actions: seq<Action>, id: U32): nat {
    if actions == [] then 0 else TakenIn(actions[0], id) + Takes(actions[1..], id)
  }

  predicate AtWork(reader: Reader) { reader.Reading? || reader.Holding? || reader.Canceling? }

  function CreditOf(s: State, id: U32): nat { if id in s.streams then s.streams[id].credit else 0 }

  lemma ArrivalBalances(flow: bool, s: State, incoming: Incoming, id: U32)
    requires Inv(s) && Arrived(flow, s, incoming).Some? && AtWork(Arrived(flow, s, incoming).value.reader)
    ensures CreditOf(Arrived(flow, s, incoming).value, id) == CreditOf(s, id) + UpdateIn(s, Arrive(incoming), id)
  {
    hide FreshIds, Delivers;
  }

  lemma ArrivalFindsItReading(flow: bool, s: State, incoming: Incoming)
    requires Arrived(flow, s, incoming).Some?
    ensures s.reader == Reading
  {
  }

  lemma StepBalances(flow: bool, s: State, action: Action, id: U32)
    requires Inv(s) && Apply(flow, s, action).Some? && Apply(flow, s, action).value.opens < ID_LIMIT
    requires AtWork(Apply(flow, s, action).value.reader)
    ensures CreditOf(Apply(flow, s, action).value, id) + TakenIn(action, id)
         == CreditOf(s, id) + UpdateIn(s, action, id)
    ensures AtWork(s.reader)
  {
    match action
    case Arrive(incoming) =>
      hide Inv, Arrived, CreditOf, UpdateIn;
      ArrivalBalances(flow, s, incoming, id);
      ArrivalFindsItReading(flow, s, incoming);
    case Push => hide Delivers, FreshIds;
    case _ => hide Delivers, Arrived, Pushed;
  }

  /** No grant is lost and none is invented: over every run, while the reader is at work, the credit of a stream and all
      that its holder has taken are the window updates that arrived for it since it was opened. */
  lemma {:induction false} UpdatesAreAccounted(flow: bool, s: State, actions: seq<Action>, id: U32)
    requires Inv(s) && Exec(flow, s, actions).Some? && Exec(flow, s, actions).value.opens < ID_LIMIT
    requires AtWork(Exec(flow, s, actions).value.reader)
    ensures CreditOf(Exec(flow, s, actions).value, id) + Takes(actions, id)
         == CreditOf(s, id) + Updates(flow, s, actions, id)
    ensures AtWork(s.reader)
    decreases |actions|
  {
    hide Apply, Inv, CreditOf, TakenIn, UpdateIn;
    if actions != [] {
      var next := Apply(flow, s, actions[0]).value;
      RunsOpensGrow(flow, next, actions[1..]);
      StepKeepsInv(flow, s, actions[0]);
      UpdatesAreAccounted(flow, next, actions[1..], id);
      StepBalances(flow, s, actions[0], id);
    }
  }

  /** Credit is taken all or nothing, and a holder whose credit covers what it needs gets it. */
  lemma TakingIsAllOrNothing(flow: bool, s: State, id: U32, bytes: nat)
    ensures Apply(flow, s, TakeCredit(id, bytes)).Some? <==> id in s.streams && bytes <= CreditOf(s, id)
    ensures Apply(flow, s, TakeCredit(id, bytes)).Some? ==>
              CreditOf(Apply(flow, s, TakeCredit(id, bytes)).value, id) == CreditOf(s, id) - bytes
  {
  }

  /** The connection ends over a window update exactly if updates were not negotiated, it does not decode, or it is for
      a routed stream and empty or beyond 16 MiB of credit. */
  lemma ForbiddenUpdates(flow: bool, s: State, id: U32, bytes: Option<U32>)
    requires Inv(s) && s.reader == Reading
    ensures Apply(flow, s, Arrive(WindowUpdate(id, bytes))).value.reader == Closing
       <==> !flow || bytes.None? || (id in s.routes && (bytes.value == 0 || CreditOf(s, id) + bytes.value > 16777216))
  {
    hide FreshIds, Delivers;
  }

  // ---- Data ----

  /** The data frames that arrive for a stream that has been opened. */
  function DataIn(s: State, action: Action, id: U32): seq<Frame> {
    if action.Arrive? && action.incoming.Data? && action.incoming.id == id && id in s.streams
    then [action.incoming.frame] else []
  }

  function DataFor(flow: bool, s: State, actions: seq<Action>, id: U32): seq<Frame>
    requires Exec(flow, s, actions).Some?
    decreases |actions|
  {
    if actions == [] then []
    else DataIn(s, actions[0], id) + DataFor(flow, Apply(flow, s, actions[0]).value, actions[1..], id)
  }

  function ArrivedFor(s: State, id: U32): seq<Frame> { if id in s.streams then s.streams[id].arrived else [] }

  lemma ArrivalNotesData(flow: bool, s: State, incoming: Incoming, id: U32)
    requires Inv(s) && Arrived(flow, s, incoming).Some?
    ensures ArrivedFor(Arrived(flow, s, incoming).value, id) == ArrivedFor(s, id) + DataIn(s, Arrive(incoming), id)
  {
    hide FreshIds, Delivers, AddCredit;
  }

  lemma StepNotesData(flow: bool, s: State, action: Action, id: U32)
    requires Inv(s) && Apply(flow, s, action).Some? && Apply(flow, s, action).value.opens < ID_LIMIT
    ensures ArrivedFor(Apply(flow, s, action).value, id) == ArrivedFor(s, id) + DataIn(s, action, id)
  {
    match action
    case Arrive(incoming) => ArrivalNotesData(flow, s, incoming, id);
    case Push => hide Delivers, FreshIds;
    case _ => hide Delivers, Arrived, Pushed;
  }

  /** What a stream is said to have received is measured against the frames that the reader really read. */
  lemma {:induction false} DataIsAccounted(flow: bool, s: State, actions: seq<Action>, id: U32)
    requires Inv(s) && Exec(flow, s, actions).Some? && Exec(flow, s, actions).value.opens < ID_LIMIT
    ensures ArrivedFor(Exec(flow, s, actions).value, id) == ArrivedFor(s, id) + DataFor(flow, s, actions, id)
    decreases |actions|
  {
    hide Apply, Inv, ArrivedFor, DataIn;
    if actions != [] {
      var next := Apply(flow, s, actions[0]).value;
      RunsOpensGrow(flow, next, actions[1..]);
      StepKeepsInv(flow, s, actions[0]);
      StepNotesData(flow, s, actions[0], id);
      DataIsAccounted(flow, next, actions[1..], id);
    }
  }

  /** The holder gets the frame at the head of its queue, whenever there is one. */
  lemma HoldersReceive(flow: bool, s: State, id: U32)
    requires id in s.streams && s.streams[id].open
    ensures Apply(flow, s, Recv(id)).Some? <==> s.streams[id].queue != []
    ensures s.streams[id].queue != [] ==>
              var stream, next := s.streams[id], Apply(flow, s, Recv(id)).value.streams[id];
              && stream.queue == [stream.queue[0]] + next.queue
              && next.taken == stream.taken + [stream.queue[0]]
  {
  }

  /** A frame in the reader's hand goes to the queue if the holder is there and fewer than sixteen are waiting; with
      sixteen the stream is canceled, and without a holder the frame is dropped; the route is gone in both cases. */
  lemma QueueHoldsSixteen(flow: bool, s: State)
    requires Inv(s) && s.reader.Holding?
    ensures var id, stream, next := s.reader.id, s.streams[s.reader.id], Apply(flow, s, Push).value;
            if !stream.open then next == s.(routes := s.routes - {id}, reader := Reading)
            else if |stream.queue| < 16 then
              next == s.(reader := Reading,
                         streams := s.streams[id := stream.(queue := stream.queue + [s.reader.frame])])
            else |stream.queue| == 16 && next == s.(routes := s.routes - {id}, reader := Canceling(id))
  {
    assert Delivers(s, s.reader.id);
  }

  // ---- Opening and dropping ----

  /** The next number opens an empty stream exactly if it is not zero, no stream is routed under it and the connection
      is not closed; the counter goes on in any case. */
  lemma OpeningIsExact(flow: bool, s: State, task: nat)
    requires task !in s.openers
    ensures var id, end := s.nextId, Exec(flow, s, [DrawId(task), CommitOpen(task)]);
            && end.Some?
            && end.value.nextId == (id + 1) % 0x1_0000_0000 && end.value.openers == s.openers
            && if id != 0 && !s.closed && id !in s.routes then
                 && end.value.streams == s.streams[id := Stream([], false, 0, true, [], [])]
                 && end.value.routes == s.routes + {id}
               else end.value.streams == s.streams && end.value.routes == s.routes
  {
    var drawn := Apply(flow, s, DrawId(task)).value;
    var end := Apply(flow, drawn, CommitOpen(task)).value;
    assert [DrawId(task), CommitOpen(task)][1..] == [CommitOpen(task)] && [CommitOpen(task)][1..] == [];
    assert Exec(flow, end, []) == Some(end);
    assert Exec(flow, drawn, [CommitOpen(task)]) == Some(end);
  }

  /** A holder drops its stream once, and the route goes with it. */
  lemma DroppingTakesTheRoute(flow: bool, s: State, id: U32)
    ensures Apply(flow, s, Drop(id)).Some? <==> id in s.streams && s.streams[id].open
    ensures Apply(flow, s, Drop(id)).Some? ==>
              Apply(flow, s, Drop(id)).value
              == s.(routes := s.routes - {id}, streams := s.streams[id := s.streams[id].(open := false)])
  {
  }

  // ---- Cancellation and closing ----

  /** A cancel frame for a routed stream, or a frame for one whose queue is full. */
  predicate Cancels(s: State, action: Action, id: U32) {
    || (action == Arrive(CancelFrame(id)) && id in s.routes)
    || (action == Push && s.reader.Holding? && s.reader.id == id && id in s.streams && s.streams[id].open
        && |s.streams[id].queue| >= 16)
  }

  ghost predicate CanceledIn(flow: bool, s: State, actions: seq<Action>, id: U32)
    requires Exec(flow, s, actions).Some?
    decreases |actions|
  {
    actions != []
    && (Cancels(s, actions[0], id) || CanceledIn(flow, Apply(flow, s, actions[0]).value, actions[1..], id))
  }

  /** The holder sees the cancellation, or the reader is about to signal it. */
  predicate KnowsCancellation(s: State, id: U32) {
    id in s.streams && (s.streams[id].canceled || s.reader == Canceling(id))
  }

  lemma ArrivalCancels(flow: bool, s: State, incoming: Incoming, id: U32)
    requires Inv(s) && Arrived(flow, s, incoming).Some?
    ensures KnowsCancellation(Arrived(flow, s, incoming).value, id)
       <==> KnowsCancellation(s, id) || Cancels(s, Arrive(incoming), id)
  {
    hide FreshIds, Delivers, AddCredit;
  }

  lemma PushCancels(s: State, id: U32)
    requires Inv(s) && Pushed(s).Some?
    ensures KnowsCancellation(Pushed(s).value, id) <==> KnowsCancellation(s, id) || Cancels(s, Push, id)
  {
    hide FreshIds, Delivers;
  }

  lemma StepCancels(flow: bool, s: State, action: Action, id: U32)
    requires Inv(s) && Apply(flow, s, action).Some? && Apply(flow, s, action).value.opens < ID_LIMIT
    ensures KnowsCancellation(Apply(flow, s, action).value, id)
       <==> KnowsCancellation(s, id) || Cancels(s, action, id)
  {
    match action
    case Arrive(incoming) => ArrivalCancels(flow, s, incoming, id);
    case Push => PushCancels(s, id);
    case _ => hide Delivers, Arrived, Pushed;
  }

  /** A stream is canceled exactly if a cancel frame reached it while it was routed or its queue overflowed. */
  lemma {:induction false} CancellationsAreExact(flow: bool, s: State, actions: seq<Action>, id: U32)
    requires Inv(s) && Exec(flow, s, actions).Some? && Exec(flow, s, actions).value.opens < ID_LIMIT
    ensures KnowsCancellation(Exec(flow, s, actions).value, id)
       <==> KnowsCancellation(s, id) || CanceledIn(flow, s, actions, id)
    decreases |actions|
  {
    hide Apply, Inv, KnowsCancellation, Cancels;
    if actions != [] {
      var next := Apply(flow, s, actions[0]).value;
      RunsOpensGrow(flow, next, actions[1..]);
      StepKeepsInv(flow, s, actions[0]);
      StepCancels(flow, s, actions[0], id);
      CancellationsAreExact(flow, next, actions[1..], id);
    }
  }

  /** The connection is closed exactly if its reader ended, it was closed, or its writer stopped. */
  lemma {:induction false} ClosingIsExact(flow: bool, s: State, actions: seq<Action>)
    requires Exec(flow, s, actions).Some?
    ensures Exec(flow, s, actions).value.closed
       <==> s.closed || ReaderSignals in actions || CloseSignals in actions || WriterStops in actions
    decreases |actions|
  {
    hide Apply;
    if actions != [] {
      StepCloses(flow, s, actions[0]);
      ClosingIsExact(flow, Apply(flow, s, actions[0]).value, actions[1..]);
    }
  }

  lemma StepCloses(flow: bool, s: State, action: Action)
    requires Apply(flow, s, action).Some?
    ensures Apply(flow, s, action).value.closed
       <==> s.closed || action == ReaderSignals || action == CloseSignals || action == WriterStops
  {
    hide AddCredit;
  }
}
