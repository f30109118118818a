/** Streams multiplexed over one host connection: the route table, the reader task, opening and closing. */
module StreamRouting {
  import opened Wrappers
  import opened Bytes
  import opened Frames
  import opened FlowCredits

  const ID_LIMIT := 0x1_0000_0000

  /** A frame as the reader task sorts it; a window update that does not decode has no byte count. */
  datatype Incoming = WindowUpdate(id: U32, bytes: Option<U32>) | CancelFrame(id: U32) | Data(id: U32, frame: Frame)

  /** The channels of a stream handed out by `open_stream`. `arrived` lists the data frames the reader has read for
      the id since then, `taken` those the holder has received; `open` until the holder drops the stream. */
  datatype Stream = Stream(queue: seq<Frame>, canceled: bool, credit: nat, open: bool,
                           taken: seq<Frame>, arrived: seq<Frame>)

  /** The reader task: between frames, holding a cloned route and a frame for it, about to signal a cancellation,
      and on its way out. */
  datatype Reader = Reading | Holding(id: U32, frame: Frame) | Canceling(id: U32) | Closing | Clearing | Gone

  /** `openers` are the tasks between drawing an id and taking the route lock; `clearing` counts the callers of
      `close` between setting the flag and clearing the table; `cleared` records that a table was cleared. */
  datatype State = State(routes: set<U32>, streams: map<U32, Stream>, nextId: U32, opens: nat, openers: map<nat, U32>,
                         reader: Reader, closed: bool, clearing: nat, cleared: bool)

  datatype Action =
    | DrawId(task: nat) | CommitOpen(task: nat)
    | Arrive(incoming: Incoming) | Push | SignalCancel
    | ReaderFails | ReaderSignals | ReaderClears
    | CloseSignals | CloseClears | WriterStops
    | Recv(id: U32) | TakeCredit(id: U32, bytes: nat) | Drop(id: U32)

  const INIT := State({}, map[], 1, 0, map[], Reading, false, 0, false)
  const FRESH := Stream([], false, 0, true, [], [])

  function Update(s: State, id: U32, stream: Stream): State { s.(streams := s.streams[id := stream]) }

  /** `fetch_add` on the id counter. */
  function Drawn(s: State, task: nat): Option<State> {
    if task in s.openers then None
    else Some(s.(nextId := (s.nextId + 1) % ID_LIMIT, opens := s.opens + 1, openers := s.openers[task := s.nextId]))
  }

  /** The part of `open_stream` under the route lock; id 0 and a taken id lead to another draw. */
  function Committed(s: State, task: nat): Option<State> {
    if task !in s.openers then None
    else
      var id := s.openers[task];
      var rest := s.(openers := s.openers - {task});
      if id == 0 || s.closed || id in s.routes then Some(rest)
      else Some(Update(rest, id, FRESH).(routes := s.routes + {id}))
  }

  function WindowArrived(flow: bool, s: State, id: U32, bytes: Option<U32>): State {
    if !flow || bytes.None? then s.(reader := Closing)
    else if id !in s.routes || id !in s.streams then s
    else match AddCredit(s.streams[id].credit, bytes.value)
      case None => s.(reader := Closing)
      case Some(credit) => Update(s, id, s.streams[id].(credit := credit))
  }

  function CancelArrived(s: State, id: U32): State {
    if id !in s.routes then s else s.(routes := s.routes - {id}, reader := Canceling(id))
  }

  function DataArrived(s: State, id: U32, frame: Frame): State {
    var noted := if id !in s.streams then s
                 else Update(s, id, s.streams[id].(arrived := s.streams[id].arrived + [frame]));
    if id in s.routes then noted.(reader := Holding(id, frame)) else noted
  }

  /** One frame read and looked up. */
  function Arrived(flow: bool, s: State, incoming: Incoming): Option<State> {
    if s.reader != Reading then None
    else Some(match incoming
              case WindowUpdate(id, bytes) => WindowArrived(flow, s, id, bytes)
              case CancelFrame(id) => CancelArrived(s, id)
              case Data(id, frame) => DataArrived(s, id, frame))
  }

  /** `try_send` on the cloned route. */
  function Pushed(s: State): Option<State> {
    if !s.reader.Holding? || s.reader.id !in s.streams then None
    else
      var id, stream := s.reader.id, s.streams[s.reader.id];
      if !stream.open then Some(s.(routes := s.routes - {id}, reader := Reading))
      else if |stream.queue| >= ROUTE_CAPACITY then Some(s.(routes := s.routes - {id}, reader := Canceling(id)))
      else Some(Update(s, id, stream.(queue := stream.queue + [s.reader.frame])).(reader := Reading))
  }

  function Signaled(s: State): Option<State> {
    if !s.reader.Canceling? || s.reader.id !in s.streams then None
    else Some(Update(s, s.reader.id, s.streams[s.reader.id].(canceled := true)).(reader := Reading))
  }

  function Received(s: State, id: U32): Option<State> {
    if id !in s.streams || !s.streams[id].open || s.streams[id].queue == [] then None
    else
      var stream := s.streams[id];
      Some(Update(s, id, stream.(queue := stream.queue[1..], taken := stream.taken + [stream.queue[0]])))
  }

  function Apply(flow: bool, s: State, action: Action): Option<State> {
    match action
    case DrawId(task) => Drawn(s, task)
    case CommitOpen(task) => Committed(s, task)
    case Arrive(incoming) => Arrived(flow, s, incoming)
    case Push => Pushed(s)
    case SignalCancel => Signaled(s)
    case ReaderFails => if s.reader != Reading then None else Some(s.(reader := Closing))
    case ReaderSignals => if s.reader != Closing then None else Some(s.(reader := Clearing, closed := true))
    case ReaderClears =>
      if s.reader != Clearing then None else Some(s.(reader := Gone, routes := {}, cleared := true))
    case CloseSignals => Some(s.(closed := true, clearing := s.clearing + 1))
    case CloseClears =>
      if s.clearing == 0 then None else Some(s.(routes := {}, clearing := s.clearing - 1, cleared := true))
    case WriterStops => Some(s.(closed := true))
    case Recv(id) => Received(s, id)
    case TakeCredit(id, bytes) =>
      if id !in s.streams || s.streams[id].credit < bytes then None
      else Some(Update(s, id, s.streams[id].(credit := s.streams[id].credit - bytes)))
    case Drop(id) =>
      if id !in s.streams || !s.streams[id].open then None
      else Some(Update(s, id, s.streams[id].(open := false)).(routes := s.routes - {id}))
  }

  function Exec(flow: bool, s: State, actions: seq<Action>): Option<State>
    decreases |actions|
  {
    if actions == [] then Some(s)
    else match Apply(flow, s, actions[0])
      case None => None
      case Some(next) => Exec(flow, next, actions[1..])
  }

  // ---- Ids ----

  /** Fewer than 2^32 draws: no id is zero or comes twice. */
  ghost predicate FreshIds(s: State) {
    && (s.opens < ID_LIMIT - 1 ==> s.nextId == s.opens + 1)
    && (forall id :: id in s.streams ==> 1 <= id <= s.opens)
    && (forall task :: task in s.openers ==> 1 <= s.openers[task] <= s.opens && s.openers[task] !in s.streams)
    && (forall a, b :: a in s.openers && b in s.openers && a != b ==> s.openers[a] != s.openers[b])
  }

  // ---- Delivery ----

  function InHand(s: State, id: U32): seq<Frame> {
    if s.reader.Holding? && s.reader.id == id then [s.reader.frame] else []
  }

  /** What the holder received, what is queued and what the reader has in hand are, in this order, the first data
      frames that arrived; all of them while the route stands. */
  ghost predicate Delivers(s: State, id: U32)
    requires id in s.streams
  {
    var stream := s.streams[id];
    var passed := stream.taken + stream.queue + InHand(s, id);
    && passed <= stream.arrived
    && |stream.queue| <= ROUTE_CAPACITY
    && (id in s.routes ==> passed == stream.arrived && stream.open && !stream.canceled)
  }

  // ---- Closing ----

  /** A cleared table stays empty; a closed connection has been cleared or someone is still going to. */
  ghost predicate ClosesOnce(s: State) {
    && (s.cleared ==> s.closed && s.routes == {})
    && (s.reader == Clearing ==> s.closed)
    && (s.clearing > 0 ==> s.closed)
    && (s.reader == Gone ==> s.cleared)
  }

  ghost predicate Inv(s: State) {
    && ClosesOnce(s)
    && s.routes <= s.streams.Keys
    && (s.reader.Holding? || s.reader.Canceling? ==> s.reader.id in s.streams)
    && (s.reader.Canceling? ==> s.reader.id !in s.routes)
    && FreshIds(s)
    && forall id :: id in s.streams ==> Delivers(s, id)
  }

  lemma OpeningKeepsInv(flow: bool, s: State, action: Action)
    requires Inv(s) && Apply(flow, s, action).Some? && Apply(flow, s, action).value.opens < ID_LIMIT
    requires action.DrawId? || action.CommitOpen?
    ensures Inv(Apply(flow, s, action).value)
  {
    var next := Apply(flow, s, action).value;
    forall id | id in next.streams ensures Delivers(next, id) {
      if id in s.streams {
        assert Delivers(s, id);
      }
    }
  }

  /** A stream whose channels, frame in hand and route stay as they are keeps delivering; losing the route is fine. */
  lemma StillDelivers(s: State, next: State, id: U32)
    requires id in s.streams && id in next.streams && Delivers(s, id)
    requires next.streams[id] == s.streams[id] && InHand(next, id) == InHand(s, id)
    requires id in next.routes ==> id in s.routes
    ensures Delivers(next, id)
  {
  }

  lemma SameIdsStayFresh(s: State, next: State)
    requires FreshIds(s) && next.streams.Keys == s.streams.Keys
    requires next.opens == s.opens && next.nextId == s.nextId && next.openers == s.openers
    ensures FreshIds(next)
  {
  }

  lemma WindowKeepsInv(flow: bool, s: State, id: U32, bytes: Option<U32>)
    requires Inv(s) && s.reader == Reading
    ensures Inv(WindowArrived(flow, s, id, bytes))
  {
    hide FreshIds, AddCredit;
    var next := WindowArrived(flow, s, id, bytes);
    SameIdsStayFresh(s, next);
    forall other | other in next.streams ensures Delivers(next, other) {
      assert Delivers(s, other);
    }
  }

  lemma CancelKeepsInv(s: State, id: U32)
    requires Inv(s) && s.reader == Reading
    ensures Inv(CancelArrived(s, id))
  {
    hide FreshIds, Delivers;
    var next := CancelArrived(s, id);
    SameIdsStayFresh(s, next);
    forall other | other in next.streams ensures Delivers(next, other) {
      StillDelivers(s, next, other);
    }
  }

  lemma DataDelivers(s: State, id: U32, frame: Frame)
    requires Inv(s) && s.reader == Reading && id in s.streams
    ensures Delivers(DataArrived(s, id, frame), id)
  {
    assert Delivers(s, id);
  }

  lemma DataKeepsInv(s: State, id: U32, frame: Frame)
    requires Inv(s) && s.reader == Reading
    ensures Inv(DataArrived(s, id, frame))
  {
    hide FreshIds, Delivers;
    var next := DataArrived(s, id, frame);
    SameIdsStayFresh(s, next);
    forall other | other in next.streams ensures Delivers(next, other) {
      if other == id {
        DataDelivers(s, id, frame);
      } else {
        StillDelivers(s, next, other);
      }
    }
  }

  lemma ArrivalKeepsInv(flow: bool, s: State, incoming: Incoming)
    requires Inv(s) && Arrived(flow, s, incoming).Some?
    ensures Inv(Arrived(flow, s, incoming).value)
  {
    hide Inv, WindowArrived, CancelArrived, DataArrived;
    match incoming
    case WindowUpdate(id, bytes) => WindowKeepsInv(flow, s, id, bytes);
    case CancelFrame(id) => CancelKeepsInv(s, id);
    case Data(id, frame) => DataKeepsInv(s, id, frame);
  }

  lemma PushDelivers(s: State)
    requires Inv(s) && Pushed(s).Some?
    ensures Delivers(Pushed(s).value, s.reader.id)
  {
    assert Delivers(s, s.reader.id);
    var stream := s.streams[s.reader.id];
    assert stream.taken + (stream.queue + [s.reader.frame]) + [] == stream.taken + stream.queue + [s.reader.frame];
  }

  lemma PushKeepsInv(s: State)
    requires Inv(s) && Pushed(s).Some?
    ensures Inv(Pushed(s).value)
  {
    hide FreshIds, Delivers;
    var next := Pushed(s).value;
    SameIdsStayFresh(s, next);
    PushDelivers(s);
    forall id | id in next.streams ensures Delivers(next, id) {
      if id != s.reader.id {
        StillDelivers(s, next, id);
      }
    }
  }

  lemma SignalKeepsInv(s: State)
    requires Inv(s) && Signaled(s).Some?
    ensures Inv(Signaled(s).value)
  {
    var next := Signaled(s).value;
    forall id | id in next.streams ensures Delivers(next, id) {
      assert Delivers(s, id);
    }
  }

  lemma ClosingKeepsInv(flow: bool, s: State, action: Action)
    requires Inv(s) && Apply(flow, s, action).Some?
    requires action.ReaderFails? || action.ReaderSignals? || action.ReaderClears? || action.CloseSignals?
          || action.CloseClears? || action.WriterStops?
    ensures Inv(Apply(flow, s, action).value)
  {
    var next := Apply(flow, s, action).value;
    forall id | id in next.streams ensures Delivers(next, id) {
      assert Delivers(s, id);
    }
  }

  lemma RecvKeepsInv(s: State, id: U32)
    requires Inv(s) && Received(s, id).Some?
    ensures Inv(Received(s, id).value)
  {
    var next := Received(s, id).value;
    var before, after := s.streams[id], next.streams[id];
    assert after.taken + after.queue == before.taken + before.queue;
    forall other | other in next.streams ensures Delivers(next, other) {
      assert Delivers(s, other);
    }
  }

  lemma HolderKeepsInv(flow: bool, s: State, action: Action)
    requires Inv(s) && Apply(flow, s, action).Some? && (action.TakeCredit? || action.Drop?)
    ensures Inv(Apply(flow, s, action).value)
  {
    hide FreshIds;
    var next := Apply(flow, s, action).value;
    SameIdsStayFresh(s, next);
    forall id | id in next.streams ensures Delivers(next, id) {
      assert Delivers(s, id);
    }
  }

  lemma StepKeepsInv(flow: bool, s: State, action: Action)
    requires Inv(s) && Apply(flow, s, action).Some? && Apply(flow, s, action).value.opens < ID_LIMIT
    ensures Inv(Apply(flow, s, action).value)
  {
    hide Inv, Arrived, Pushed, Signaled, Received;
    match action
    case DrawId(_) => OpeningKeepsInv(flow, s, action);
    case CommitOpen(_) => OpeningKeepsInv(flow, s, action);
    case Arrive(incoming) => ArrivalKeepsInv(flow, s, incoming);
    case Push => PushKeepsInv(s);
    case SignalCancel => SignalKeepsInv(s);
    case Recv(id) => RecvKeepsInv(s, id);
    case TakeCredit(_, _) => HolderKeepsInv(flow, s, action);
    case Drop(_) => HolderKeepsInv(flow, s, action);
    case _ => ClosingKeepsInv(flow, s, action);
  }

  lemma OpensGrow(flow: bool, s: State, action: Action)
    requires Apply(flow, s, action).Some?
    ensures s.opens <= Apply(flow, s, action).value.opens
  {
  }

  lemma {:induction false} RunsOpensGrow(flow: bool, s: State, actions: seq<Action>)
    requires Exec(flow, s, actions).Some?
    ensures s.opens <= Exec(flow, s, actions).value.opens
    decreases |actions|
  {
    hide Apply;
    if actions != [] {
      OpensGrow(flow, s, actions[0]);
      RunsOpensGrow(flow, Apply(flow, s, actions[0]).value, actions[1..]);
    }
  }

  lemma {:induction false} RunKeepsInv(flow: bool, s: State, actions: seq<Action>)
    requires Inv(s) && Exec(flow, s, actions).Some? && Exec(flow, s, actions).value.opens < ID_LIMIT
    ensures Inv(Exec(flow, s, actions).value)
    decreases |actions|
  {
    hide Apply, Inv;
    if actions != [] {
      var next := Apply(flow, s, actions[0]).value;
      RunsOpensGrow(flow, next, actions[1..]);
      StepKeepsInv(flow, s, actions[0]);
      RunKeepsInv(flow, next, actions[1..]);
    }
  }

  ghost predicate Reachable(flow: bool, s: State, actions: seq<Action>) {
    Exec(flow, INIT, actions) == Some(s) && s.opens < ID_LIMIT
  }

  /** Every stream handed out gets an id that is not zero and that no stream had before; the draw never has to be
      repeated. A closed connection hands out nothing. */
  lemma OpenedIdsAreNew(flow: bool, s: State, actions: seq<Action>, task: nat)
    requires Reachable(flow, s, actions) && task in s.openers
    ensures var id, next := s.openers[task], Committed(s, task).value;
            && id != 0 && id !in s.streams && id !in s.routes
            && next.streams == (if s.closed then s.streams else s.streams[id := FRESH])
            && next.routes == (if s.closed then s.routes else s.routes + {id})
  {
    RunKeepsInv(flow, INIT, actions);
  }

  /** What a stream receives is an in-order prefix of the data frames that arrived for its id since it was opened. */
  lemma StreamsReceiveInOrder(flow: bool, s: State, actions: seq<Action>, id: U32)
    requires Reachable(flow, s, actions) && id in s.streams
    ensures var stream := s.streams[id];
            && stream.taken + stream.queue <= stream.arrived
            && |stream.queue| <= ROUTE_CAPACITY
            && (id in s.routes && s.reader == Reading ==> stream.taken + stream.queue == stream.arrived)
            && (stream.canceled || !stream.open ==> id !in s.routes)
  {
    RunKeepsInv(flow, INIT, actions);
    assert Delivers(s, id);
  }

  lemma StepStaysClosed(flow: bool, s: State, action: Action)
    requires s.closed && (s.cleared ==> s.routes == {}) && Apply(flow, s, action).Some?
    ensures var next := Apply(flow, s, action).value;
            && next.closed && next.streams.Keys == s.streams.Keys && next.routes <= s.routes
            && (s.cleared ==> next.cleared)
            && (next.cleared ==> next.routes == {})
  {
    if IsTargeted(action) {
      TargetedHasTarget(flow, s, action);
      StepIsIsolated(flow, s, action, TargetOf(s, action).value);
    }
    hide Arrived, Pushed, Signaled, Received;
  }

  /** Once the connection is closed no run hands out a stream, and once the table is cleared it stays empty. */
  lemma {:induction false} ClosedForever(flow: bool, s: State, actions: seq<Action>)
    requires s.closed && (s.cleared ==> s.routes == {}) && Exec(flow, s, actions).Some?
    ensures var end := Exec(flow, s, actions).value;
            && end.closed && end.streams.Keys == s.streams.Keys && end.routes <= s.routes
            && (s.cleared ==> end.cleared)
            && (end.cleared ==> end.routes == {})
    decreases |actions|
  {
    hide Apply;
    if actions != [] {
      StepStaysClosed(flow, s, actions[0]);
      ClosedForever(flow, Apply(flow, s, actions[0]).value, actions[1..]);
    }
  }

  /** When the reader is done no stream has a sender left: neither a route nor a clone in the reader's hand. */
  lemma ClosingDropsEverySender(flow: bool, s: State, actions: seq<Action>)
    requires Reachable(flow, s, actions) && s.reader == Gone
    ensures s.closed && s.cleared && s.routes == {} && forall id :: InHand(s, id) == []
  {
    RunKeepsInv(flow, INIT, actions);
  }

  predicate ByReader(action: Action) {
    action.Push? || action.SignalCancel? || action.ReaderFails? || action.ReaderSignals? || action.ReaderClears?
  }

  /** What the reader does next once it has been told to stop, and how many such steps it has left. */
  function ReaderStep(reader: Reader): Action
    requires reader != Gone
  {
    match reader
    case Reading => ReaderFails
    case Holding(_, _) => Push
    case Canceling(_) => SignalCancel
    case Closing => ReaderSignals
    case Clearing => ReaderClears
  }

  function StepsLeft(reader: Reader): nat {
    match reader
    case Holding(_, _) => 5
    case Canceling(_) => 4
    case Reading => 3
    case Closing => 2
    case Clearing => 1
    case Gone => 0
  }

  lemma ReaderGoesOn(flow: bool, s: State)
    requires Inv(s) && s.reader != Gone
    ensures Apply(flow, s, ReaderStep(s.reader)).Some?
    ensures var next := Apply(flow, s, ReaderStep(s.reader)).value;
            StepsLeft(next.reader) < StepsLeft(s.reader) && next.opens == s.opens
  {
  }

  /** A reader that has not cleared the table has a way to: from every reachable state at most five steps of its own
      end in a closed connection with an empty table. */
  lemma {:induction false} ReaderCanAlwaysClear(flow: bool, s: State) returns (actions: seq<Action>)
    requires Inv(s) && s.opens < ID_LIMIT
    ensures |actions| <= StepsLeft(s.reader) <= 5 && forall i :: 0 <= i < |actions| ==> ByReader(actions[i])
    ensures Exec(flow, s, actions).Some?
    ensures var end := Exec(flow, s, actions).value;
            end.reader == Gone && end.closed && end.cleared && end.routes == {}
    decreases StepsLeft(s.reader)
  {
    hide Apply;
    if s.reader == Gone {
      actions := [];
    } else {
      hide Inv;
      var action := ReaderStep(s.reader);
      ReaderGoesOn(flow, s);
      StepKeepsInv(flow, s, action);
      var rest := ReaderCanAlwaysClear(flow, Apply(flow, s, action).value);
      actions := [action] + rest;
      assert actions[1..] == rest;
    }
  }

  // ---- Isolation ----

  predicate IsTargeted(action: Action) {
    action.Arrive? || action.Push? || action.SignalCancel? || action.Recv? || action.TakeCredit? || action.Drop?
  }

  lemma TargetedHasTarget(flow: bool, s: State, action: Action)
    requires Apply(flow, s, action).Some?
    ensures TargetOf(s, action).Some? <==> IsTargeted(action)
  {
  }

  /** The stream an action is about. */
  function TargetOf(s: State, action: Action): Option<U32> {
    match action
    case Arrive(incoming) => Some(incoming.id)
    case Push => if s.reader.Holding? then Some(s.reader.id) else None
    case SignalCancel => if s.reader.Canceling? then Some(s.reader.id) else None
    case Recv(id) => Some(id)
    case TakeCredit(id, _) => Some(id)
    case Drop(id) => Some(id)
    case _ => None
  }

  function Without(reader: Reader, id: U32): Reader {
    if (reader.Holding? || reader.Canceling?) && reader.id == id then Reading else reader
  }

  ghost predicate SameStream(s: State, t: State, id: U32) {
    && (id in s.routes <==> id in t.routes)
    && (id in s.streams <==> id in t.streams)
    && (id in s.streams ==> s.streams[id] == t.streams[id])
  }

  /** The same state for everyone but one stream. */
  ghost predicate Alike(s: State, t: State, id: U32) {
    && s.(routes := t.routes, streams := t.streams, reader := t.reader) == t
    && (id in s.streams <==> id in t.streams)
    && t.reader == Without(s.reader, id)
    && forall other :: other != id ==> SameStream(s, t, other)
  }

  /** The run without the actions about one stream. */
  function Erased(flow: bool, s: State, actions: seq<Action>, id: U32): seq<Action>
    requires Exec(flow, s, actions).Some?
    decreases |actions|
  {
    if actions == [] then []
    else
      var rest := Erased(flow, Apply(flow, s, actions[0]).value, actions[1..], id);
      if TargetOf(s, actions[0]) == Some(id) then rest else [actions[0]] + rest
  }

  /** The stream does not itself end the connection: while the reader is at work, no window update for the stream is one
      the protocol forbids. */
  ghost predicate LegalUpdates(flow: bool, s: State, actions: seq<Action>, id: U32)
    requires Exec(flow, s, actions).Some?
    decreases |actions|
  {
    actions == [] ||
    (var next := Apply(flow, s, actions[0]).value;
     && (TargetOf(s, actions[0]) == Some(id) && s.reader != Closing ==> next.reader != Closing)
     && LegalUpdates(flow, next, actions[1..], id))
  }

  /** Only the stream, its route and the reader differ. */
  ghost predicate Touches(s: State, next: State, id: U32) {
    && next == s.(routes := next.routes, streams := next.streams, reader := next.reader)
    && next.streams.Keys == s.streams.Keys
    && next.routes <= s.routes
    && forall other :: other != id ==> SameStream(s, next, other)
  }

  lemma ArrivalTouches(flow: bool, s: State, incoming: Incoming)
    requires s.reader == Reading
    ensures Touches(s, Arrived(flow, s, incoming).value, incoming.id)
  {
    hide AddCredit;
    match incoming
    case WindowUpdate(id, bytes) =>
      assert forall other :: other != id ==> SameStream(s, WindowArrived(flow, s, id, bytes), other);
    case CancelFrame(id) =>
      assert forall other :: other != id ==> SameStream(s, CancelArrived(s, id), other);
    case Data(id, frame) =>
      assert forall other :: other != id ==> SameStream(s, DataArrived(s, id, frame), other);
  }

  lemma PushTouches(s: State)
    requires Pushed(s).Some?
    ensures Touches(s, Pushed(s).value, s.reader.id)
  {
  }

  lemma HolderTouches(flow: bool, s: State, action: Action)
    requires Apply(flow, s, action).Some? && (action.Recv? || action.TakeCredit? || action.Drop?)
    ensures Touches(s, Apply(flow, s, action).value, action.id) && Apply(flow, s, action).value.reader == s.reader
  {
  }

  /** An action about one stream changes no other stream's queue, credit, cancellation or route, and does not close
      the connection; only a forbidden window update makes the reader give up. */
  lemma StepIsIsolated(flow: bool, s: State, action: Action, id: U32)
    requires Apply(flow, s, action).Some? && TargetOf(s, action) == Some(id)
    ensures Touches(s, Apply(flow, s, action).value, id)
    ensures var next := Apply(flow, s, action).value;
            next.reader == s.reader || next.reader !in {Closing, Clearing, Gone}
            || (action.Arrive? && action.incoming.WindowUpdate?)
  {
    hide Touches;
    match action
    case Arrive(incoming) => ArrivalTouches(flow, s, incoming);
    case Push => PushTouches(s);
    case SignalCancel => SignalTouches(s);
    case _ => HolderTouches(flow, s, action);
  }

  lemma SignalTouches(s: State)
    requires Signaled(s).Some?
    ensures Touches(s, Signaled(s).value, s.reader.id)
  {
  }

  lemma OwnStepIsInvisible(flow: bool, s: State, t: State, action: Action, id: U32)
    requires Alike(s, t, id) && Inv(s) && Apply(flow, s, action).Some?
    requires TargetOf(s, action) == Some(id)
    requires s.reader == Closing || Apply(flow, s, action).value.reader != Closing
    ensures Alike(Apply(flow, s, action).value, t, id)
  {
    var next := Apply(flow, s, action).value;
    StepIsIsolated(flow, s, action, id);
    assert Without(next.reader, id) == t.reader by {
      OwnStepReader(flow, s, action, id);
    }
    hide Apply, Inv;
    forall other | other != id ensures SameStream(next, t, other) {
      assert SameStream(s, t, other) && SameStream(s, next, other);
    }
  }

  lemma OwnStepReader(flow: bool, s: State, action: Action, id: U32)
    requires Apply(flow, s, action).Some?
    requires TargetOf(s, action) == Some(id)
    requires s.reader == Closing || Apply(flow, s, action).value.reader != Closing
    ensures Without(Apply(flow, s, action).value.reader, id) == Without(s.reader, id)
  {
  }

  lemma SameCommit(s: State, t: State, task: nat, id: U32)
    requires Alike(s, t, id) && Inv(s) && Inv(t) && task in s.openers
    ensures Alike(Committed(s, task).value, Committed(t, task).value, id)
  {
    hide Delivers;
    var drawn := s.openers[task];
    assert SameStream(s, t, drawn) || drawn == id;
    var next, next' := Committed(s, task).value, Committed(t, task).value;
    forall other | other != id ensures SameStream(next, next', other) {
      assert SameStream(s, t, other);
    }
  }

  lemma SharedStep(flow: bool, s: State, t: State, action: Action, id: U32)
    requires Alike(s, t, id) && Inv(s) && Inv(t) && Apply(flow, s, action).Some?
    requires !IsTargeted(action)
    ensures Apply(flow, t, action).Some? && Alike(Apply(flow, s, action).value, Apply(flow, t, action).value, id)
  {
    hide Arrived, Pushed, Signaled, Received, Inv;
    if action.CommitOpen? {
      SameCommit(s, t, action.task, id);
    } else {
      var next, next' := Apply(flow, s, action).value, Apply(flow, t, action).value;
      forall other | other != id ensures SameStream(next, next', other) {
        assert SameStream(s, t, other);
      }
    }
  }

  ghost predicate SameOutcome(s: State, t: State, next: Option<State>, next': Option<State>, target: U32) {
    && next.Some? && next'.Some?
    && SameStream(next.value, next'.value, target)
    && (if t.reader == s.reader then next'.value.reader == next.value.reader
        else next.value.reader == s.reader && next'.value.reader == t.reader)
  }

  lemma SameWindow(flow: bool, s: State, t: State, id: U32, bytes: Option<U32>)
    requires SameStream(s, t, id) && t.reader == s.reader
    ensures var next, next' := WindowArrived(flow, s, id, bytes), WindowArrived(flow, t, id, bytes);
            SameStream(next, next', id) && next'.reader == next.reader
  {
  }

  lemma SameCancel(s: State, t: State, id: U32)
    requires SameStream(s, t, id) && t.reader == s.reader
    ensures var next, next' := CancelArrived(s, id), CancelArrived(t, id);
            SameStream(next, next', id) && next'.reader == next.reader
  {
  }

  lemma SameData(s: State, t: State, id: U32, frame: Frame)
    requires SameStream(s, t, id) && t.reader == s.reader
    ensures var next, next' := DataArrived(s, id, frame), DataArrived(t, id, frame);
            SameStream(next, next', id) && next'.reader == next.reader
  {
  }

  lemma SameArrival(flow: bool, s: State, t: State, incoming: Incoming)
    requires SameStream(s, t, incoming.id) && t.reader == s.reader == Reading
    ensures SameOutcome(s, t, Arrived(flow, s, incoming), Arrived(flow, t, incoming), incoming.id)
  {
    hide WindowArrived, CancelArrived, DataArrived;
    match incoming
    case WindowUpdate(id, bytes) => SameWindow(flow, s, t, id, bytes);
    case CancelFrame(id) => SameCancel(s, t, id);
    case Data(id, frame) => SameData(s, t, id, frame);
  }

  lemma SamePush(s: State, t: State)
    requires s.reader.Holding? && SameStream(s, t, s.reader.id) && t.reader == s.reader && Pushed(s).Some?
    ensures SameOutcome(s, t, Pushed(s), Pushed(t), s.reader.id)
  {
  }

  lemma SameSignal(s: State, t: State)
    requires s.reader.Canceling? && SameStream(s, t, s.reader.id) && t.reader == s.reader && Signaled(s).Some?
    ensures SameOutcome(s, t, Signaled(s), Signaled(t), s.reader.id)
  {
  }

  lemma SameRecv(s: State, t: State, id: U32)
    requires SameStream(s, t, id) && Received(s, id).Some?
    ensures SameOutcome(s, t, Received(s, id), Received(t, id), id)
  {
  }

  lemma SameTarget(flow: bool, s: State, t: State, action: Action, target: U32)
    requires TargetOf(s, action) == Some(target) && SameStream(s, t, target) && Apply(flow, s, action).Some?
    requires action.Arrive? || action.Push? || action.SignalCancel? ==> t.reader == s.reader
    ensures SameOutcome(s, t, Apply(flow, s, action), Apply(flow, t, action), target)
  {
    match action
    case Arrive(incoming) => SameArrival(flow, s, t, incoming);
    case Push => SamePush(s, t);
    case SignalCancel => SameSignal(s, t);
    case Recv(id) => SameRecv(s, t, id);
    case _ =>
  }

  lemma OtherStep(flow: bool, s: State, t: State, action: Action, id: U32)
    requires Alike(s, t, id) && Apply(flow, s, action).Some?
    requires TargetOf(s, action).Some? && TargetOf(s, action) != Some(id)
    ensures Apply(flow, t, action).Some? && Alike(Apply(flow, s, action).value, Apply(flow, t, action).value, id)
  {
    var target := TargetOf(s, action).value;
    assert SameStream(s, t, target);
    assert action.Arrive? || action.Push? || action.SignalCancel? ==> t.reader == s.reader;
    assert TargetOf(t, action) == Some(target);
    SameTarget(flow, s, t, action, target);
    StepIsIsolated(flow, s, action, target);
    StepIsIsolated(flow, t, action, target);
    hide Apply;
    var next, next' := Apply(flow, s, action).value, Apply(flow, t, action).value;
    forall other | other != id ensures SameStream(next, next', other) {
      if other != target {
        assert SameStream(s, t, other) && SameStream(s, next, other) && SameStream(t, next', other);
      }
    }
    assert SameStream(s, next, id) && SameStream(t, next', id);
  }

  /** Streams do not interfere: leave every frame, receive, grant and drop of one stream that does not itself end the
      connection out of a run and it is still a run, in which every other stream ends with the same queue, credit,
      cancellation, received frames and route, and the connection is open or closed as before. */
  lemma {:induction false} StreamsDoNotInterfere(flow: bool, s: State, t: State, actions: seq<Action>, id: U32)
    requires Inv(s) && Inv(t) && Alike(s, t, id)
    requires Exec(flow, s, actions).Some? && Exec(flow, s, actions).value.opens < ID_LIMIT
    requires LegalUpdates(flow, s, actions, id)
    ensures var erased := Exec(flow, t, Erased(flow, s, actions, id));
            erased.Some? && Alike(Exec(flow, s, actions).value, erased.value, id)
    decreases |actions|
  {
    hide Apply, Inv, Alike;
    if actions != [] {
      var next := Apply(flow, s, actions[0]).value;
      RunsOpensGrow(flow, next, actions[1..]);
      StepKeepsInv(flow, s, actions[0]);
      if TargetOf(s, actions[0]) == Some(id) {
        OwnStepIsInvisible(flow, s, t, actions[0], id);
        StreamsDoNotInterfere(flow, next, t, actions[1..], id);
      } else {
        KeptStep(flow, s, t, actions[0], id);
        var next' := Apply(flow, t, actions[0]).value;
        StreamsDoNotInterfere(flow, next, next', actions[1..], id);
        var rest := Erased(flow, next, actions[1..], id);
        assert ([actions[0]] + rest)[1..] == rest;
      }
    }
  }

  lemma KeptStep(flow: bool, s: State, t: State, action: Action, id: U32)
    requires Alike(s, t, id) && Inv(s) && Inv(t) && Apply(flow, s, action).Some?
    requires TargetOf(s, action) != Some(id) && Apply(flow, s, action).value.opens < ID_LIMIT
    ensures Apply(flow, t, action).Some?
    ensures Alike(Apply(flow, s, action).value, Apply(flow, t, action).value, id) && Inv(Apply(flow, t, action).value)
  {
    hide Apply, Inv, TargetOf;
    TargetedHasTarget(flow, s, action);
    if !IsTargeted(action) {
      SharedStep(flow, s, t, action, id);
    } else {
      OtherStep(flow, s, t, action, id);
    }
    StepKeepsInv(flow, t, action);
  }
}
