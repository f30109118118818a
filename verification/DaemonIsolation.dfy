/** Streams of the daemon do not interfere: any one of them can be left out of a run. */
module DaemonIsolation {
  import opened Wrappers
  import opened Bytes
  import opened Frames
  import opened FlowCredits
  import opened DaemonSteps
  import opened DaemonTables

  /** The stream an action is about. */
  function TargetOf(s: State, action: Action): Option<U32> {
    match action
    case Arrive(incoming, _) => Some(IdOf(incoming))
    case LoopStep => StreamOf(s.loop)
    case HandlerStep(task) => if task in s.handlers then Some(s.handlers[task].id) else None
    case TakeFrame(task) => if task in s.handlers then Some(s.handlers[task].id) else None
    case TakeCredit(id, _) => Some(id)
    case OverflowCancels(id) => Some(id)
    case LoopFails => None
  }

  function StreamOf(loop: Loop): Option<U32> {
    match loop
    case CancelRoute(id) => Some(id)
    case CancelTell(id) => Some(id)
    case Holding(id, _, _) => Some(id)
    case Dropping(id, _) => Some(id)
    case Answering(id, _) => Some(id)
    case Finishing(id) => Some(id)
    case _ => None
  }

  function Without(loop: Loop, id: U32): Loop { if StreamOf(loop) == Some(id) then Serving else loop }

  function Get<K, V>(table: map<K, V>, key: K): Option<V> { if key in table then Some(table[key]) else None }

  /** What the tables say about a stream. */
  datatype Entry = Entry(route: Option<nat>, cancel: Option<nat>, credit: Option<Credit>, canceled: bool,
                         overflows: nat, requested: Option<Kind>)

  function EntryOf(s: State, id: U32): Entry {
    Entry(Get(s.routes, id), Get(s.cancels, id), Get(s.credits, id), id in s.canceled, s.overflowed[id],
          Get(s.requested, id))
  }

  ghost predicate SameEntries(s: State, t: State, id: U32) {
    forall other: U32 :: other != id ==> EntryOf(s, other) == EntryOf(t, other)
  }

  /** The handlers of all other streams, with their inboxes. */
  ghost predicate SameOthers(handlers: Handlers, other: Handlers, id: U32) {
    forall k: nat ::
      && (k in handlers && handlers[k].id != id <==> k in other && other[k].id != id)
      && (k in handlers && handlers[k].id != id ==> other[k] == handlers[k])
  }

  /** The handlers of one stream. */
  ghost predicate SameOwn(handlers: Handlers, other: Handlers, id: U32) {
    forall k: nat ::
      && (k in handlers && handlers[k].id == id <==> k in other && other[k].id == id)
      && (k in handlers && handlers[k].id == id ==> other[k] == handlers[k])
  }

  /** The same for everyone but one stream. */
  ghost predicate Alike(s: State, t: State, id: U32) {
    && SameEntries(s, t, id) && SameOthers(s.handlers, t.handlers, id)
    && t.loop == Without(s.loop, id) && t.tasks <= s.tasks
  }

  /** Only the stream's entries and handlers and the loop differ. */
  ghost predicate Touches(s: State, next: State, id: U32) {
    SameEntries(s, next, id) && SameOthers(s.handlers, next.handlers, id)
  }

  lemma NotingTouches(handlers: Handlers, frame: Frame)
    ensures SameOthers(handlers, Noted(handlers, frame), frame.streamId)
  {
  }

  lemma WindowTouches(flow: bool, s: State, id: U32, bytes: Option<U32>)
    ensures Touches(s, WindowArrived(flow, s, id, bytes), id)
  {
    hide AddCredit;
  }

  lemma ChannelsTouch(s: State, id: U32, kind: Kind, task: nat)
    ensures Touches(s, Channeled(s, id, kind, task), id)
  {
    hide UsesRoute, UsesCancel;
  }

  lemma StartingTouches(s: State, id: U32, kind: Kind, task: nat)
    requires task !in s.handlers
    ensures Touches(s, Started(s, id, kind, task), id)
  {
  }

  lemma CreditsTouch(s: State, id: U32, credits: map<U32, Credit>, loop: Loop)
    requires credits == s.credits[id := Credit(0, 0)] || credits == s.credits
    ensures Touches(s, s.(credits := credits, loop := loop), id)
  {
  }

  lemma RegisteringTouches(flow: bool, s: State, id: U32, kind: Kind, task: nat)
    requires task !in s.handlers
    ensures Touches(s, Registered(flow, s, id, kind, task), id)
  {
    hide UsesRoute, UsesCancel, Touches, Started;
    ChannelsTouch(s, id, kind, task);
    var next, channeled := Registered(flow, s, id, kind, task), Channeled(s, id, kind, task);
    assert channeled.credits == s.credits && channeled.handlers == s.handlers;
    hide Channeled;
    var credits := if kind.Pull? && flow then s.credits[id := Credit(0, 0)] else s.credits;
    var credited := channeled.(credits := credits);
    CreditsTouch(channeled, id, s.credits, Leaving);
    CreditsTouch(channeled, id, credits, Leaving);
    CreditsTouch(channeled, id, credits, channeled.loop);
    StartingTouches(credited, id, kind, task);
    ChainTouches(s, channeled, channeled.(loop := Leaving), id);
    ChainTouches(s, channeled, channeled.(credits := credits, loop := Leaving), id);
    ChainTouches(s, channeled, credited, id);
    ChainTouches(s, credited, Started(credited, id, kind, task), id);
  }

  lemma ChainTouches(s: State, middle: State, next: State, id: U32)
    requires Touches(s, middle, id) && Touches(middle, next, id)
    ensures Touches(s, next, id)
  {
    hide EntryOf;
  }

  lemma NotedTouches(s: State, frame: Frame, loop: Loop)
    ensures Touches(s, s.(handlers := Noted(s.handlers, frame), loop := loop), frame.streamId)
    ensures Touches(s, s.(handlers := Noted(s.handlers, frame), loop := loop,
                          requested := s.requested[frame.streamId := Command]), frame.streamId)
  {
    NotingTouches(s.handlers, frame);
    hide Noted, SameOthers;
  }

  lemma PlainTouches(flow: bool, s: State, frame: Frame, task: nat)
    requires s.loop == Serving && task !in s.handlers
    ensures Touches(s, PlainArrived(flow, s, frame, task), frame.streamId)
  {
    hide Touches, Noted, RequestKind, Registered;
    var id, noted := frame.streamId, s.(handlers := Noted(s.handlers, frame));
    var next := PlainArrived(flow, s, frame, task);
    NotedTouches(s, frame, next.loop);
    NotedTouches(s, frame, s.loop);
    if id !in s.routes && RequestKind(frame.kind).Some? {
      assert task !in noted.handlers by { NotingKeepsShape(s.handlers, frame); }
      RegisteringTouches(flow, noted, id, RequestKind(frame.kind).value, task);
      ChainTouches(s, noted, next, id);
    }
  }

  lemma ArrivalTouches(flow: bool, s: State, incoming: Incoming, task: nat)
    requires s.handlers.Keys <= s.tasks && Arrived(flow, s, incoming, task).Some?
    ensures Touches(s, Arrived(flow, s, incoming, task).value, IdOf(incoming))
  {
    hide WindowArrived, PlainArrived;
    match incoming
    case Window(id, bytes) => WindowTouches(flow, s, id, bytes);
    case Cancel(id) =>
    case Plain(frame) => PlainTouches(flow, s, frame, task);
  }

  lemma PushingTouches(s: State, id: U32)
    requires HandLinked(s) && s.loop.Holding? && s.loop.id == id
    ensures Touches(s, Pushed(s), id)
  {
  }

  lemma TellingTouches(s: State, id: U32, loop: Loop)
    requires Linked(s)
    ensures Touches(s, ToldOne(s, id).(loop := loop), id)
  {
  }

  lemma UnroutingTouches(s: State, id: U32, loop: Loop, overflows: bool)
    ensures Touches(s, s.(routes := s.routes - {id}, loop := loop,
                          overflowed := if overflows then s.overflowed + multiset{id} else s.overflowed), id)
  {
  }

  lemma AnsweringTouches(s: State, id: U32, loop: Loop)
    ensures Touches(s, s.(canceled := s.canceled - {id}, loop := loop), id)
    ensures Touches(s, s.(credits := s.credits - {id}, loop := loop), id)
    ensures Touches(s, s.(loop := loop), id)
  {
  }

  lemma LoopTouches(s: State, id: U32)
    requires Linked(s) && HandLinked(s) && StreamOf(s.loop) == Some(id)
    ensures LoopStepped(s).Some? && Touches(s, LoopStepped(s).value, id)
  {
    hide Linked, HandLinked, Pushed, ToldOne, Touches;
    match s.loop
    case Holding(_, _, _) => PushingTouches(s, id);
    case CancelTell(_) => TellingTouches(s, id, Serving);
    case CancelRoute(_) => UnroutingTouches(s, id, CancelTell(id), false);
    case Dropping(_, overflow) => UnroutingTouches(s, id, Serving, overflow);
    case Answering(_, _) =>
      AnsweringTouches(s, id, Leaving);
      AnsweringTouches(s, id, Finishing(id));
    case Finishing(_) => AnsweringTouches(s, id, Serving);
    case _ =>
  }

  lemma LeftRoutesTouches(s: State, task: nat)
    requires task in s.handlers
    ensures Touches(s, LeftRoutes(s, task), s.handlers[task].id)
  {
    hide UsesRoute, UsesCancel;
  }

  lemma LeftCancelsTouches(s: State, task: nat)
    requires task in s.handlers
    ensures Touches(s, LeftCancels(s, task), s.handlers[task].id)
  {
    hide UsesRoute, UsesCancel;
  }

  lemma ForgottenTouches(s: State, task: nat)
    requires task in s.handlers
    ensures Touches(s, Forgotten(s, task), s.handlers[task].id)
  {
    hide UsesRoute, UsesCancel;
  }

  lemma GoneTouches(s: State, task: nat)
    requires task in s.handlers
    ensures Touches(s, Gone(s, task), s.handlers[task].id)
  {
    hide UsesRoute, UsesCancel;
  }

  lemma HandlerTouches(s: State, task: nat)
    requires Stepped(s, task).Some?
    ensures Touches(s, Stepped(s, task).value, s.handlers[task].id)
  {
    hide LeftRoutes, LeftCancels, Forgotten, Gone, Touches;
    LeftRoutesTouches(s, task);
    LeftCancelsTouches(s, task);
    ForgottenTouches(s, task);
    GoneTouches(s, task);
  }

  lemma OthersTouch(flow: bool, s: State, action: Action, id: U32)
    requires Apply(flow, s, action).Some? && TargetOf(s, action) == Some(id)
    requires action.TakeFrame? || action.TakeCredit? || action.OverflowCancels?
    ensures Touches(s, Apply(flow, s, action).value, id)
  {
  }

  /** What happens to one stream changes no table entry, credit, handler or inbox of another. */
  lemma StepIsIsolated(flow: bool, s: State, action: Action, id: U32)
    requires Inv(s) && Apply(flow, s, action).Some? && TargetOf(s, action) == Some(id)
    ensures Touches(s, Apply(flow, s, action).value, id)
    ensures var next := Apply(flow, s, action).value;
            next.loop == Leaving || Without(next.loop, id) == Without(s.loop, id)
  {
    assert Linked(s) && HandLinked(s) && s.handlers.Keys <= s.tasks;
    var next := Apply(flow, s, action).value;
    assert Touches(s, next, id) by {
      hide Inv, Linked, HandLinked, Arrived, LoopStepped, Stepped, FrameTaken, CancelLocal, Touches;
      match action
      case Arrive(incoming, task) => ArrivalTouches(flow, s, incoming, task);
      case LoopStep => LoopTouches(s, id);
      case HandlerStep(task) => HandlerTouches(s, task);
      case _ => OthersTouch(flow, s, action, id);
    }
    hide Touches, Inv, Linked, HandLinked;
    LoopStaysWithin(flow, s, action, id);
  }

  lemma LoopStaysWithin(flow: bool, s: State, action: Action, id: U32)
    requires Apply(flow, s, action).Some? && TargetOf(s, action) == Some(id) && HandLinked(s)
    ensures var next := Apply(flow, s, action).value;
            next.loop == Leaving || Without(next.loop, id) == Without(s.loop, id)
  {
    hide Stepped, FrameTaken;
    match action
    case Arrive(incoming, task) => ArrivalStaysWithin(flow, s, incoming, task);
    case HandlerStep(task) => assert Stepped(s, task).value.loop == s.loop by { SteppedLoop(s, task); }
    case TakeFrame(task) => assert FrameTaken(s, task).value.loop == s.loop by { TakenLoop(s, task); }
    case _ =>
  }

  lemma SteppedLoop(s: State, task: nat)
    requires Stepped(s, task).Some?
    ensures Stepped(s, task).value.loop == s.loop
  {
  }

  lemma TakenLoop(s: State, task: nat)
    requires FrameTaken(s, task).Some?
    ensures FrameTaken(s, task).value.loop == s.loop
  {
  }

  lemma ArrivalStaysWithin(flow: bool, s: State, incoming: Incoming, task: nat)
    requires Arrived(flow, s, incoming, task).Some?
    ensures var next := Arrived(flow, s, incoming, task).value;
            next.loop == Leaving || Without(next.loop, IdOf(incoming)) == Serving == s.loop
  {
    hide AddCredit, RequestKind, Noted, UsesRoute, UsesCancel;
  }

  /** The same stream in both states. */
  ghost predicate SameStream(s: State, t: State, id: U32) {
    EntryOf(s, id) == EntryOf(t, id) && SameOwn(s.handlers, t.handlers, id)
  }

  lemma NotingIsSame(handlers: Handlers, other: Handlers, frame: Frame)
    requires SameOwn(handlers, other, frame.streamId)
    ensures SameOwn(Noted(handlers, frame), Noted(other, frame), frame.streamId)
  {
  }

  lemma WindowIsSame(flow: bool, s: State, t: State, id: U32, bytes: Option<U32>)
    requires SameStream(s, t, id) && s.loop == t.loop
    ensures var next, next' := WindowArrived(flow, s, id, bytes), WindowArrived(flow, t, id, bytes);
            SameStream(next, next', id) && next.loop == next'.loop
  {
    hide SameOwn;
    WindowEntry(flow, s, id, bytes);
    WindowEntry(flow, t, id, bytes);
    assert EntryOf(s, id).credit == EntryOf(t, id).credit;
    hide EntryOf, WindowArrived, CreditAfter;
  }

  /** What a window update makes of a credit; `None` ends the connection. */
  function CreditAfter(credit: Option<Credit>, bytes: nat): Option<Option<Credit>> {
    match credit
    case None => Some(None)
    case Some(was) =>
      match AddCredit(was.available, bytes)
      case None => None
      case Some(available) => Some(Some(Notified(was.(available := available))))
  }

  lemma WindowEntry(flow: bool, s: State, id: U32, bytes: Option<U32>)
    ensures var next := WindowArrived(flow, s, id, bytes);
            && next.handlers == s.handlers
            && var credit := if bytes.None? || !flow then None else CreditAfter(EntryOf(s, id).credit, bytes.value);
               if credit.None? then next.loop == Leaving && EntryOf(next, id) == EntryOf(s, id)
               else next.loop == s.loop && EntryOf(next, id) == EntryOf(s, id).(credit := credit.value)
  {
    hide AddCredit;
  }

  lemma CancelingIsSame(s: State, t: State, id: U32)
    requires SameStream(s, t, id)
    ensures SameStream(CancelLocal(s, id), CancelLocal(t, id), id)
  {
  }

  lemma ChannelingIsSame(s: State, t: State, id: U32, kind: Kind, task: nat)
    requires SameStream(s, t, id)
    ensures SameStream(Channeled(s, id, kind, task), Channeled(t, id, kind, task), id)
  {
    hide UsesRoute, UsesCancel;
  }

  lemma StartingIsSame(s: State, t: State, id: U32, kind: Kind, task: nat)
    requires SameStream(s, t, id) && task !in s.handlers && task !in t.handlers
    ensures SameStream(Started(s, id, kind, task), Started(t, id, kind, task), id)
  {
  }

  lemma LoopDoesNotMatter(s: State, t: State, id: U32, loop: Loop, loop': Loop)
    requires SameStream(s, t, id)
    ensures SameStream(s.(loop := loop), t.(loop := loop'), id)
    ensures SameStream(s.(credits := s.credits[id := Credit(0, 0)], loop := loop),
                       t.(credits := t.credits[id := Credit(0, 0)], loop := loop'), id)
  {
  }

  lemma RegisteringIsSame(flow: bool, s: State, t: State, id: U32, kind: Kind, task: nat)
    requires SameStream(s, t, id) && s.loop == t.loop && task !in s.handlers && task !in t.handlers
    ensures var next, next' := Registered(flow, s, id, kind, task), Registered(flow, t, id, kind, task);
            SameStream(next, next', id) && next.loop == next'.loop
  {
    assert (id in s.cancels <==> id in t.cancels) && (id in s.credits <==> id in t.credits) by {
      assert Get(s.cancels, id) == Get(t.cancels, id) && Get(s.credits, id) == Get(t.credits, id);
    }
    ChannelingIsSame(s, t, id, kind, task);
    var cs, ct := Channeled(s, id, kind, task), Channeled(t, id, kind, task);
    assert cs.handlers == s.handlers && ct.handlers == t.handlers && cs.loop == ct.loop == s.loop;
    assert cs.credits == s.credits && ct.credits == t.credits;
    hide SameStream, Channeled, UsesCancel;
    LoopDoesNotMatter(cs, ct, id, Leaving, Leaving);
    LoopDoesNotMatter(cs, ct, id, cs.loop, ct.loop);
    StartingIsSame(cs, ct, id, kind, task);
    StartingIsSame(cs.(credits := s.credits[id := Credit(0, 0)]), ct.(credits := t.credits[id := Credit(0, 0)]),
                   id, kind, task);
  }

  lemma NotedStreamIsSame(s: State, t: State, frame: Frame, loop: Loop, requested: bool)
    requires SameStream(s, t, frame.streamId)
    ensures var id := frame.streamId;
            var rs := if requested then s.requested[id := Command] else s.requested;
            var rt := if requested then t.requested[id := Command] else t.requested;
            SameStream(s.(handlers := Noted(s.handlers, frame), loop := loop, requested := rs),
                       t.(handlers := Noted(t.handlers, frame), loop := loop, requested := rt), id)
  {
    NotingIsSame(s.handlers, t.handlers, frame);
    hide Noted, SameOwn;
  }

  lemma RoutedIsSame(flow: bool, s: State, t: State, frame: Frame, task: nat)
    requires SameStream(s, t, frame.streamId) && frame.streamId in s.routes
    ensures var next, next' := PlainArrived(flow, s, frame, task), PlainArrived(flow, t, frame, task);
            SameStream(next, next', frame.streamId) && next.loop == next'.loop
  {
    var id := frame.streamId;
    assert EntryOf(s, id).route == EntryOf(t, id).route;
    assert id in t.routes && s.routes[id] == t.routes[id];
    hide SameStream, Noted, RequestKind, Registered;
    NotedStreamIsSame(s, t, frame, Holding(id, s.routes[id], frame), false);
  }

  lemma AnsweredIsSame(flow: bool, s: State, t: State, frame: Frame, task: nat)
    requires SameStream(s, t, frame.streamId)
    requires frame.streamId !in s.routes && RequestKind(frame.kind).None?
    ensures var next, next' := PlainArrived(flow, s, frame, task), PlainArrived(flow, t, frame, task);
            SameStream(next, next', frame.streamId) && next.loop == next'.loop
  {
    var id := frame.streamId;
    assert EntryOf(s, id).route == EntryOf(t, id).route && (id in s.canceled <==> id in t.canceled);
    assert id !in t.routes;
    hide SameStream, Noted, RequestKind, Registered;
    NotedStreamIsSame(s, t, frame, Answering(id, false), false);
    NotedStreamIsSame(s, t, frame, Leaving, false);
    NotedStreamIsSame(s, t, frame, Answering(id, true), true);
  }

  lemma RequestIsSame(flow: bool, s: State, t: State, frame: Frame, task: nat)
    requires SameStream(s, t, frame.streamId) && s.loop == t.loop == Serving
    requires task !in s.handlers && task !in t.handlers
    requires frame.streamId !in s.routes && RequestKind(frame.kind).Some?
    ensures var next, next' := PlainArrived(flow, s, frame, task), PlainArrived(flow, t, frame, task);
            SameStream(next, next', frame.streamId) && next.loop == next'.loop
  {
    var id := frame.streamId;
    assert id !in t.routes by {
      assert EntryOf(s, id).route == EntryOf(t, id).route;
    }
    NotingKeepsShape(s.handlers, frame);
    NotingKeepsShape(t.handlers, frame);
    hide SameStream, Noted, RequestKind, Registered;
    NotedStreamIsSame(s, t, frame, Serving, false);
    RegisteringIsSame(flow, s.(handlers := Noted(s.handlers, frame)), t.(handlers := Noted(t.handlers, frame)), id,
                      RequestKind(frame.kind).value, task);
  }

  lemma PlainIsSame(flow: bool, s: State, t: State, frame: Frame, task: nat)
    requires SameStream(s, t, frame.streamId) && s.loop == t.loop == Serving
    requires task !in s.handlers && task !in t.handlers
    ensures var next, next' := PlainArrived(flow, s, frame, task), PlainArrived(flow, t, frame, task);
            SameStream(next, next', frame.streamId) && next.loop == next'.loop
  {
    hide SameStream, PlainArrived, RequestKind;
    if frame.streamId in s.routes {
      RoutedIsSame(flow, s, t, frame, task);
    } else if RequestKind(frame.kind).None? {
      AnsweredIsSame(flow, s, t, frame, task);
    } else {
      RequestIsSame(flow, s, t, frame, task);
    }
  }

  lemma ArrivalIsSame(flow: bool, s: State, t: State, incoming: Incoming, task: nat)
    requires SameStream(s, t, IdOf(incoming)) && s.loop == t.loop && t.tasks <= s.tasks
    requires s.handlers.Keys <= s.tasks && t.handlers.Keys <= t.tasks && Arrived(flow, s, incoming, task).Some?
    ensures Arrived(flow, t, incoming, task).Some?
    ensures var next, next' := Arrived(flow, s, incoming, task).value, Arrived(flow, t, incoming, task).value;
            SameStream(next, next', IdOf(incoming)) && next.loop == next'.loop && next'.tasks <= next.tasks
  {
    ArrivalTasks(flow, s, incoming, task);
    ArrivalTasks(flow, t, incoming, task);
    hide SameStream, WindowArrived, CancelLocal, PlainArrived;
    match incoming
    case Window(id, bytes) => WindowIsSame(flow, s, t, id, bytes);
    case Cancel(id) =>
      CancelingIsSame(s, t, id);
      LoopDoesNotMatter(CancelLocal(s, id), CancelLocal(t, id), id, CancelRoute(id), CancelRoute(id));
    case Plain(frame) => PlainIsSame(flow, s, t, frame, task);
  }

  lemma ArrivalTasks(flow: bool, s: State, incoming: Incoming, task: nat)
    requires Arrived(flow, s, incoming, task).Some?
    ensures Arrived(flow, s, incoming, task).value.tasks
         == if incoming.Plain? && incoming.frame.streamId !in s.routes && RequestKind(incoming.frame.kind).Some?
            then s.tasks + {task} else s.tasks
  {
    hide RequestKind, Noted, AddCredit, UsesRoute, UsesCancel;
  }

  lemma UpdatingIsSame(handlers: Handlers, other: Handlers, id: U32, k: nat, handler: Handler)
    requires SameOwn(handlers, other, id) && k in handlers && handlers[k].id == id && handler.id == id
    ensures k in other && SameOwn(handlers[k := handler], other[k := handler], id)
  {
  }

  /** The inbox after a send, if there is one with room. */
  function AfterSend(handler: Option<Handler>, frame: Frame): Option<Handler> {
    if handler.None? || |handler.value.queue| >= STREAM_ROUTE_CAPACITY then None
    else Some(handler.value.(queue := handler.value.queue + [frame]))
  }

  lemma PushedHandlers(s: State)
    requires s.loop.Holding?
    ensures var task := s.loop.task;
            var after := AfterSend(Get(s.handlers, task), s.loop.frame);
            if after.Some? then Pushed(s).handlers == s.handlers[task := after.value] && Pushed(s).loop == Serving
            else Pushed(s).handlers == s.handlers && Pushed(s).loop == Dropping(s.loop.id, task in s.handlers)
  {
  }

  lemma PushingIsSame(s: State, t: State, id: U32)
    requires SameStream(s, t, id) && s.loop == t.loop && s.loop.Holding? && s.loop.id == id
    requires HandLinked(s) && HandLinked(t)
    ensures SameStream(Pushed(s), Pushed(t), id) && Pushed(s).loop == Pushed(t).loop
  {
    var task := s.loop.task;
    assert Get(s.handlers, task) == Get(t.handlers, task);
    var after := AfterSend(Get(s.handlers, task), s.loop.frame);
    assert after.Some? ==> task in s.handlers && s.handlers[task].id == id == after.value.id;
    PushingKeepsEntries(s, id);
    PushingKeepsEntries(t, id);
    PushedHandlers(s);
    PushedHandlers(t);
    hide EntryOf, SameOwn, HandLinked, Pushed, AfterSend;
    if after.Some? {
      UpdatingIsSame(s.handlers, t.handlers, id, task, after.value);
    }
  }

  lemma PushingKeepsEntries(s: State, id: U32)
    requires s.loop.Holding?
    ensures EntryOf(Pushed(s), id) == EntryOf(s, id)
  {
  }

  lemma TellingIsSame(s: State, t: State, id: U32, loop: Loop)
    requires SameStream(s, t, id) && Linked(s) && Linked(t)
    ensures SameStream(ToldOne(s, id).(loop := loop), ToldOne(t, id).(loop := loop), id)
  {
    assert Get(s.cancels, id) == Get(t.cancels, id);
    if id in s.cancels {
      assert s.cancels[id] == t.cancels[id];
      assert s.cancels[id] in s.handlers <==> s.cancels[id] in t.handlers;
    }
  }

  lemma UnroutingIsSame(s: State, t: State, id: U32, loop: Loop, overflows: bool)
    requires SameStream(s, t, id)
    ensures SameStream(s.(routes := s.routes - {id}, loop := loop,
                          overflowed := if overflows then s.overflowed + multiset{id} else s.overflowed),
                       t.(routes := t.routes - {id}, loop := loop,
                          overflowed := if overflows then t.overflowed + multiset{id} else t.overflowed), id)
  {
    hide SameOwn;
  }

  lemma AnsweringIsSame(s: State, t: State, id: U32, loop: Loop)
    requires SameStream(s, t, id)
    ensures SameStream(s.(canceled := s.canceled - {id}, loop := loop),
                       t.(canceled := t.canceled - {id}, loop := loop), id)
    ensures SameStream(s.(credits := s.credits - {id}, loop := loop), t.(credits := t.credits - {id}, loop := loop), id)
    ensures SameStream(s.(loop := loop), t.(loop := loop), id)
  {
    hide SameOwn;
  }

  lemma LoopIsSame(s: State, t: State, id: U32)
    requires SameStream(s, t, id) && s.loop == t.loop && StreamOf(s.loop) == Some(id)
    requires Linked(s) && HandLinked(s) && Linked(t) && HandLinked(t)
    ensures LoopStepped(s).Some? && LoopStepped(t).Some?
    ensures SameStream(LoopStepped(s).value, LoopStepped(t).value, id)
    ensures LoopStepped(s).value.loop == LoopStepped(t).value.loop
  {
    assert id in s.canceled <==> id in t.canceled by {
      assert EntryOf(s, id).canceled == EntryOf(t, id).canceled;
    }
    hide SameStream, Linked, HandLinked, Pushed, ToldOne;
    match s.loop
    case Holding(_, _, _) => PushingIsSame(s, t, id);
    case CancelTell(_) => TellingIsSame(s, t, id, Serving);
    case CancelRoute(_) => UnroutingIsSame(s, t, id, CancelTell(id), false);
    case Dropping(_, overflow) => UnroutingIsSame(s, t, id, Serving, overflow);
    case Answering(_, _) =>
      AnsweringIsSame(s, t, id, Leaving);
      AnsweringIsSame(s, t, id, Finishing(id));
    case Finishing(_) => AnsweringIsSame(s, t, id, Serving);
    case _ =>
  }

  lemma LeftRoutesIsSame(s: State, t: State, task: nat)
    requires task in s.handlers && task in t.handlers && s.handlers[task] == t.handlers[task]
    requires SameStream(s, t, s.handlers[task].id)
    ensures SameStream(LeftRoutes(s, task), LeftRoutes(t, task), s.handlers[task].id)
  {
    hide UsesRoute;
  }

  lemma LeftCancelsIsSame(s: State, t: State, task: nat)
    requires task in s.handlers && task in t.handlers && s.handlers[task] == t.handlers[task]
    requires SameStream(s, t, s.handlers[task].id)
    ensures SameStream(LeftCancels(s, task), LeftCancels(t, task), s.handlers[task].id)
  {
    hide UsesCancel;
  }

  lemma ForgottenIsSame(s: State, t: State, task: nat)
    requires task in s.handlers && task in t.handlers && s.handlers[task] == t.handlers[task]
    requires SameStream(s, t, s.handlers[task].id)
    ensures SameStream(Forgotten(s, task), Forgotten(t, task), s.handlers[task].id)
  {
  }

  lemma GoneIsSame(s: State, t: State, task: nat)
    requires task in s.handlers && task in t.handlers && s.handlers[task] == t.handlers[task]
    requires SameStream(s, t, s.handlers[task].id)
    ensures SameStream(Gone(s, task), Gone(t, task), s.handlers[task].id)
  {
  }

  lemma HandlerIsSame(s: State, t: State, task: nat)
    requires task in s.handlers && task in t.handlers && s.handlers[task] == t.handlers[task]
    requires SameStream(s, t, s.handlers[task].id)
    ensures Stepped(s, task).Some? && Stepped(t, task).Some?
    ensures SameStream(Stepped(s, task).value, Stepped(t, task).value, s.handlers[task].id)
  {
    hide SameStream, LeftRoutes, LeftCancels, Forgotten, Gone;
    LeftRoutesIsSame(s, t, task);
    LeftCancelsIsSame(s, t, task);
    ForgottenIsSame(s, t, task);
    GoneIsSame(s, t, task);
  }

  lemma TakingIsSame(s: State, t: State, task: nat)
    requires task in s.handlers && task in t.handlers && s.handlers[task] == t.handlers[task]
    requires SameStream(s, t, s.handlers[task].id) && FrameTaken(s, task).Some?
    ensures FrameTaken(t, task).Some?
    ensures SameStream(FrameTaken(s, task).value, FrameTaken(t, task).value, s.handlers[task].id)
  {
  }

  lemma WriterIsSame(flow: bool, s: State, t: State, action: Action, id: U32)
    requires SameStream(s, t, id) && Apply(flow, s, action).Some?
    requires action == OverflowCancels(id) || (action.TakeCredit? && action.id == id)
    ensures Apply(flow, t, action).Some?
    ensures SameStream(Apply(flow, s, action).value, Apply(flow, t, action).value, id)
  {
    assert s.overflowed[id] == t.overflowed[id] by {
      assert EntryOf(s, id).overflows == EntryOf(t, id).overflows;
    }
    assert Get(s.credits, id) == Get(t.credits, id);
    hide SameOwn, Arrived, LoopStepped, Stepped, FrameTaken;
    if action.OverflowCancels? {
      hide EntryOf, CancelLocal;
      CancelingIsSame(s, t, id);
      SpendingOverflow(CancelLocal(s, id), CancelLocal(t, id), id);
    }
  }

  lemma SpendingOverflow(s: State, t: State, id: U32)
    requires SameStream(s, t, id)
    ensures SameStream(s.(overflowed := s.overflowed - multiset{id}), t.(overflowed := t.overflowed - multiset{id}), id)
  {
    assert EntryOf(s, id).overflows == EntryOf(t, id).overflows;
    hide SameOwn;
  }

  lemma TasksOnlyGrow(flow: bool, s: State, action: Action)
    requires Apply(flow, s, action).Some? && !action.Arrive?
    ensures Apply(flow, s, action).value.tasks == s.tasks
  {
  }

  lemma LoopOnlyByLoop(flow: bool, s: State, action: Action)
    requires Apply(flow, s, action).Some? && !action.Arrive? && !action.LoopStep? && !action.LoopFails?
    ensures Apply(flow, s, action).value.loop == s.loop
  {
  }

  /** A step about a stream both states agree on has the same outcome for it. */
  lemma TargetIsSame(flow: bool, s: State, t: State, action: Action, id: U32)
    requires Inv(s) && Inv(t) && SameStream(s, t, id) && t.tasks <= s.tasks
    requires TargetOf(s, action) == Some(id) && Apply(flow, s, action).Some?
    requires action.Arrive? || action.LoopStep? ==> t.loop == s.loop
    ensures TargetOf(t, action) == Some(id) && Apply(flow, t, action).Some?
    ensures var next, next' := Apply(flow, s, action).value, Apply(flow, t, action).value;
            && SameStream(next, next', id) && next'.tasks <= next.tasks
            && if action.Arrive? || action.LoopStep? then next'.loop == next.loop
               else next.loop == s.loop && next'.loop == t.loop
  {
    assert Linked(s) && HandLinked(s) && Linked(t) && HandLinked(t);
    assert s.handlers.Keys <= s.tasks && t.handlers.Keys <= t.tasks;
    if action.HandlerStep? || action.TakeFrame? {
      assert action.task in t.handlers && t.handlers[action.task] == s.handlers[action.task];
    }
    hide Inv, Linked, HandLinked, SameStream, Arrived, LoopStepped, Stepped, FrameTaken, CancelLocal;
    match action
    case Arrive(incoming, task) => ArrivalIsSame(flow, s, t, incoming, task);
    case LoopStep =>
      LoopIsSame(s, t, id);
      TasksOnlyGrow(flow, s, action);
      TasksOnlyGrow(flow, t, action);
    case HandlerStep(task) =>
      HandlerIsSame(s, t, task);
      QuietSteps(flow, s, t, action);
    case TakeFrame(task) =>
      TakingIsSame(s, t, task);
      QuietSteps(flow, s, t, action);
    case _ =>
      WriterIsSame(flow, s, t, action, id);
      QuietSteps(flow, s, t, action);
  }

  lemma QuietSteps(flow: bool, s: State, t: State, action: Action)
    requires Apply(flow, s, action).Some? && Apply(flow, t, action).Some?
    requires !action.Arrive? && !action.LoopStep? && !action.LoopFails?
    ensures var next, next' := Apply(flow, s, action).value, Apply(flow, t, action).value;
            next.loop == s.loop && next'.loop == t.loop && next.tasks == s.tasks && next'.tasks == t.tasks
  {
    TasksOnlyGrow(flow, s, action);
    TasksOnlyGrow(flow, t, action);
    LoopOnlyByLoop(flow, s, action);
    LoopOnlyByLoop(flow, t, action);
  }

  // ---- Leaving one stream out of a run ----

  lemma OtherStreamIsSame(s: State, t: State, id: U32, other: U32)
    requires Alike(s, t, id) && other != id
    ensures SameStream(s, t, other)
  {
    hide EntryOf;
  }

  lemma SameOthersChain(a: Handlers, b: Handlers, c: Handlers, id: U32)
    requires SameOthers(a, b, id) && SameOthers(b, c, id)
    ensures SameOthers(a, c, id)
  {
  }

  /** A loop that is leaving already takes no step about a stream. */
  lemma LeavingStaysLeaving(flow: bool, s: State, action: Action)
    requires Apply(flow, s, action).Some? && TargetOf(s, action).Some?
    ensures s.loop == Leaving ==> Apply(flow, s, action).value.loop == Leaving
  {
    if s.loop == Leaving && !action.Arrive? && !action.LoopStep? {
      LoopOnlyByLoop(flow, s, action);
    }
  }

  lemma OwnStepIsInvisible(flow: bool, s: State, t: State, action: Action, id: U32)
    requires Inv(s) && Alike(s, t, id) && TargetOf(s, action) == Some(id) && Apply(flow, s, action).Some?
    requires s.loop == Leaving || Apply(flow, s, action).value.loop != Leaving
    ensures Alike(Apply(flow, s, action).value, t, id)
  {
    LeavingStaysLeaving(flow, s, action);
    var next := Apply(flow, s, action).value;
    StepIsIsolated(flow, s, action, id);
    assert s.tasks <= next.tasks by {
      hide Inv, Alike, Touches;
      if action.Arrive? {
        ArrivalTasks(flow, s, action.incoming, action.task);
      } else {
        TasksOnlyGrow(flow, s, action);
      }
    }
    hide Apply, Inv, EntryOf, SameOthers;
    SameOthersFlip(s.handlers, next.handlers, id);
    SameOthersChain(next.handlers, s.handlers, t.handlers, id);
  }

  lemma SameOthersFlip(a: Handlers, b: Handlers, id: U32)
    requires SameOthers(a, b, id)
    ensures SameOthers(b, a, id)
  {
  }

  /** Agreement about a stream and about the others, before and after, makes agreement about everyone else. */
  lemma AgreementsJoin(s: State, t: State, next: State, next': State, id: U32, other: U32)
    requires id != other && SameEntries(s, t, id) && SameOthers(s.handlers, t.handlers, id)
    requires Touches(s, next, other) && Touches(t, next', other) && SameStream(next, next', other)
    ensures SameEntries(next, next', id) && SameOthers(next.handlers, next'.handlers, id)
  {
    hide EntryOf;
  }

  lemma OtherStep(flow: bool, s: State, t: State, action: Action, id: U32)
    requires Inv(s) && Inv(t) && Alike(s, t, id) && Apply(flow, s, action).Some?
    requires TargetOf(s, action).Some? && TargetOf(s, action) != Some(id)
    ensures Apply(flow, t, action).Some? && Alike(Apply(flow, s, action).value, Apply(flow, t, action).value, id)
  {
    var other := TargetOf(s, action).value;
    OtherStreamIsSame(s, t, id, other);
    assert action.Arrive? || action.LoopStep? ==> t.loop == s.loop by { hide Inv, SameEntries, SameOthers; }
    hide Inv, SameStream, Touches, SameEntries, SameOthers, Arrived, LoopStepped, Stepped, FrameTaken, CancelLocal;
    TargetIsSame(flow, s, t, action, other);
    StepIsIsolated(flow, s, action, other);
    StepIsIsolated(flow, t, action, other);
    var next, next' := Apply(flow, s, action).value, Apply(flow, t, action).value;
    AgreementsJoin(s, t, next, next', id, other);
    LoopsAgree(flow, s, t, action, id, other);
  }

  lemma LoopsAgree(flow: bool, s: State, t: State, action: Action, id: U32, other: U32)
    requires TargetOf(s, action) == Some(other) && id != other && t.loop == Without(s.loop, id)
    requires Apply(flow, s, action).Some? && Apply(flow, t, action).Some?
    requires var next, next' := Apply(flow, s, action).value, Apply(flow, t, action).value;
             if action.Arrive? || action.LoopStep? then next'.loop == next.loop
             else next.loop == s.loop && next'.loop == t.loop
    requires Apply(flow, s, action).value.loop == Leaving
          || Without(Apply(flow, s, action).value.loop, other) == Without(s.loop, other)
    ensures Apply(flow, t, action).value.loop == Without(Apply(flow, s, action).value.loop, id)
  {
    hide Arrived, LoopStepped, Stepped, FrameTaken, CancelLocal;
    if action.Arrive? {
      assert s.loop == Serving by { ServingArrives(flow, s, action.incoming, action.task); }
    }
  }

  lemma ServingArrives(flow: bool, s: State, incoming: Incoming, task: nat)
    requires Arrived(flow, s, incoming, task).Some?
    ensures s.loop == Serving
  {
  }

  lemma ClearingIsAlike(s: State, t: State, id: U32)
    requires Alike(s, t, id) && s.loop == Leaving
    ensures Alike(RoutesCleared(s), RoutesCleared(t), id)
  {
    forall other: U32 | other != id ensures EntryOf(RoutesCleared(s), other) == EntryOf(RoutesCleared(t), other) {
      assert EntryOf(s, other) == EntryOf(t, other);
    }
  }

  lemma DrainedHandlers(s: State, t: State, id: U32)
    requires SameEntries(s, t, id) && SameOthers(s.handlers, t.handlers, id)
    ensures SameOthers(CancelsDrained(s).handlers, CancelsDrained(t).handlers, id)
  {
    var next, next' := CancelsDrained(s).handlers, CancelsDrained(t).handlers;
    forall k: nat | k in s.handlers && s.handlers[k].id != id ensures k in next' && next'[k] == next[k] {
      var other := s.handlers[k].id;
      assert EntryOf(s, other).cancel == EntryOf(t, other).cancel;
      assert Get(s.cancels, other) == Get(t.cancels, other);
      assert InCancels(s, k) <==> InCancels(t, k);
    }
    hide SameEntries, EntryOf;
  }

  lemma DrainingIsAlike(s: State, t: State, id: U32)
    requires Alike(s, t, id) && s.loop == Draining
    ensures Alike(CancelsDrained(s), CancelsDrained(t), id)
  {
    DrainedHandlers(s, t, id);
    hide SameOthers;
    forall other: U32 | other != id ensures EntryOf(CancelsDrained(s), other) == EntryOf(CancelsDrained(t), other) {
      assert EntryOf(s, other) == EntryOf(t, other);
    }
  }

  lemma SharedStep(flow: bool, s: State, t: State, action: Action, id: U32)
    requires Alike(s, t, id) && Apply(flow, s, action).Some? && TargetOf(s, action).None?
    ensures Apply(flow, t, action).Some? && Alike(Apply(flow, s, action).value, Apply(flow, t, action).value, id)
  {
    UntargetedSteps(flow, s, action);
    hide SameEntries, SameOthers, RoutesCleared, CancelsDrained, Stepped, FrameTaken, Arrived;
    if action.LoopStep? && s.loop == Leaving {
      ClearingIsAlike(s, t, id);
    } else if action.LoopStep? {
      DrainingIsAlike(s, t, id);
    } else {
      FailingIsAlike(s, t, id);
    }
  }

  lemma UntargetedSteps(flow: bool, s: State, action: Action)
    requires Apply(flow, s, action).Some? && TargetOf(s, action).None?
    ensures action.LoopFails? || (action.LoopStep? && (s.loop == Leaving || s.loop == Draining))
  {
  }

  lemma FailingIsAlike(s: State, t: State, id: U32)
    requires Alike(s, t, id)
    ensures Alike(s.(loop := Leaving), t.(loop := Leaving), id)
  {
    var next, next' := s.(loop := Leaving), t.(loop := Leaving);
    forall other: U32 | other != id ensures EntryOf(next, other) == EntryOf(next', other) {
      assert EntryOf(s, other) == EntryOf(t, other);
    }
  }

  /** The run without the actions about one stream. */
  function Erased(flow: bool, s: State, actions: seq<Action>, id: U32): seq<Action>
    requires Exec(flow, s, actions).Some?
    decreases |actions|
  {
    if actions == [] then []
    else
      var rest := Erased(flow, Apply(flow, s, actions[0]).value, actions[1..], id);
      if TargetOf(s, actions[0]) == Some(id) then rest else [actions[0]] + rest
  }

  /** The stream does not itself end the connection. */
  ghost predicate Harmless(flow: bool, s: State, actions: seq<Action>, id: U32)
    requires Exec(flow, s, actions).Some?
    decreases |actions|
  {
    actions == []
    || (var next := Apply(flow, s, actions[0]).value;
        && (TargetOf(s, actions[0]) == Some(id) && s.loop != Leaving ==> next.loop != Leaving)
        && Harmless(flow, next, actions[1..], id))
  }

  /** With an orderly host only a window update can do that: one that does not decode, was not negotiated or overfills
      the credit. */
  lemma OnlyWindowsEndTheLoop(flow: bool, s: State, action: Action, id: U32)
    requires Live(flow, s) && Orderly(s, action) && TargetOf(s, action) == Some(id) && Apply(flow, s, action).Some?
    requires s.loop != Leaving
    ensures Apply(flow, s, action).value.loop != Leaving || (action.Arrive? && action.incoming.Window?)
  {
    if action.Arrive? {
      if action.incoming.Plain? {
        PlainKeepsServing(flow, s, action.incoming.frame, action.task);
      } else {
        hide Live;
      }
    } else if action.LoopStep? {
      hide Owned, RoutesLive, CancelsLive, CreditsLive, RoutesUncanceled, Used;
    } else {
      hide Live;
      LoopOnlyByLoop(flow, s, action);
    }
  }

  lemma PlainKeepsServing(flow: bool, s: State, frame: Frame, task: nat)
    requires Live(flow, s) && s.loop == Serving && Allowed(s, Plain(frame))
    ensures PlainArrived(flow, s, frame, task).loop != Leaving
  {
    if frame.streamId !in s.requested {
      NewIsNowhere(flow, s, frame.streamId);
    }
    hide Live, Noted, RequestKind, UsesRoute, UsesCancel;
  }

  /** Streams do not interfere, whatever the host sends: leave every frame, step and overflow of one stream that does
      not itself end the connection out of a run, and it is still a run, in which the tables, credits, handlers and
      inboxes of all other streams end up the same, and the loop in the same place. */
  lemma {:induction false} StreamsDoNotInterfere(flow: bool, s: State, t: State, actions: seq<Action>, id: U32)
    requires Inv(s) && Inv(t) && Alike(s, t, id)
    requires Exec(flow, s, actions).Some? && Harmless(flow, s, actions, id)
    ensures var erased := Exec(flow, t, Erased(flow, s, actions, id));
            erased.Some? && Alike(Exec(flow, s, actions).value, erased.value, id)
    decreases |actions|
  {
    hide Apply, Inv, Alike, TargetOf;
    if actions != [] {
      var action := actions[0];
      var next := Apply(flow, s, action).value;
      StepKeepsInv(flow, s, action);
      if TargetOf(s, action) == Some(id) {
        OwnStepIsInvisible(flow, s, t, action, id);
        StreamsDoNotInterfere(flow, next, t, actions[1..], id);
      } else {
        if TargetOf(s, action).None? {
          SharedStep(flow, s, t, action, id);
        } else {
          OtherStep(flow, s, t, action, id);
        }
        var next' := Apply(flow, t, action).value;
        StepKeepsInv(flow, t, action);
        StreamsDoNotInterfere(flow, next, next', actions[1..], id);
        var rest := Erased(flow, next, actions[1..], id);
        assert ([action] + rest)[1..] == rest;
      }
    }
  }
}
