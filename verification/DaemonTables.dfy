/** The daemon's tables when the host keeps to its side: what they hold, whom a cancellation reaches, how long it
    lasts. */
module DaemonTables {
  import opened Wrappers
  import opened Bytes
  import opened Frames
  import opened FlowCredits
  import opened DaemonSteps

  /** The host has neither requested under the id nor canceled it; a cancel frame for an id that was never requested
      stays in `canceled`. */
  predicate Unused(s: State, id: U32) { id !in s.requested && id !in s.canceled }

  /** A host requests or pings under an id it has not used, and sends frames that are no requests only to pushes and
      terminals. It cancels whatever it likes: also an id whose request it gave up before sending it. */
  predicate Allowed(s: State, incoming: Incoming) {
    match incoming
    case Window(_, _) => true
    case Cancel(_) => true
    case Plain(frame) =>
      if RequestKind(frame.kind).Some? || frame.kind == Ping then Unused(s, frame.streamId)
      else frame.streamId in s.requested && UsesRoute(s.requested[frame.streamId])
  }

  predicate Orderly(s: State, action: Action) { action.Arrive? ==> Allowed(s, action.incoming) }

  ghost predicate OrderlyRun(flow: bool, s: State, actions: seq<Action>)
    requires Exec(flow, s, actions).Some?
    decreases |actions|
  {
    actions == [] || (Orderly(s, actions[0]) && OrderlyRun(flow, Apply(flow, s, actions[0]).value, actions[1..]))
  }

  type Handlers = map<nat, Handler>

  /** Every handler has its own stream, of its kind. */
  ghost predicate Owned(handlers: Handlers, requested: map<U32, Kind>) {
    && (forall k :: k in handlers ==> handlers[k].id in requested && requested[handlers[k].id] == handlers[k].kind)
    && (forall k, j :: k in handlers && j in handlers && k != j ==> handlers[k].id != handlers[j].id)
  }

  ghost predicate Used(requested: map<U32, Kind>, overflowed: multiset<U32>) {
    forall id :: id in overflowed ==> id in requested
  }

  /** A route belongs to a handler that is at work. */
  ghost predicate RoutesLive(routes: map<U32, nat>, handlers: Handlers) {
    forall id :: id in routes ==>
      && routes[id] in handlers && handlers[routes[id]].id == id
      && handlers[routes[id]].phase == Running && UsesRoute(handlers[routes[id]].kind)
  }

  /** It is gone once the stream is canceled, except in the middle of a cancel frame. */
  ghost predicate RoutesUncanceled(routes: map<U32, nat>, canceled: set<U32>, overflowed: multiset<U32>, loop: Loop) {
    forall id :: id in routes ==> id !in overflowed && (id in canceled ==> loop == CancelRoute(id))
  }

  predicate Listens(handler: Handler) {
    UsesCancel(handler.kind) && (handler.phase == Running || handler.phase == RouteLeft)
  }

  /** Whoever listens for a cancellation can still be told or has been told; nobody else is in the table. */
  ghost predicate CancelsLive(cancels: map<U32, nat>, handlers: Handlers) {
    && (forall id :: id in cancels ==>
          cancels[id] in handlers && handlers[cancels[id]].id == id && Listens(handlers[cancels[id]]))
    && (forall k :: k in handlers && Listens(handlers[k]) && !handlers[k].told ==>
          handlers[k].id in cancels && cancels[handlers[k].id] == k)
  }

  ghost predicate HasHandler(handlers: Handlers, id: U32) { exists k :: k in handlers && handlers[k].id == id }

  /** Flow control state stands for exactly the pulls that are not finished. */
  ghost predicate CreditsLive(flow: bool, credited: set<U32>, handlers: Handlers, requested: map<U32, Kind>) {
    && (forall id :: id in credited ==> flow && HasHandler(handlers, id) && id in requested && requested[id].Pull?)
    && (forall k :: k in handlers && handlers[k].kind.Pull? && flow ==> handlers[k].id in credited)
  }

  ghost predicate LoopLive(s: State) {
    match s.loop
    case CancelTell(id) => id !in s.routes
    case Holding(id, _, _) => id in s.requested && UsesRoute(s.requested[id])
    case Dropping(id, _) => id in s.requested && UsesRoute(s.requested[id])
    case Answering(id, pong) =>
      id in s.requested && !s.requested[id].Pull? && id !in s.routes
      && (pong ==> id !in s.canceled && id !in s.overflowed)
    case Finishing(id) => id in s.requested && !s.requested[id].Pull?
    case Draining => s.routes == map[]
    case Ended => s.routes == map[] && s.cancels == map[]
    case _ => true
  }

  ghost predicate Live(flow: bool, s: State) {
    && Owned(s.handlers, s.requested)
    && Used(s.requested, s.overflowed)
    && RoutesLive(s.routes, s.handlers)
    && RoutesUncanceled(s.routes, s.canceled, s.overflowed, s.loop)
    && CancelsLive(s.cancels, s.handlers)
    && CreditsLive(flow, s.credits.Keys, s.handlers, s.requested)
    && LoopLive(s)
  }

  /** Handlers stay with their streams; new ones may come. */
  ghost predicate Keeps(handlers: Handlers, other: Handlers) {
    forall k :: k in handlers ==> k in other && other[k].id == handlers[k].id
  }

  lemma StillHasHandlers(handlers: Handlers, other: Handlers)
    requires Keeps(handlers, other)
    ensures forall id :: HasHandler(handlers, id) ==> HasHandler(other, id)
  {
    forall id | HasHandler(handlers, id) ensures HasHandler(other, id) {
      var k :| k in handlers && handlers[k].id == id;
      assert other[k].id == id;
    }
  }

  /** Inboxes play no part in it. */
  ghost predicate SameButInboxes(handlers: Handlers, other: Handlers) {
    && handlers.Keys == other.Keys
    && forall k :: k in handlers ==>
         && other[k].id == handlers[k].id && other[k].kind == handlers[k].kind
         && other[k].phase == handlers[k].phase && other[k].told == handlers[k].told
  }

  lemma InboxesDoNotMatter(flow: bool, s: State, other: Handlers)
    requires Live(flow, s) && SameButInboxes(s.handlers, other)
    ensures Live(flow, s.(handlers := other))
  {
    hide Used, RoutesUncanceled, LoopLive, Owned, CreditsLive;
    SameStreams(flow, s.credits.Keys, s.handlers, s.requested, other);
    assert RoutesLive(s.routes, other) by { hide CancelsLive; }
    hide RoutesLive;
    assert CancelsLive(s.cancels, other);
    hide CancelsLive;
    assert LoopLive(s.(handlers := other)) by { SameLoop(s, s.(handlers := other)); }
  }

  lemma SameLoop(s: State, next: State)
    requires LoopLive(s) && next.loop == s.loop && next.requested == s.requested && next.routes == s.routes
    requires next.cancels == s.cancels && next.canceled == s.canceled && next.overflowed == s.overflowed
    ensures LoopLive(next)
  {
  }

  lemma NotingKeepsShape(handlers: Handlers, frame: Frame)
    ensures SameButInboxes(handlers, Noted(handlers, frame))
  {
  }

  /** Only the loop has moved. */
  lemma LoopMoves(flow: bool, s: State, loop: Loop)
    requires Live(flow, s) && LoopLive(s.(loop := loop)) && !s.loop.CancelRoute?
    ensures Live(flow, s.(loop := loop))
  {
    hide LoopLive, Owned, Used, RoutesLive, CancelsLive, CreditsLive;
  }

  lemma CancelingStaysLive(flow: bool, s: State, id: U32, loop: Loop, overflowed: multiset<U32>)
    requires Live(flow, s) && overflowed <= s.overflowed
    requires (s.loop == Serving && loop == CancelRoute(id)) || (loop == s.loop && id in s.overflowed)
    ensures Live(flow, CancelLocal(s, id).(loop := loop, overflowed := overflowed))
  {
    hide Owned, RoutesLive, CancelsLive, CreditsLive;
    var next := CancelLocal(s, id).(loop := loop, overflowed := overflowed);
    assert next.credits.Keys == s.credits.Keys;
  }

  lemma WindowStaysLive(flow: bool, s: State, id: U32, bytes: Option<U32>)
    requires Live(flow, s) && s.loop == Serving
    ensures Live(flow, WindowArrived(flow, s, id, bytes))
  {
    hide Owned, Used, RoutesLive, CancelsLive, CreditsLive, AddCredit;
    var next := WindowArrived(flow, s, id, bytes);
    assert next.credits.Keys == s.credits.Keys;
  }

  lemma PingStaysLive(flow: bool, s: State, id: U32)
    requires Live(flow, s) && s.loop == Serving && Unused(s, id)
    ensures Live(flow, s.(requested := s.requested[id := Command], loop := Answering(id, true)))
  {
    NewIsNowhere(flow, s, id);
    hide RoutesLive, CancelsLive, HasHandler;
  }

  lemma UnroutedStaysLive(flow: bool, s: State, frame: Frame, task: nat)
    requires Live(flow, s) && s.loop == Serving && Allowed(s, Plain(frame))
    requires frame.streamId !in s.routes && RequestKind(frame.kind).None?
    ensures Live(flow, PlainArrived(flow, s, frame, task))
  {
    NotingKeepsShape(s.handlers, frame);
    InboxesDoNotMatter(flow, s, Noted(s.handlers, frame));
    var noted, id := s.(handlers := Noted(s.handlers, frame)), frame.streamId;
    hide Live, Noted, RequestKind;
    if frame.kind == Ping {
      PingStaysLive(flow, noted, id);
    } else {
      LoopMoves(flow, noted, Answering(id, false));
    }
  }

  lemma RoutedStaysLive(flow: bool, s: State, frame: Frame, task: nat)
    requires Live(flow, s) && s.loop == Serving && frame.streamId in s.routes
    ensures Live(flow, PlainArrived(flow, s, frame, task))
  {
    NotingKeepsShape(s.handlers, frame);
    InboxesDoNotMatter(flow, s, Noted(s.handlers, frame));
    var noted, id := s.(handlers := Noted(s.handlers, frame)), frame.streamId;
    assert id in s.requested && UsesRoute(s.requested[id]) by {
      hide CancelsLive, CreditsLive, Used, RoutesUncanceled;
      assert s.handlers[s.routes[id]].id == id;
    }
    hide Live, Noted;
    LoopMoves(flow, noted, Holding(id, s.routes[id], frame));
  }

  /** A stream the host has not requested is in no table; it may be canceled. */
  lemma NewIsNowhere(flow: bool, s: State, id: U32)
    requires Live(flow, s) && id !in s.requested
    ensures id !in s.routes && id !in s.cancels && id !in s.credits && id !in s.overflowed
    ensures forall k :: k in s.handlers ==> s.handlers[k].id != id
  {
    hide HasHandler;
  }

  /** A request of a new stream is registered everywhere it has to be. */
  lemma NewRequestIsRegistered(flow: bool, s: State, id: U32, kind: Kind, task: nat)
    requires Live(flow, s) && id !in s.requested
    ensures Registered(flow, s, id, kind, task)
         == Started(Channeled(s, id, kind, task), id, kind, task).(
              credits := if kind.Pull? && flow then s.credits[id := Credit(0, 0)] else s.credits)
  {
    NewIsNowhere(flow, s, id);
    hide Live, UsesRoute, UsesCancel;
  }

  lemma StartedIsOwned(handlers: Handlers, requested: map<U32, Kind>, task: nat, handler: Handler)
    requires Owned(handlers, requested) && handler.id !in requested && task !in handlers
    ensures Owned(handlers[task := handler], requested[handler.id := handler.kind])
  {
  }

  lemma StartedRoutesLive(routes: map<U32, nat>, handlers: Handlers, task: nat, handler: Handler)
    requires RoutesLive(routes, handlers) && task !in handlers && handler.id !in routes && handler.phase == Running
    ensures var table := if UsesRoute(handler.kind) then routes[handler.id := task] else routes;
            RoutesLive(table, handlers[task := handler])
  {
  }

  lemma StartedCancelsLive(cancels: map<U32, nat>, handlers: Handlers, task: nat, handler: Handler)
    requires CancelsLive(cancels, handlers) && task !in handlers && handler.phase == Running
    requires handler.id !in cancels && forall k :: k in handlers ==> handlers[k].id != handler.id
    ensures var table := if UsesCancel(handler.kind) then cancels[handler.id := task] else cancels;
            CancelsLive(table, handlers[task := handler])
  {
  }

  lemma StartedCreditsLive(flow: bool, credited: set<U32>, handlers: Handlers, requested: map<U32, Kind>, task: nat,
                           handler: Handler)
    requires CreditsLive(flow, credited, handlers, requested) && task !in handlers && handler.id !in requested
    ensures var has := if handler.kind.Pull? && flow then credited + {handler.id} else credited;
            CreditsLive(flow, has, handlers[task := handler], requested[handler.id := handler.kind])
  {
    var next := handlers[task := handler];
    StillHasHandlers(handlers, next);
    assert next[task].id == handler.id;
    assert HasHandler(next, handler.id);
    hide HasHandler;
  }

  lemma StartedUncanceled(s: State, id: U32, kind: Kind, task: nat)
    requires Used(s.requested, s.overflowed) && id !in s.canceled && id !in s.overflowed
    requires RoutesUncanceled(s.routes, s.canceled, s.overflowed, s.loop)
    ensures Used(s.requested[id := kind], s.overflowed)
    ensures RoutesUncanceled(if UsesRoute(kind) then s.routes[id := task] else s.routes, s.canceled, s.overflowed,
                             s.loop)
  {
  }

  lemma NewRequestStaysLive(flow: bool, s: State, id: U32, kind: Kind, task: nat)
    requires Live(flow, s) && s.loop == Serving && Unused(s, id) && task !in s.handlers
    ensures Live(flow, Registered(flow, s, id, kind, task))
  {
    NewIsNowhere(flow, s, id);
    NewRequestIsRegistered(flow, s, id, kind, task);
    hide Registered, Owned, RoutesLive, CancelsLive, CreditsLive, UsesRoute, UsesCancel, Used, RoutesUncanceled;
    var handler := Handler(id, kind, Running, [], [], [], false);
    StartedIsOwned(s.handlers, s.requested, task, handler);
    StartedRoutesLive(s.routes, s.handlers, task, handler);
    StartedCancelsLive(s.cancels, s.handlers, task, handler);
    StartedCreditsLive(flow, s.credits.Keys, s.handlers, s.requested, task, handler);
    StartedUncanceled(s, id, kind, task);
    var next := Registered(flow, s, id, kind, task);
    assert next.handlers == s.handlers[task := handler] && next.requested == s.requested[id := kind];
    assert next.canceled == s.canceled && next.overflowed == s.overflowed && next.loop == Serving;
    assert next.routes == if UsesRoute(kind) then s.routes[id := task] else s.routes;
    assert next.cancels == if UsesCancel(kind) then s.cancels[id := task] else s.cancels;
    assert next.credits.Keys == if kind.Pull? && flow then s.credits.Keys + {id} else s.credits.Keys;
    hide Channeled, Started;
  }

  // ---- The remaining steps keep the tables ----

  lemma PushingStaysLive(flow: bool, s: State)
    requires Live(flow, s) && s.loop.Holding?
    ensures Live(flow, Pushed(s))
  {
    hide Owned, Used, RoutesLive, RoutesUncanceled, CancelsLive, CreditsLive;
    var next := Pushed(s);
    assert SameButInboxes(s.handlers, next.handlers);
    hide SameButInboxes;
    InboxesDoNotMatter(flow, s, next.handlers);
    LoopMoves(flow, s.(handlers := next.handlers), next.loop);
  }

  lemma TakingStaysLive(flow: bool, s: State, task: nat)
    requires Live(flow, s) && FrameTaken(s, task).Some?
    ensures Live(flow, FrameTaken(s, task).value)
  {
    hide Live;
    InboxesDoNotMatter(flow, s, FrameTaken(s, task).value.handlers);
  }

  /** The loop takes a route away. */
  lemma UnroutingStaysLive(flow: bool, s: State, id: U32, loop: Loop, overflows: bool)
    requires || (s.loop == CancelRoute(id) && loop == CancelTell(id) && !overflows)
             || (s.loop.Dropping? && loop == Serving && id in s.requested)
    requires Live(flow, s)
    ensures var overflowed := if overflows then s.overflowed + multiset{id} else s.overflowed;
            Live(flow, s.(routes := s.routes - {id}, loop := loop, overflowed := overflowed))
  {
    hide Owned, CancelsLive, CreditsLive;
  }

  lemma TellingCancels(cancels: map<U32, nat>, handlers: Handlers, id: U32)
    requires CancelsLive(cancels, handlers) && id in cancels
    ensures var task := cancels[id];
            CancelsLive(cancels - {id}, handlers[task := handlers[task].(told := true)])
  {
  }

  /** A handler that changes neither stream nor kind leaves the flow control state as right as it was. */
  lemma SameStreams(flow: bool, credited: set<U32>, handlers: Handlers, requested: map<U32, Kind>, other: Handlers)
    requires Owned(handlers, requested) && CreditsLive(flow, credited, handlers, requested)
    requires handlers.Keys == other.Keys
    requires forall k :: k in handlers ==> other[k].id == handlers[k].id && other[k].kind == handlers[k].kind
    ensures Owned(other, requested) && CreditsLive(flow, credited, other, requested)
  {
    StillHasHandlers(handlers, other);
    hide HasHandler;
  }

  lemma TellingStaysLive(flow: bool, s: State, id: U32)
    requires Live(flow, s) && s.loop == CancelTell(id)
    ensures Live(flow, ToldOne(s, id).(loop := Serving))
  {
    hide RoutesUncanceled, Used, CreditsLive, Owned, HasHandler;
    var next := ToldOne(s, id).(loop := Serving);
    assert RoutesUncanceled(s.routes, s.canceled, s.overflowed, Serving) by {
      SameRoutes(s.routes, s.canceled, s.overflowed, s.loop, Serving);
    }
    if id in s.cancels {
      TellingCancels(s.cancels, s.handlers, id);
      SameStreams(flow, s.credits.Keys, s.handlers, s.requested, next.handlers);
    }
  }

  lemma SameRoutes(routes: map<U32, nat>, canceled: set<U32>, overflowed: multiset<U32>, loop: Loop, next: Loop)
    requires RoutesUncanceled(routes, canceled, overflowed, loop) && !loop.CancelRoute?
    ensures RoutesUncanceled(routes, canceled, overflowed, next)
  {
  }

  lemma AnsweringStaysLive(flow: bool, s: State)
    requires Live(flow, s) && (s.loop.Answering? || s.loop.Finishing?)
    ensures Live(flow, LoopStepped(s).value)
  {
    hide Owned, RoutesLive, CancelsLive, HasHandler;
    var next := LoopStepped(s).value;
    assert next.credits.Keys == s.credits.Keys;
    hide CreditsLive;
  }

  lemma RoutedAreUsed(s: State)
    requires RoutesLive(s.routes, s.handlers) && Owned(s.handlers, s.requested)
    ensures s.routes.Keys <= s.requested.Keys
  {
    forall id | id in s.routes ensures id in s.requested {
      assert s.handlers[s.routes[id]].id == id;
    }
  }

  lemma ClearingStaysLive(flow: bool, s: State)
    requires Live(flow, s) && s.loop == Leaving
    ensures Live(flow, RoutesCleared(s))
  {
    RoutedAreUsed(s);
    hide Owned, CancelsLive, CreditsLive;
    assert RoutesCleared(s).credits.Keys == s.credits.Keys;
  }

  lemma DrainedCancels(s: State)
    requires CancelsLive(s.cancels, s.handlers)
    ensures CancelsLive(map[], CancelsDrained(s).handlers)
  {
  }

  lemma DrainingStaysLive(flow: bool, s: State)
    requires Live(flow, s) && s.loop == Draining
    ensures Live(flow, CancelsDrained(s))
  {
    DrainedCancels(s);
    var next := CancelsDrained(s);
    assert next.credits.Keys == s.credits.Keys;
    assert s.cancels.Keys <= s.requested.Keys by {
      hide CreditsLive, RoutesLive, RoutesUncanceled;
      forall id | id in s.cancels ensures id in s.requested {
        assert s.handlers[s.cancels[id]].id == id;
      }
    }
    SameStreams(flow, s.credits.Keys, s.handlers, s.requested, next.handlers);
    hide Owned, CancelsLive, CreditsLive;
  }

  lemma LoopStaysLive(flow: bool, s: State)
    requires Live(flow, s) && LoopStepped(s).Some?
    ensures Live(flow, LoopStepped(s).value)
  {
    var next := LoopStepped(s).value;
    assert LoopLive(s);
    hide Live, Pushed, ToldOne, RoutesCleared, CancelsDrained;
    match s.loop
    case CancelRoute(id) => UnroutingStaysLive(flow, s, id, CancelTell(id), false);
    case CancelTell(id) => TellingStaysLive(flow, s, id);
    case Holding(_, _, _) => PushingStaysLive(flow, s);
    case Dropping(id, overflow) => UnroutingStaysLive(flow, s, id, Serving, overflow);
    case Answering(_, _) => AnsweringStaysLive(flow, s);
    case Finishing(_) => AnsweringStaysLive(flow, s);
    case Leaving => ClearingStaysLive(flow, s);
    case Draining => DrainingStaysLive(flow, s);
    case _ =>
  }

  lemma LeavingRoutes(routes: map<U32, nat>, handlers: Handlers, task: nat)
    requires RoutesLive(routes, handlers) && task in handlers
    ensures var handler := handlers[task];
            RoutesLive(if UsesRoute(handler.kind) then routes - {handler.id} else routes,
                       handlers[task := handler.(phase := RouteLeft)])
  {
  }

  lemma LeavingCancels(cancels: map<U32, nat>, handlers: Handlers, task: nat)
    requires CancelsLive(cancels, handlers) && task in handlers
    requires forall k :: k in handlers && k != task ==> handlers[k].id != handlers[task].id
    ensures var handler := handlers[task];
            CancelsLive(if UsesCancel(handler.kind) then cancels - {handler.id} else cancels,
                        handlers[task := handler.(phase := CancelLeft)])
  {
  }

  lemma PhaseKeepsCancels(cancels: map<U32, nat>, handlers: Handlers, task: nat, phase: Phase)
    requires CancelsLive(cancels, handlers) && task in handlers
    requires Listens(handlers[task]) == Listens(handlers[task].(phase := phase))
    ensures CancelsLive(cancels, handlers[task := handlers[task].(phase := phase)])
  {
  }

  lemma PhaseKeepsRoutes(routes: map<U32, nat>, handlers: Handlers, task: nat, phase: Phase)
    requires RoutesLive(routes, handlers) && task in handlers && handlers[task].phase != Running
    ensures RoutesLive(routes, handlers[task := handlers[task].(phase := phase)])
  {
  }

  lemma LeftRoutesStaysLive(flow: bool, s: State, task: nat)
    requires Live(flow, s) && task in s.handlers && s.handlers[task].phase == Running
    ensures Live(flow, LeftRoutes(s, task))
  {
    hide Owned, RoutesLive, CancelsLive, CreditsLive, Used;
    LeavingRoutes(s.routes, s.handlers, task);
    PhaseKeepsCancels(s.cancels, s.handlers, task, RouteLeft);
    SameStreams(flow, s.credits.Keys, s.handlers, s.requested, LeftRoutes(s, task).handlers);
  }

  lemma LeftCancelsStaysLive(flow: bool, s: State, task: nat)
    requires Live(flow, s) && task in s.handlers && s.handlers[task].phase == RouteLeft
    ensures Live(flow, LeftCancels(s, task))
  {
    hide RoutesLive, CancelsLive, CreditsLive, RoutesUncanceled, Used;
    assert forall k :: k in s.handlers && k != task ==> s.handlers[k].id != s.handlers[task].id;
    hide Owned;
    LeavingCancels(s.cancels, s.handlers, task);
    PhaseKeepsRoutes(s.routes, s.handlers, task, CancelLeft);
    SameStreams(flow, s.credits.Keys, s.handlers, s.requested, LeftCancels(s, task).handlers);
  }

  lemma ForgottenStaysLive(flow: bool, s: State, task: nat)
    requires Live(flow, s) && task in s.handlers && s.handlers[task].phase == CancelLeft
    ensures Live(flow, Forgotten(s, task))
  {
    hide Owned, RoutesLive, CancelsLive, CreditsLive;
    PhaseKeepsCancels(s.cancels, s.handlers, task, Uncanceled);
    PhaseKeepsRoutes(s.routes, s.handlers, task, Uncanceled);
    SameStreams(flow, s.credits.Keys, s.handlers, s.requested, Forgotten(s, task).handlers);
  }

  lemma GoneCredits(flow: bool, credited: set<U32>, handlers: Handlers, requested: map<U32, Kind>, task: nat)
    requires Owned(handlers, requested) && CreditsLive(flow, credited, handlers, requested) && task in handlers
    ensures Owned(handlers - {task}, requested)
    ensures CreditsLive(flow, credited - {handlers[task].id}, handlers - {task}, requested)
  {
    var next := handlers - {task};
    forall id | id in credited && id != handlers[task].id ensures HasHandler(next, id) {
      assert HasHandler(handlers, id);
      var k :| k in handlers && handlers[k].id == id;
      assert k in next && next[k].id == id;
    }
    hide HasHandler;
  }

  lemma GoneChannels(routes: map<U32, nat>, cancels: map<U32, nat>, handlers: Handlers, task: nat)
    requires RoutesLive(routes, handlers) && CancelsLive(cancels, handlers)
    requires task in handlers && handlers[task].phase == Uncanceled
    ensures RoutesLive(routes, handlers - {task}) && CancelsLive(cancels, handlers - {task})
  {
  }

  lemma GoneStaysLive(flow: bool, s: State, task: nat)
    requires Live(flow, s) && task in s.handlers && s.handlers[task].phase == Uncanceled
    ensures Live(flow, Gone(s, task))
  {
    GoneCredits(flow, s.credits.Keys, s.handlers, s.requested, task);
    GoneChannels(s.routes, s.cancels, s.handlers, task);
    hide Owned, RoutesLive, CancelsLive, CreditsLive, Used, RoutesUncanceled;
    assert Gone(s, task).credits.Keys == s.credits.Keys - {s.handlers[task].id};
  }

  lemma HandlerStaysLive(flow: bool, s: State, task: nat)
    requires Live(flow, s) && Stepped(s, task).Some?
    ensures Live(flow, Stepped(s, task).value)
  {
    hide Live, LeftRoutes, LeftCancels, Forgotten, Gone;
    match s.handlers[task].phase
    case Running => LeftRoutesStaysLive(flow, s, task);
    case RouteLeft => LeftCancelsStaysLive(flow, s, task);
    case CancelLeft => ForgottenStaysLive(flow, s, task);
    case Uncanceled => GoneStaysLive(flow, s, task);
  }

  lemma WriterStaysLive(flow: bool, s: State, action: Action)
    requires Live(flow, s) && Apply(flow, s, action).Some? && (action.LoopFails? || action.TakeCredit?)
    ensures Live(flow, Apply(flow, s, action).value)
  {
    hide Owned, Used, RoutesLive, CancelsLive, CreditsLive;
    assert Apply(flow, s, action).value.credits.Keys == s.credits.Keys;
  }

  lemma ArrivalStaysLive(flow: bool, s: State, incoming: Incoming, task: nat)
    requires Live(flow, s) && s.handlers.Keys <= s.tasks
    requires Allowed(s, incoming) && Arrived(flow, s, incoming, task).Some?
    ensures Live(flow, Arrived(flow, s, incoming, task).value)
  {
    hide Live, WindowArrived, CancelLocal;
    match incoming
    case Window(id, bytes) => WindowStaysLive(flow, s, id, bytes);
    case Cancel(id) => CancelingStaysLive(flow, s, id, CancelRoute(id), s.overflowed);
    case Plain(frame) => PlainStaysLive(flow, s, frame, task);
  }

  lemma PlainStaysLive(flow: bool, s: State, frame: Frame, task: nat)
    requires Live(flow, s) && s.loop == Serving && s.handlers.Keys <= s.tasks && task !in s.tasks
    requires Allowed(s, Plain(frame))
    ensures Live(flow, PlainArrived(flow, s, frame, task))
  {
    if frame.streamId in s.routes {
      RoutedStaysLive(flow, s, frame, task);
    } else if RequestKind(frame.kind).None? {
      UnroutedStaysLive(flow, s, frame, task);
    } else {
      NotingKeepsShape(s.handlers, frame);
      InboxesDoNotMatter(flow, s, Noted(s.handlers, frame));
      hide Live, RequestKind, Registered, Noted;
      var noted := s.(handlers := Noted(s.handlers, frame));
      NewRequestStaysLive(flow, noted, frame.streamId, RequestKind(frame.kind).value, task);
    }
  }

  lemma StepStaysLive(flow: bool, s: State, action: Action)
    requires Live(flow, s) && s.handlers.Keys <= s.tasks && Orderly(s, action) && Apply(flow, s, action).Some?
    ensures Live(flow, Apply(flow, s, action).value)
  {
    hide Live, Arrived, LoopStepped, FrameTaken, Stepped, CancelLocal, Allowed;
    match action
    case Arrive(incoming, task) => ArrivalStaysLive(flow, s, incoming, task);
    case LoopStep => LoopStaysLive(flow, s);
    case TakeFrame(task) => TakingStaysLive(flow, s, task);
    case HandlerStep(task) => HandlerStaysLive(flow, s, task);
    case OverflowCancels(id) =>
      CancelingStaysLive(flow, s, id, s.loop, s.overflowed - multiset{id});
    case _ => WriterStaysLive(flow, s, action);
  }

  lemma {:induction false} RunStaysLive(flow: bool, s: State, actions: seq<Action>)
    requires Inv(s) && Live(flow, s) && Exec(flow, s, actions).Some? && OrderlyRun(flow, s, actions)
    ensures Live(flow, Exec(flow, s, actions).value)
    decreases |actions|
  {
    if actions != [] {
      assert s.handlers.Keys <= s.tasks;
      hide Apply, Inv, Live, Orderly;
      StepStaysLive(flow, s, actions[0]);
      StepKeepsInv(flow, s, actions[0]);
      RunStaysLive(flow, Apply(flow, s, actions[0]).value, actions[1..]);
    }
  }

  // ---- What the tables guarantee ----

  ghost predicate Reachable(flow: bool, s: State, actions: seq<Action>) {
    Exec(flow, INIT, actions) == Some(s) && OrderlyRun(flow, INIT, actions)
  }

  lemma ReachableIsLive(flow: bool, s: State, actions: seq<Action>)
    requires Reachable(flow, s, actions)
    ensures Inv(s) && Live(flow, s)
  {
    hide Apply;
    assert Inv(INIT) && Live(flow, INIT);
    hide Inv, Live;
    RunKeepsInv(flow, INIT, actions);
    RunStaysLive(flow, INIT, actions);
  }

  /** Over every run the tables hold live handlers only, and flow control state stands for exactly the unfinished
      pulls: when the last handler has finished nothing is left in them. */
  lemma TablesHoldLiveHandlers(flow: bool, s: State, actions: seq<Action>)
    requires Reachable(flow, s, actions)
    ensures forall id :: id in s.routes ==> s.routes[id] in s.handlers && s.handlers[s.routes[id]].id == id
    ensures forall id :: id in s.cancels ==> s.cancels[id] in s.handlers && s.handlers[s.cancels[id]].id == id
    ensures forall id :: id in s.credits ==>
              flow && exists k :: k in s.handlers && s.handlers[k].id == id && s.handlers[k].kind.Pull?
    ensures forall k :: k in s.handlers && s.handlers[k].kind.Pull? && flow ==> s.handlers[k].id in s.credits
    ensures s.handlers == map[] ==> s.routes == map[] && s.cancels == map[] && s.credits == map[]
  {
    ReachableIsLive(flow, s, actions);
    hide Reachable, RoutesUncanceled, Used, LoopLive, Inv;
    forall id | id in s.credits
      ensures flow && exists k :: k in s.handlers && s.handlers[k].id == id && s.handlers[k].kind.Pull?
    {
      assert HasHandler(s.handlers, id);
    }
  }

  /** A request of a new stream never ends the connection: it starts its handler and registers it where it has to be. */
  lemma RequestsNeverCollide(flow: bool, s: State, actions: seq<Action>, frame: Frame, task: nat)
    requires Reachable(flow, s, actions) && s.loop == Serving && task !in s.tasks
    requires frame.streamId !in s.requested && RequestKind(frame.kind).Some?
    ensures var id, kind := frame.streamId, RequestKind(frame.kind).value;
            var next := Apply(flow, s, Arrive(Plain(frame), task));
            && next.Some? && next.value.loop == Serving
            && task in next.value.handlers
            && next.value.handlers[task] == Handler(id, kind, Running, [], [], [], false)
            && (UsesRoute(kind) ==> id in next.value.routes && next.value.routes[id] == task)
            && (UsesCancel(kind) ==> id in next.value.cancels && next.value.cancels[id] == task)
            && (kind.Pull? && flow ==> id in next.value.credits && next.value.credits[id].available == 0)
  {
    ReachableIsLive(flow, s, actions);
    NewIsNowhere(flow, s, frame.streamId);
    NotingKeepsShape(s.handlers, frame);
    InboxesDoNotMatter(flow, s, Noted(s.handlers, frame));
    hide Live, Inv, Reachable, Noted, RequestKind, UsesRoute, UsesCancel;
    var noted := s.(handlers := Noted(s.handlers, frame));
    NewRequestIsRegistered(flow, noted, frame.streamId, RequestKind(frame.kind).value, task);
  }

  /** The handler has lost its route and, if it listens for a cancellation, has been told. */
  ghost predicate Reached(s: State, k: nat)
    requires k in s.handlers
  {
    s.handlers[k].id !in s.routes && (Listens(s.handlers[k]) ==> s.handlers[k].told)
  }

  /** When the loop is done with a cancel frame, the handler of the stream has been reached, whatever it and everybody
      else did in the meantime. */
  lemma CancelReachesTheHandler(flow: bool, s: State, actions: seq<Action>, k: nat)
    requires Reachable(flow, s, actions) && k in s.handlers && s.loop == CancelTell(s.handlers[k].id)
    ensures var next := LoopStepped(s).value; next.loop == Serving && k in next.handlers && Reached(next, k)
  {
    ReachableIsLive(flow, s, actions);
    hide Reachable, Inv, Owned, CreditsLive, Used, RoutesLive, RoutesUncanceled;
  }

  /** When the loop has ended, every handler that still runs has been reached. */
  lemma TeardownReachesEveryHandler(flow: bool, s: State, actions: seq<Action>, k: nat)
    requires Reachable(flow, s, actions) && s.loop.Ended? && k in s.handlers
    ensures Reached(s, k)
  {
    ReachableIsLive(flow, s, actions);
    hide Reachable, Inv, Owned, CreditsLive, Used, RoutesLive, RoutesUncanceled;
  }

  /** The last step of the teardown wakes every pull that may be asleep for credit, with its stream canceled. */
  lemma TeardownWakesSenders(flow: bool, s: State, actions: seq<Action>, k: nat)
    requires Reachable(flow, s, actions) && s.loop.Draining? && k in s.handlers && flow && s.handlers[k].kind.Pull?
    requires Listens(s.handlers[k]) && !s.handlers[k].told
    ensures var id, next := s.handlers[k].id, LoopStepped(s).value;
            && id in next.canceled && id in s.credits && id in next.credits
            && next.credits[id] == Notified(s.credits[id])
  {
    ReachableIsLive(flow, s, actions);
    hide Reachable, Inv, Owned, Used, RoutesLive, RoutesUncanceled, HasHandler;
  }

  // ---- How long a cancellation lasts ----

  /** The handler of the stream forgets that it was canceled. */
  predicate FinishesFor(s: State, action: Action, id: U32) {
    action.HandlerStep? && action.task in s.handlers
    && s.handlers[action.task].id == id && s.handlers[action.task].phase == CancelLeft
  }

  predicate ReadsFor(action: Action, id: U32) {
    action.Arrive? && action.incoming.Plain? && action.incoming.frame.streamId == id
  }

  ghost predicate CanceledThroughout(flow: bool, s: State, actions: seq<Action>, id: U32)
    requires Exec(flow, s, actions).Some?
    decreases |actions|
  {
    id in s.canceled && (actions != [] ==> CanceledThroughout(flow, Apply(flow, s, actions[0]).value, actions[1..], id))
  }

  ghost predicate NothingForgets(flow: bool, s: State, actions: seq<Action>, id: U32)
    requires Exec(flow, s, actions).Some?
    decreases |actions|
  {
    actions == []
    || (&& !FinishesFor(s, actions[0], id) && !ReadsFor(actions[0], id)
        && NothingForgets(flow, Apply(flow, s, actions[0]).value, actions[1..], id))
  }

  /** A frame for a canceled stream finds no route; it is answered, and that finishes the stream. */
  lemma CanceledIsAnswered(flow: bool, s: State, frame: Frame, task: nat)
    requires Live(flow, s) && frame.streamId in s.canceled && Allowed(s, Plain(frame))
    requires Arrived(flow, s, Plain(frame), task).Some?
    ensures var next := Arrived(flow, s, Plain(frame), task).value;
            next.loop == Answering(frame.streamId, false) && next.canceled == s.canceled
  {
    hide Owned, RoutesLive, CancelsLive, CreditsLive, LoopLive, Noted, RequestKind;
  }

  lemma LoopForgets(flow: bool, s: State, id: U32)
    requires Live(flow, s) && id in s.canceled && LoopStepped(s).Some?
    ensures var next := LoopStepped(s).value;
            && (id in next.canceled <==> s.loop != Answering(id, false))
            && next.loop != Answering(id, false)
  {
    hide Owned, RoutesLive, CancelsLive, CreditsLive, RoutesUncanceled, Used, CancelsDrained;
    if s.loop == Draining {
      assert CancelsDrained(s).canceled == s.canceled + s.cancels.Keys && CancelsDrained(s).loop == Ended by {
        DrainedCanceled(s);
      }
    }
  }

  lemma DrainedCanceled(s: State)
    ensures CancelsDrained(s).canceled == s.canceled + s.cancels.Keys && CancelsDrained(s).loop == Ended
  {
  }

  lemma RegisteringLeavesAlone(flow: bool, s: State, id: U32, kind: Kind, task: nat)
    requires s.loop == Serving
    ensures var next := Registered(flow, s, id, kind, task);
            && next.canceled == s.canceled && (next.loop == Serving || next.loop == Leaving)
            && next.requested.Keys <= s.requested.Keys + {id}
  {
    hide UsesRoute, UsesCancel;
  }

  /** What reading a frame for another stream leaves alone. */
  lemma OtherFramesLeaveAlone(flow: bool, s: State, frame: Frame, task: nat, id: U32)
    requires frame.streamId != id && s.loop == Serving
    ensures var next := PlainArrived(flow, s, frame, task);
            && next.canceled == s.canceled && next.loop != Answering(id, false)
            && (id in next.requested <==> id in s.requested)
  {
    hide RequestKind, Noted, UsesRoute, UsesCancel;
    if frame.streamId in s.routes {
    } else if RequestKind(frame.kind).None? {
    } else {
      var noted := s.(handlers := Noted(s.handlers, frame));
      RegisteringLeavesAlone(flow, noted, frame.streamId, RequestKind(frame.kind).value, task);
      hide Registered;
    }
  }

  lemma OtherArrivalsForgetNothing(flow: bool, s: State, incoming: Incoming, task: nat, id: U32)
    requires id in s.canceled && Arrived(flow, s, incoming, task).Some? && !ReadsFor(Arrive(incoming, task), id)
    ensures var next := Arrived(flow, s, incoming, task).value;
            id in next.canceled && next.loop != Answering(id, false)
  {
    hide AddCredit, PlainArrived;
    match incoming
    case Plain(frame) => OtherFramesLeaveAlone(flow, s, frame, task, id);
    case _ =>
  }

  lemma OthersForget(flow: bool, s: State, action: Action, id: U32)
    requires id in s.canceled && Apply(flow, s, action).Some? && !action.Arrive? && !action.LoopStep?
    ensures var next := Apply(flow, s, action).value;
            && (id in next.canceled <==> !FinishesFor(s, action, id))
            && (next.loop == s.loop || (s.loop != Answering(id, false) && next.loop == Leaving))
  {
    hide UsesRoute, UsesCancel, LoopStepped, Arrived;
  }

  lemma StepForgets(flow: bool, s: State, action: Action, id: U32)
    requires Live(flow, s) && id in s.canceled && Orderly(s, action) && Apply(flow, s, action).Some?
    ensures var next := Apply(flow, s, action).value;
            && (id in next.canceled <==>
                  !FinishesFor(s, action, id) && !(s.loop == Answering(id, false) && action.LoopStep?))
            && (id in next.canceled ==>
                  (next.loop == Answering(id, false) <==> s.loop == Answering(id, false) || ReadsFor(action, id)))
  {
    hide Live, Allowed, LoopStepped, Stepped, FrameTaken, CancelLocal;
    match action
    case Arrive(incoming, task) =>
      assert s.loop == Serving;
      hide Arrived;
      if ReadsFor(action, id) {
        CanceledIsAnswered(flow, s, incoming.frame, task);
      } else {
        OtherArrivalsForgetNothing(flow, s, incoming, task, id);
      }
    case LoopStep => LoopForgets(flow, s, id);
    case _ => OthersForget(flow, s, action, id);
  }

  /** Once an answer is on its way the cancellation is lost. */
  lemma {:induction false} AnsweringForgets(flow: bool, s: State, actions: seq<Action>, id: U32)
    requires Inv(s) && Live(flow, s) && id in s.canceled && s.loop == Answering(id, false)
    requires Exec(flow, s, actions).Some? && OrderlyRun(flow, s, actions)
    requires Exec(flow, s, actions).value.loop != Answering(id, false)
    ensures !CanceledThroughout(flow, s, actions, id)
    decreases |actions|
  {
    assert s.handlers.Keys <= s.tasks;
    hide Apply, Inv, Live, Orderly, FinishesFor;
    var next := Apply(flow, s, actions[0]).value;
    StepForgets(flow, s, actions[0], id);
    StepStaysLive(flow, s, actions[0]);
    StepKeepsInv(flow, s, actions[0]);
    if id in next.canceled {
      AnsweringForgets(flow, next, actions[1..], id);
    }
  }

  /** A canceled stream stays canceled for exactly as long as its handler does not finish and the loop reads no frame
      for it. In particular a cancellation that comes after the end of the handler stays for good. */
  lemma {:induction false} CancellationLasts(flow: bool, s: State, actions: seq<Action>, id: U32)
    requires Inv(s) && Live(flow, s) && id in s.canceled && s.loop != Answering(id, false)
    requires Exec(flow, s, actions).Some? && OrderlyRun(flow, s, actions)
    requires Exec(flow, s, actions).value.loop != Answering(id, false)
    ensures CanceledThroughout(flow, s, actions, id) <==> NothingForgets(flow, s, actions, id)
    decreases |actions|
  {
    if actions != [] {
      assert s.handlers.Keys <= s.tasks;
      hide Apply, Inv, Live, Orderly, FinishesFor, ReadsFor;
      var next := Apply(flow, s, actions[0]).value;
      StepForgets(flow, s, actions[0], id);
      StepStaysLive(flow, s, actions[0]);
      StepKeepsInv(flow, s, actions[0]);
      if id in next.canceled {
        if ReadsFor(actions[0], id) {
          AnsweringForgets(flow, next, actions[1..], id);
        } else {
          CancellationLasts(flow, next, actions[1..], id);
        }
      }
    }
  }

  lemma LoopRequestsNothing(s: State)
    requires LoopStepped(s).Some?
    ensures LoopStepped(s).value.requested == s.requested
  {
    match s.loop
    case CancelTell(id) =>
    case Holding(_, _, _) =>
    case _ =>
  }

  lemma HandlersRequestNothing(s: State, task: nat)
    requires Stepped(s, task).Some?
    ensures Stepped(s, task).value.requested == s.requested
  {
    hide UsesRoute, UsesCancel;
    match s.handlers[task].phase
    case _ =>
  }

  lemma OthersRequestNothing(flow: bool, s: State, action: Action)
    requires Apply(flow, s, action).Some? && !action.Arrive?
    ensures Apply(flow, s, action).value.requested == s.requested
  {
    hide Arrived, LoopStepped, Stepped;
    match action
    case LoopStep => LoopRequestsNothing(s);
    case HandlerStep(task) => HandlersRequestNothing(s, task);
    case _ =>
  }

  lemma RequestsComeByFrames(flow: bool, s: State, action: Action, id: U32)
    requires Apply(flow, s, action).Some? && id !in s.requested && !ReadsFor(action, id)
    ensures id !in Apply(flow, s, action).value.requested
  {
    if action.Arrive? {
      hide AddCredit, PlainArrived;
      match action.incoming {
        case Plain(frame) => OtherFramesLeaveAlone(flow, s, frame, action.task, id);
        case _ =>
      }
    } else {
      OthersRequestNothing(flow, s, action);
      hide Apply;
    }
  }

  /** A cancel frame for a stream that was never requested is remembered for good: the stream is never used again. */
  lemma {:induction false} StrayCancelsStay(flow: bool, s: State, actions: seq<Action>, id: U32)
    requires Inv(s) && Live(flow, s) && id in s.canceled && id !in s.requested
    requires Exec(flow, s, actions).Some? && OrderlyRun(flow, s, actions)
    ensures var next := Exec(flow, s, actions).value; id in next.canceled && id !in next.requested
    decreases |actions|
  {
    if actions != [] {
      var action := actions[0];
      assert !ReadsFor(action, id);
      assert s.handlers.Keys <= s.tasks;
      NewIsNowhere(flow, s, id);
      assert !FinishesFor(s, action, id) && s.loop != Answering(id, false) by {
        hide Owned, RoutesLive, RoutesUncanceled, CancelsLive, CreditsLive, Inv;
      }
      hide Apply, Inv, Live, Orderly, FinishesFor, ReadsFor;
      StepForgets(flow, s, action, id);
      StepStaysLive(flow, s, action);
      StepKeepsInv(flow, s, action);
      RequestsComeByFrames(flow, s, action, id);
      StrayCancelsStay(flow, Apply(flow, s, action).value, actions[1..], id);
    }
  }

  lemma {:induction false} RunsConcat(flow: bool, s: State, before: seq<Action>, after: seq<Action>)
    requires Exec(flow, s, before).Some?
    ensures Exec(flow, s, before + after) == Exec(flow, Exec(flow, s, before).value, after)
    ensures (Exec(flow, s, before + after).Some? && OrderlyRun(flow, s, before)
             && OrderlyRun(flow, Exec(flow, s, before).value, after)) ==> OrderlyRun(flow, s, before + after)
    decreases |before|
  {
    hide Apply, Orderly;
    if before == [] {
      assert before + after == after;
    } else {
      assert (before + after)[1..] == before[1..] + after;
      RunsConcat(flow, Apply(flow, s, before[0]).value, before[1..], after);
    }
  }

  /** Frames that are no requests, for one stream. */
  ghost predicate DataFor(frames: seq<Frame>, id: U32) {
    forall i :: 0 <= i < |frames| ==>
      frames[i].streamId == id && RequestKind(frames[i].kind).None? && frames[i].kind != Ping
  }

  lemma RunOfTwo(flow: bool, s: State, first: Action, second: Action)
    requires Apply(flow, s, first).Some? && Apply(flow, Apply(flow, s, first).value, second).Some?
    ensures Exec(flow, s, [first, second]) == Apply(flow, Apply(flow, s, first).value, second)
    ensures Orderly(s, first) && Orderly(Apply(flow, s, first).value, second) ==> OrderlyRun(flow, s, [first, second])
  {
    hide Apply, Orderly;
    var next := Apply(flow, s, first).value;
    var end := Apply(flow, next, second).value;
    assert [first, second][1..] == [second] && [second][1..] == [];
    assert Exec(flow, end, []) == Some(end) && OrderlyRun(flow, end, []);
    assert Exec(flow, next, [second]) == Some(end);
    assert Orderly(next, second) ==> OrderlyRun(flow, next, [second]);
  }

  /** A routed frame with room in the inbox. */
  ghost predicate AtWork(s: State, id: U32, k: nat) {
    && s.loop == Serving && id in s.requested && UsesRoute(s.requested[id])
    && id in s.routes && s.routes[id] == k && k in s.handlers && s.handlers[k].id == id
    && s.handlers[k].phase == Running
  }

  /** The handler is still at work, with these frames more in its inbox, and no other table has changed. */
  ghost predicate Filled(s: State, next: State, id: U32, k: nat, frames: seq<Frame>) {
    && AtWork(s, id, k) && AtWork(next, id, k)
    && next.tasks == s.tasks && next.requested == s.requested && next.canceled == s.canceled
    && next.overflowed == s.overflowed
    && next.handlers[k].queue == s.handlers[k].queue + frames
  }

  lemma FilledFurther(s: State, middle: State, next: State, id: U32, k: nat, first: Frame, rest: seq<Frame>)
    requires Filled(s, middle, id, k, [first]) && Filled(middle, next, id, k, rest)
    ensures Filled(s, next, id, k, [first] + rest)
  {
    assert s.handlers[k].queue + [first] + rest == s.handlers[k].queue + ([first] + rest);
  }

  lemma OneFrameFits(flow: bool, s: State, id: U32, k: nat, frame: Frame, spare: nat)
    requires AtWork(s, id, k) && DataFor([frame], id) && spare !in s.tasks
    requires |s.handlers[k].queue| < STREAM_ROUTE_CAPACITY
    ensures var run := [Arrive(Plain(frame), spare), LoopStep];
            && Exec(flow, s, run).Some? && OrderlyRun(flow, s, run)
            && Filled(s, Exec(flow, s, run).value, id, k, [frame])
  {
    assert [frame][0] == frame;
    hide Exec, RequestKind;
    var held := Apply(flow, s, Arrive(Plain(frame), spare)).value;
    assert held.loop == Holding(id, k, frame);
    RunOfTwo(flow, s, Arrive(Plain(frame), spare), LoopStep);
  }

  function Feed(frames: seq<Frame>, spare: nat): seq<Action> {
    if frames == [] then [] else [Arrive(Plain(frames[0]), spare), LoopStep] + Feed(frames[1..], spare)
  }

  /** An inbox nobody empties takes frames up to its capacity. */
  lemma {:induction false} InboxFills(flow: bool, s: State, id: U32, k: nat, frames: seq<Frame>, spare: nat)
    requires AtWork(s, id, k) && DataFor(frames, id) && spare !in s.tasks
    requires |s.handlers[k].queue| + |frames| <= STREAM_ROUTE_CAPACITY
    ensures Exec(flow, s, Feed(frames, spare)).Some? && OrderlyRun(flow, s, Feed(frames, spare))
    ensures Filled(s, Exec(flow, s, Feed(frames, spare)).value, id, k, frames)
    decreases |frames|
  {
    if frames == [] {
      assert s.handlers[k].queue + [] == s.handlers[k].queue;
    } else {
      var first, rest := [Arrive(Plain(frames[0]), spare), LoopStep], Feed(frames[1..], spare);
      assert DataFor([frames[0]], id) && DataFor(frames[1..], id);
      hide Apply, Orderly, OrderlyRun, Exec, DataFor;
      OneFrameFits(flow, s, id, k, frames[0], spare);
      var next := Exec(flow, s, first).value;
      assert AtWork(next, id, k) && |next.handlers[k].queue| == |s.handlers[k].queue| + 1;
      assert next.tasks == s.tasks;
      hide Filled, AtWork;
      InboxFills(flow, next, id, k, frames[1..], spare);
      RunsConcat(flow, s, first, rest);
      FilledFurther(s, next, Exec(flow, next, rest).value, id, k, frames[0], frames[1..]);
      assert [frames[0]] + frames[1..] == frames;
    }
  }

  /** One frame more than the inbox holds: the route goes, and a cancellation is spawned and runs. */
  lemma FullInboxOverflows(flow: bool, s: State, id: U32, k: nat, frame: Frame, spare: nat)
    requires AtWork(s, id, k) && DataFor([frame], id) && spare !in s.tasks
    requires |s.handlers[k].queue| == STREAM_ROUTE_CAPACITY
    ensures var run := [Arrive(Plain(frame), spare), LoopStep] + [LoopStep, OverflowCancels(id)];
            && Exec(flow, s, run).Some? && OrderlyRun(flow, s, run)
            && var next := Exec(flow, s, run).value;
               && next.loop == Serving && id !in next.routes && id in next.canceled
               && next.tasks == s.tasks && next.requested == s.requested
               && k in next.handlers && next.handlers[k].id == id && next.handlers[k].phase == Running
               && next.handlers[k].queue == s.handlers[k].queue
  {
    assert [frame][0] == frame;
    hide Exec, RequestKind;
    var held := Apply(flow, s, Arrive(Plain(frame), spare)).value;
    assert held.loop == Holding(id, k, frame);
    RunOfTwo(flow, s, Arrive(Plain(frame), spare), LoopStep);
    var dropping := Apply(flow, held, LoopStep).value;
    assert dropping.loop == Dropping(id, true);
    RunOfTwo(flow, dropping, LoopStep, OverflowCancels(id));
    RunsConcat(flow, s, [Arrive(Plain(frame), spare), LoopStep], [LoopStep, OverflowCancels(id)]);
  }

  lemma CanceledStreamIsForgotten(flow: bool, s: State, id: U32, frame: Frame, spare: nat)
    requires s.loop == Serving && id !in s.routes && id in s.requested && UsesRoute(s.requested[id])
    requires DataFor([frame], id) && spare !in s.tasks
    ensures var run := [Arrive(Plain(frame), spare), LoopStep];
            && Exec(flow, s, run).Some? && OrderlyRun(flow, s, run)
            && var next := Exec(flow, s, run).value;
               && id !in next.canceled && next.handlers.Keys == s.handlers.Keys
               && forall k :: k in s.handlers ==>
                    next.handlers[k].phase == s.handlers[k].phase && next.handlers[k].queue == s.handlers[k].queue
  {
    assert [frame][0] == frame;
    hide Exec, RequestKind;
    var answering := Apply(flow, s, Arrive(Plain(frame), spare)).value;
    assert answering.loop == Answering(id, false);
    RunOfTwo(flow, s, Arrive(Plain(frame), spare), LoopStep);
  }

  /** Cancellation does not last until the handler ends. From every state in which the daemon serves, a push whose
      handler is slow can be sent sixteen frames that fill its inbox and one that overflows it; it is canceled. The
      frame after that makes the daemon forget the cancellation, while the handler still has the sixteen to receive. */
  lemma OverflowedPushForgetsItsCancellation(flow: bool, s: State, request: Frame, k: nat, frames: seq<Frame>,
                                             spare: nat)
    returns (overflow: seq<Action>, canceled: State, again: seq<Action>, forgotten: State)
    requires Inv(s) && Live(flow, s) && s.loop == Serving && request.kind == PushRequest
    requires Unused(s, request.streamId) && k !in s.tasks && spare !in s.tasks && spare != k
    requires |frames| == STREAM_ROUTE_CAPACITY + 2 && DataFor(frames, request.streamId)
    ensures Exec(flow, s, overflow) == Some(canceled) && OrderlyRun(flow, s, overflow)
    ensures Exec(flow, canceled, again) == Some(forgotten) && OrderlyRun(flow, canceled, again)
    ensures request.streamId in canceled.canceled && request.streamId !in forgotten.canceled
    ensures k in forgotten.handlers && forgotten.handlers[k].phase == Running
    ensures forgotten.handlers[k].queue == frames[..STREAM_ROUTE_CAPACITY]
  {
    var id := request.streamId;
    var start := [Arrive(Plain(request), k)];
    var started := PushStarts(flow, s, request, k);
    hide Inv, Live, Apply, Orderly, RequestKind;
    var n := STREAM_ROUTE_CAPACITY;
    assert DataFor(frames[..n], id) && DataFor([frames[n]], id) && DataFor([frames[n + 1]], id);
    InboxFills(flow, started, id, k, frames[..n], spare);
    var full := Exec(flow, started, Feed(frames[..n], spare)).value;
    assert full.handlers[k].queue == frames[..n];
    FullInboxOverflows(flow, full, id, k, frames[n], spare);
    var last := [Arrive(Plain(frames[n]), spare), LoopStep] + [LoopStep, OverflowCancels(id)];
    RunsConcat(flow, started, Feed(frames[..n], spare), last);
    RunsConcat(flow, s, start, Feed(frames[..n], spare) + last);
    overflow, canceled := start + (Feed(frames[..n], spare) + last), Exec(flow, full, last).value;
    again := [Arrive(Plain(frames[n + 1]), spare), LoopStep];
    CanceledStreamIsForgotten(flow, canceled, id, frames[n + 1], spare);
    forgotten := Exec(flow, canceled, again).value;
  }

  lemma PushStarts(flow: bool, s: State, request: Frame, k: nat) returns (next: State)
    requires Inv(s) && Live(flow, s) && s.loop == Serving && request.kind == PushRequest
    requires Unused(s, request.streamId) && k !in s.tasks
    ensures Exec(flow, s, [Arrive(Plain(request), k)]) == Some(next)
    ensures OrderlyRun(flow, s, [Arrive(Plain(request), k)])
    ensures AtWork(next, request.streamId, k) && next.tasks == s.tasks + {k} && next.handlers[k].queue == []
  {
    hide Live, Inv;
    var id, action := request.streamId, Arrive(Plain(request), k);
    NewIsNowhere(flow, s, id);
    NotingKeepsShape(s.handlers, request);
    InboxesDoNotMatter(flow, s, Noted(s.handlers, request));
    var noted := s.(handlers := Noted(s.handlers, request));
    NewRequestIsRegistered(flow, noted, id, Push, k);
    hide Noted;
    assert RequestKind(request.kind) == Some(Push);
    hide RequestKind;
    next := Registered(flow, noted, id, Push, k);
    assert AtWork(next, id, k) && next.tasks == s.tasks + {k} && next.handlers[k].queue == [];
    hide Registered, Channeled, Started, AtWork;
    assert Apply(flow, s, action) == Some(next);
    assert [action][1..] == [] && Exec(flow, next, []) == Some(next);
  }
}
