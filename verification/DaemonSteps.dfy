/** The daemon's side of a connection: the serve loop, the handlers it starts, and what they share. */
module DaemonSteps {
  import opened Wrappers
  import opened Bytes
  import opened Frames
  import opened FlowCredits

  const STREAM_ROUTE_CAPACITY := 16

  /** Requests by what they register: `Command` stands for commands, clipboard and proxy requests. */
  datatype Kind = Command | Push | Pull | Pty

  function RequestKind(kind: FrameKind): Option<Kind> {
    match kind
    case ExecRequest => Some(Command)
    case ClipboardGet => Some(Command)
    case ClipboardSet => Some(Command)
    case ClipboardClear => Some(Command)
    case ProxyStartRequest => Some(Command)
    case PushRequest => Some(Push)
    case PullRequest => Some(Pull)
    case PtyOpen => Some(Pty)
    case _ => None
  }

  predicate UsesRoute(kind: Kind) { kind.Push? || kind.Pty? }

  predicate UsesCancel(kind: Kind) { !kind.Pty? }

  /** A handler works, leaves the route table, leaves the cancel table, and finishes the stream: first the
      cancellation is forgotten, then the flow control state. */
  datatype Phase = Running | RouteLeft | CancelLeft | Uncanceled

  /** A handler and its ends of the channels. `queue` is its inbox, `taken` what it has received from it, `arrived`
      every frame the loop has read for its stream since it was started; `told` that its cancel channel says so. */
  datatype Handler = Handler(id: U32, kind: Kind, phase: Phase, queue: seq<Frame>, taken: seq<Frame>,
                             arrived: seq<Frame>, told: bool)

  /** Credit of a stream, and how often its waiters were notified. */
  datatype Credit = Credit(available: nat, generation: nat)

  /** Where the loop is: between frames; in a cancel frame, before the route table and before the cancel table; with a
      route looked up and the frame in hand; after a failed send; with an answer to write to a frame that has no route
      (a pong or an error), and in the middle of finishing its stream; and its way out. */
  datatype Loop =
    | Serving
    | CancelRoute(id: U32) | CancelTell(id: U32)
    | Holding(id: U32, task: nat, frame: Frame) | Dropping(id: U32, overflow: bool)
    | Answering(id: U32, pong: bool) | Finishing(id: U32)
    | Leaving | Draining | Ended

  /** A frame as the loop sorts it; a window update that does not decode has no byte count. */
  datatype Incoming = Window(id: U32, bytes: Option<U32>) | Cancel(id: U32) | Plain(frame: Frame)

  function IdOf(incoming: Incoming): U32 {
    if incoming.Plain? then incoming.frame.streamId else incoming.id
  }

  /** `routes` and `cancels` name the handler at the other end of a channel; `tasks` are the handlers started so far.
      `canceled` and `credits` belong to the writer; `overflowed` are spawned cancellations that have not run yet;
      `requested` are the streams the host has opened so far. */
  datatype State = State(routes: map<U32, nat>, cancels: map<U32, nat>, credits: map<U32, Credit>,
                         canceled: set<U32>, handlers: map<nat, Handler>, tasks: set<nat>,
                         overflowed: multiset<U32>, requested: map<U32, Kind>, loop: Loop)

  /** `task` numbers the handler in case the frame starts one. */
  datatype Action =
    | Arrive(incoming: Incoming, task: nat) | LoopStep | LoopFails
    | HandlerStep(task: nat) | TakeFrame(task: nat) | TakeCredit(id: U32, bytes: nat)
    | OverflowCancels(id: U32)

  const INIT := State(map[], map[], map[], {}, map[], {}, multiset{}, map[], Serving)

  // ---- Steps of the loop ----

  function Notified(credit: Credit): Credit { credit.(generation := credit.generation + 1) }

  /** `cancel_local`. Nothing but the notification happens in its second half, so it is one step. */
  function CancelLocal(s: State, id: U32): (next: State)
    ensures next.loop == s.loop && next.overflowed == s.overflowed
  {
    s.(canceled := s.canceled + {id},
       credits := if id in s.credits then s.credits[id := Notified(s.credits[id])] else s.credits)
  }

  function WindowArrived(flow: bool, s: State, id: U32, bytes: Option<U32>): State {
    if bytes.None? || !flow then s.(loop := Leaving)
    else if id !in s.credits then s
    else match AddCredit(s.credits[id].available, bytes.value)
      case None => s.(loop := Leaving)
      case Some(available) => s.(credits := s.credits[id := Notified(s.credits[id].(available := available))])
  }

  /** The new ends of the channels a request needs. */
  function Channeled(s: State, id: U32, kind: Kind, task: nat): State {
    s.(requested := s.requested[id := kind], tasks := s.tasks + {task},
       routes := if UsesRoute(kind) then s.routes[id := task] else s.routes,
       cancels := if UsesCancel(kind) then s.cancels[id := task] else s.cancels)
  }

  function Started(s: State, id: U32, kind: Kind, task: nat): State {
    s.(handlers := s.handlers[task := Handler(id, kind, Running, [], [], [], false)])
  }

  /** Registration in the tables a request needs, in order. An id that is in the cancel table or has flow control
      state ends the connection and leaves behind what was registered before. No other task touches an id that is being
      registered unless the host has used it before, so this is one step. */
  function Registered(flow: bool, s: State, id: U32, kind: Kind, task: nat): State {
    var channeled := Channeled(s, id, kind, task);
    if UsesCancel(kind) && id in s.cancels then channeled.(loop := Leaving)
    else if !(kind.Pull? && flow) then Started(channeled, id, kind, task)
    else
      var credited := channeled.(credits := s.credits[id := Credit(0, 0)]);
      if id in s.credits then credited.(loop := Leaving) else Started(credited, id, kind, task)
  }

  /** Every handler of the stream has one more frame that arrived for it. */
  function Noted(handlers: map<nat, Handler>, frame: Frame): map<nat, Handler> {
    map k | k in handlers ::
      if handlers[k].id == frame.streamId then handlers[k].(arrived := handlers[k].arrived + [frame]) else handlers[k]
  }

  /** A frame goes to the route of its stream, whatever it is; without one it may be a request, and anything else is
      answered. */
  function PlainArrived(flow: bool, s: State, frame: Frame, task: nat): State {
    var id, noted := frame.streamId, s.(handlers := Noted(s.handlers, frame));
    if id in s.routes then noted.(loop := Holding(id, s.routes[id], frame))
    else match RequestKind(frame.kind)
      case Some(kind) => Registered(flow, noted, id, kind, task)
      case None =>
        if frame.kind != Ping then noted.(loop := Answering(id, false))
        else if id in s.canceled then noted.(loop := Leaving)
        else noted.(requested := s.requested[id := Command], loop := Answering(id, true))
  }

  function Arrived(flow: bool, s: State, incoming: Incoming, task: nat): Option<State> {
    if s.loop != Serving || task in s.tasks then None
    else Some(match incoming
              case Window(id, bytes) => WindowArrived(flow, s, id, bytes)
              case Cancel(id) => CancelLocal(s, id).(loop := CancelRoute(id))
              case Plain(frame) => PlainArrived(flow, s, frame, task))
  }

  /** The cancel channel of a stream is taken out of the table and used. */
  function ToldOne(s: State, id: U32): State {
    if id !in s.cancels then s
    else
      var task := s.cancels[id];
      s.(cancels := s.cancels - {id},
         handlers := if task in s.handlers then s.handlers[task := s.handlers[task].(told := true)] else s.handlers)
  }

  /** `try_send` on the route that was looked up. */
  function Pushed(s: State): State
    requires s.loop.Holding?
  {
    var task := s.loop.task;
    if task !in s.handlers then s.(loop := Dropping(s.loop.id, false))
    else if |s.handlers[task].queue| >= STREAM_ROUTE_CAPACITY then s.(loop := Dropping(s.loop.id, true))
    else
      var handler := s.handlers[task];
      s.(handlers := s.handlers[task := handler.(queue := handler.queue + [s.loop.frame])], loop := Serving)
  }

  /** First half of the teardown, under the route lock. */
  function RoutesCleared(s: State): State {
    s.(routes := map[], canceled := s.canceled + s.routes.Keys, loop := Draining,
       credits := map id | id in s.credits :: if id in s.routes then Notified(s.credits[id]) else s.credits[id])
  }

  predicate InCancels(s: State, task: nat) {
    task in s.handlers && s.handlers[task].id in s.cancels && s.cancels[s.handlers[task].id] == task
  }

  /** Second half, under the cancel lock. */
  function CancelsDrained(s: State): State {
    s.(cancels := map[], canceled := s.canceled + s.cancels.Keys, loop := Ended,
       credits := map id | id in s.credits :: if id in s.cancels then Notified(s.credits[id]) else s.credits[id],
       handlers := map k | k in s.handlers ::
                     if InCancels(s, k) then s.handlers[k].(told := true) else s.handlers[k])
  }

  function LoopStepped(s: State): Option<State> {
    match s.loop
    case CancelRoute(id) => Some(s.(routes := s.routes - {id}, loop := CancelTell(id)))
    case CancelTell(id) => Some(ToldOne(s, id).(loop := Serving))
    case Holding(_, _, _) => Some(Pushed(s))
    case Dropping(id, overflow) =>
      Some(s.(routes := s.routes - {id}, loop := Serving,
              overflowed := if overflow then s.overflowed + multiset{id} else s.overflowed))
    case Answering(id, pong) =>
      if pong && id in s.canceled then Some(s.(loop := Leaving))
      else Some(s.(canceled := s.canceled - {id}, loop := Finishing(id)))
    case Finishing(id) => Some(s.(credits := s.credits - {id}, loop := Serving))
    case Leaving => Some(RoutesCleared(s))
    case Draining => Some(CancelsDrained(s))
    case _ => None
  }

  // ---- Steps of the other tasks ----

  function LeftRoutes(s: State, task: nat): State
    requires task in s.handlers
  {
    var handler := s.handlers[task];
    s.(handlers := s.handlers[task := handler.(phase := RouteLeft)],
       routes := if UsesRoute(handler.kind) then s.routes - {handler.id} else s.routes)
  }

  function LeftCancels(s: State, task: nat): State
    requires task in s.handlers
  {
    var handler := s.handlers[task];
    s.(handlers := s.handlers[task := handler.(phase := CancelLeft)],
       cancels := if UsesCancel(handler.kind) then s.cancels - {handler.id} else s.cancels)
  }

  /** The two halves of `finish_stream`. */
  function Forgotten(s: State, task: nat): State
    requires task in s.handlers
  {
    var handler := s.handlers[task];
    s.(handlers := s.handlers[task := handler.(phase := Uncanceled)], canceled := s.canceled - {handler.id})
  }

  function Gone(s: State, task: nat): State
    requires task in s.handlers
  {
    s.(handlers := s.handlers - {task}, credits := s.credits - {s.handlers[task].id})
  }

  function Stepped(s: State, task: nat): Option<State> {
    if task !in s.handlers then None
    else match s.handlers[task].phase
      case Running => Some(LeftRoutes(s, task))
      case RouteLeft => Some(LeftCancels(s, task))
      case CancelLeft => Some(Forgotten(s, task))
      case Uncanceled => Some(Gone(s, task))
  }

  function FrameTaken(s: State, task: nat): Option<State> {
    if task !in s.handlers || s.handlers[task].phase != Running || s.handlers[task].queue == [] then None
    else
      var handler := s.handlers[task];
      Some(s.(handlers := s.handlers[task := handler.(queue := handler.queue[1..],
                                                      taken := handler.taken + [handler.queue[0]])]))
  }

  function Apply(flow: bool, s: State, action: Action): Option<State> {
    match action
    case Arrive(incoming, task) => Arrived(flow, s, incoming, task)
    case LoopStep => LoopStepped(s)
    case LoopFails =>
      if s.loop.Serving? || (s.loop.Answering? && s.loop.pong) then Some(s.(loop := Leaving)) else None
    case HandlerStep(task) => Stepped(s, task)
    case TakeFrame(task) => FrameTaken(s, task)
    case TakeCredit(id, bytes) =>
      if id !in s.credits || s.credits[id].available < bytes then None
      else Some(s.(credits := s.credits[id := s.credits[id].(available := s.credits[id].available - bytes)]))
    case OverflowCancels(id) =>
      if id !in s.overflowed then None
      else Some(CancelLocal(s, id).(overflowed := s.overflowed - multiset{id}))
  }

  function Exec(flow: bool, s: State, actions: seq<Action>): Option<State>
    decreases |actions|
  {
    if actions == [] then Some(s)
    else match Apply(flow, s, actions[0])
      case None => None
      case Some(next) => Exec(flow, next, actions[1..])
  }

  // ---- Any host: delivery ----

  function InHand(s: State, task: nat): seq<Frame> {
    if s.loop.Holding? && s.loop.task == task then [s.loop.frame] else []
  }

  /** The stream's route leads to this handler, and the loop is not about to take it away. */
  ghost predicate Routed(s: State, task: nat)
    requires task in s.handlers
  {
    var id := s.handlers[task].id;
    id in s.routes && s.routes[id] == task && !(s.loop.Dropping? && s.loop.id == id)
  }

  /** What a handler received, its inbox and the frame in the loop's hand are, in this order, the first frames that
      arrived for it; all of them while its route stands. */
  ghost predicate Delivers(s: State, task: nat)
    requires task in s.handlers
  {
    var handler := s.handlers[task];
    var passed := handler.taken + handler.queue + InHand(s, task);
    && passed <= handler.arrived
    && |handler.queue| <= STREAM_ROUTE_CAPACITY
    && (Routed(s, task) ==> passed == handler.arrived)
  }

  /** Channels end at handlers of their own stream, and handler numbers are not used again. */
  ghost predicate Linked(s: State) {
    && s.handlers.Keys <= s.tasks
    && (forall id :: id in s.routes ==>
          s.routes[id] in s.tasks && (s.routes[id] in s.handlers ==> s.handlers[s.routes[id]].id == id))
    && (forall id :: id in s.cancels ==>
          s.cancels[id] in s.tasks && (s.cancels[id] in s.handlers ==> s.handlers[s.cancels[id]].id == id))
  }

  ghost predicate HandLinked(s: State) {
    s.loop.Holding? ==>
      && s.loop.task in s.tasks && s.loop.frame.streamId == s.loop.id
      && (s.loop.task in s.handlers ==> s.handlers[s.loop.task].id == s.loop.id)
  }

  ghost predicate Inv(s: State) {
    Linked(s) && HandLinked(s) && forall task :: task in s.handlers ==> Delivers(s, task)
  }

  /** Nothing but losses in the tables, and no handler changes its stream. */
  ghost predicate Narrower(s: State, next: State) {
    && next.tasks == s.tasks
    && (forall k :: k in next.handlers ==> k in s.handlers && next.handlers[k].id == s.handlers[k].id)
    && (forall id :: id in next.routes ==> id in s.routes && next.routes[id] == s.routes[id])
    && (forall id :: id in next.cancels ==> id in s.cancels && next.cancels[id] == s.cancels[id])
  }

  lemma NarrowerKeepsLinks(s: State, next: State)
    requires Linked(s) && HandLinked(s) && Narrower(s, next)
    ensures Linked(next) && (next.loop == s.loop || !next.loop.Holding? ==> HandLinked(next))
  {
  }

  lemma StillDelivers(s: State, next: State, k: nat)
    requires k in s.handlers && k in next.handlers && Delivers(s, k)
    requires var was, has := s.handlers[k], next.handlers[k];
             has.id == was.id && has.queue == was.queue && has.taken == was.taken && has.arrived == was.arrived
    requires InHand(next, k) == InHand(s, k) && (Routed(next, k) ==> Routed(s, k))
    ensures Delivers(next, k)
  {
  }

  ghost predicate SameInboxes(s: State, next: State) {
    forall k :: k in next.handlers ==>
      && k in s.handlers
      && next.handlers[k].queue == s.handlers[k].queue && next.handlers[k].taken == s.handlers[k].taken
      && next.handlers[k].arrived == s.handlers[k].arrived
  }

  /** The loop stays where it is or moves without a frame in hand; a route it was dropping is gone. */
  ghost predicate MovesOn(s: State, next: State) {
    || next.loop == s.loop
    || (!s.loop.Holding? && !next.loop.Holding? && (s.loop.Dropping? ==> s.loop.id !in next.routes))
  }

  /** A step that only loses table entries and leaves inboxes and the frame in hand alone. */
  lemma NarrowerKeepsInv(s: State, next: State)
    requires Inv(s) && Narrower(s, next) && SameInboxes(s, next) && MovesOn(s, next)
    ensures Inv(next)
  {
    NarrowerKeepsLinks(s, next);
    hide Delivers, Linked;
    forall k | k in next.handlers ensures Delivers(next, k) {
      StillDelivers(s, next, k);
    }
  }

  lemma NotingKeepsLinks(s: State, frame: Frame)
    requires Inv(s)
    ensures Linked(s.(handlers := Noted(s.handlers, frame)))
  {
    hide Delivers;
  }

  /** A frame without a route arrives for handlers that have lost theirs. */
  lemma NotingKeepsInv(s: State, frame: Frame)
    requires Inv(s) && s.loop == Serving && frame.streamId !in s.routes
    ensures Inv(s.(handlers := Noted(s.handlers, frame)))
  {
    NotingKeepsLinks(s, frame);
    hide Linked;
    var next := s.(handlers := Noted(s.handlers, frame));
    forall k | k in next.handlers ensures Delivers(next, k) {
      assert Delivers(s, k);
    }
  }

  /** A frame with a route arrives for its handler and is in the loop's hand. */
  lemma HoldingKeepsInv(s: State, frame: Frame)
    requires Inv(s) && s.loop == Serving && frame.streamId in s.routes
    ensures var id := frame.streamId;
            Inv(s.(handlers := Noted(s.handlers, frame), loop := Holding(id, s.routes[id], frame)))
  {
    NotingKeepsLinks(s, frame);
    var id := frame.streamId;
    var next := s.(handlers := Noted(s.handlers, frame), loop := Holding(id, s.routes[id], frame));
    assert s.routes[id] in s.handlers ==> s.handlers[s.routes[id]].id == id;
    assert Linked(next);
    hide Linked;
    forall k | k in next.handlers ensures Delivers(next, k) {
      assert Delivers(s, k);
    }
  }

  /** Only channels of this stream lead to this handler number. */
  ghost predicate LeadsTo(s: State, task: nat, id: U32) {
    && (forall other :: other in s.routes && s.routes[other] == task ==> other == id)
    && (forall other :: other in s.cancels && s.cancels[other] == task ==> other == id)
  }

  lemma ChannelsKeepLinks(s: State, id: U32, kind: Kind, task: nat)
    requires Linked(s) && task !in s.tasks
    ensures Linked(Channeled(s, id, kind, task)) && LeadsTo(Channeled(s, id, kind, task), task, id)
  {
  }

  lemma ChannelsKeepInv(s: State, id: U32, kind: Kind, task: nat)
    requires Inv(s) && s.loop == Serving && task !in s.tasks && id !in s.routes
    ensures Inv(Channeled(s, id, kind, task))
  {
    ChannelsKeepLinks(s, id, kind, task);
    assert s.handlers.Keys <= s.tasks;
    hide Linked;
    var next := Channeled(s, id, kind, task);
    forall k | k in next.handlers ensures Delivers(next, k) {
      hide Delivers;
      StillDelivers(s, next, k);
    }
  }

  lemma StartingKeepsInv(s: State, id: U32, kind: Kind, task: nat)
    requires Inv(s) && s.loop == Serving && task in s.tasks && task !in s.handlers && LeadsTo(s, task, id)
    ensures Inv(Started(s, id, kind, task))
  {
    var next := Started(s, id, kind, task);
    assert Linked(next) by { hide Delivers; }
    hide Linked, LeadsTo;
    forall k | k in next.handlers ensures Delivers(next, k) {
      if k in s.handlers {
        hide Delivers;
        StillDelivers(s, next, k);
      }
    }
  }

  lemma CreditsDoNotMatter(s: State, credits: map<U32, Credit>, loop: Loop)
    requires Inv(s) && s.loop == Serving && (loop == Serving || loop == Leaving)
    ensures Inv(s.(credits := credits, loop := loop))
  {
    hide Inv;
    NarrowerKeepsInv(s, s.(credits := credits, loop := loop));
  }

  lemma RegisteringKeepsInv(flow: bool, s: State, id: U32, kind: Kind, task: nat)
    requires Inv(s) && s.loop == Serving && task !in s.tasks && id !in s.routes
    ensures Inv(Registered(flow, s, id, kind, task))
  {
    ChannelsKeepInv(s, id, kind, task);
    ChannelsKeepLinks(s, id, kind, task);
    assert task !in s.handlers;
    hide Inv, Linked, UsesRoute, UsesCancel, Started;
    var channeled := Channeled(s, id, kind, task);
    var credits := if kind.Pull? && flow then s.credits[id := Credit(0, 0)] else s.credits;
    CreditsDoNotMatter(channeled, s.credits, Leaving);
    CreditsDoNotMatter(channeled, credits, Leaving);
    CreditsDoNotMatter(channeled, credits, Serving);
    var credited := channeled.(credits := credits);
    assert LeadsTo(credited, task, id);
    StartingKeepsInv(credited, id, kind, task);
  }

  lemma WindowKeepsInv(flow: bool, s: State, id: U32, bytes: Option<U32>)
    requires Inv(s) && s.loop == Serving
    ensures Inv(WindowArrived(flow, s, id, bytes))
  {
    hide Inv, AddCredit;
    var next := WindowArrived(flow, s, id, bytes);
    assert Narrower(s, next) && SameInboxes(s, next);
    NarrowerKeepsInv(s, next);
  }

  /** The loop moves without a frame in hand, and a stream may become known. */
  lemma MovingKeepsInv(s: State, loop: Loop, requested: map<U32, Kind>)
    requires Inv(s) && s.loop == Serving && !loop.Holding?
    ensures Inv(s.(loop := loop, requested := requested))
  {
    hide Inv;
    NarrowerKeepsInv(s, s.(loop := loop, requested := requested));
  }

  lemma PlainKeepsInv(flow: bool, s: State, frame: Frame, task: nat)
    requires Inv(s) && s.loop == Serving && task !in s.tasks
    ensures Inv(PlainArrived(flow, s, frame, task))
  {
    hide Inv, Registered, Noted, RequestKind;
    if frame.streamId in s.routes {
      HoldingKeepsInv(s, frame);
    } else {
      NotingKeepsInv(s, frame);
      var noted := s.(handlers := Noted(s.handlers, frame));
      if RequestKind(frame.kind).Some? {
        RegisteringKeepsInv(flow, noted, frame.streamId, RequestKind(frame.kind).value, task);
      } else {
        var next := PlainArrived(flow, s, frame, task);
        MovingKeepsInv(noted, next.loop, next.requested);
      }
    }
  }

  lemma ArrivalKeepsInv(flow: bool, s: State, incoming: Incoming, task: nat)
    requires Inv(s) && Arrived(flow, s, incoming, task).Some?
    ensures Inv(Arrived(flow, s, incoming, task).value)
  {
    hide Inv, WindowArrived, PlainArrived, CancelLocal;
    match incoming
    case Window(id, bytes) => WindowKeepsInv(flow, s, id, bytes);
    case Cancel(id) => CancelingKeepsInv(s, id, CancelRoute(id), s.overflowed);
    case Plain(frame) => PlainKeepsInv(flow, s, frame, task);
  }

  lemma CancelingKeepsInv(s: State, id: U32, loop: Loop, overflowed: multiset<U32>)
    requires Inv(s) && (loop == s.loop || (s.loop == Serving && loop == CancelRoute(id)))
    ensures Inv(CancelLocal(s, id).(loop := loop, overflowed := overflowed))
  {
    hide Inv;
    var next := CancelLocal(s, id).(loop := loop, overflowed := overflowed);
    assert Narrower(s, next) && SameInboxes(s, next) && MovesOn(s, next);
    hide Narrower, SameInboxes, MovesOn;
    NarrowerKeepsInv(s, next);
  }

  lemma PushingDelivers(s: State, k: nat)
    requires s.loop.Holding? && HandLinked(s) && k in s.handlers && Delivers(s, k)
    ensures Delivers(Pushed(s), k)
  {
    if s.loop.task == k {
      var handler := s.handlers[k];
      assert handler.taken + (handler.queue + [s.loop.frame]) + [] == handler.taken + handler.queue + [s.loop.frame];
      assert handler.taken + handler.queue <= handler.taken + handler.queue + [s.loop.frame];
    } else {
      hide Delivers;
      StillDelivers(s, Pushed(s), k);
    }
  }

  lemma PushingKeepsInv(s: State)
    requires Inv(s) && s.loop.Holding?
    ensures Inv(Pushed(s))
  {
    hide Delivers, Linked;
    assert Narrower(s, Pushed(s));
    NarrowerKeepsLinks(s, Pushed(s));
    hide Narrower;
    forall k | k in Pushed(s).handlers ensures Delivers(Pushed(s), k) { PushingDelivers(s, k); }
  }

  lemma TellingKeepsInv(s: State, id: U32)
    requires Inv(s) && s.loop == CancelTell(id)
    ensures Inv(ToldOne(s, id).(loop := Serving))
  {
    hide Inv;
    var next := ToldOne(s, id).(loop := Serving);
    assert Narrower(s, next) && SameInboxes(s, next) && MovesOn(s, next);
    hide Narrower, SameInboxes, MovesOn;
    NarrowerKeepsInv(s, next);
  }

  lemma TearingDownKeepsInv(s: State, next: State)
    requires Inv(s)
    requires (s.loop == Leaving && next == RoutesCleared(s)) || (s.loop == Draining && next == CancelsDrained(s))
    ensures Inv(next)
  {
    hide Inv;
    assert Narrower(s, next) && SameInboxes(s, next) && MovesOn(s, next);
    hide Narrower, SameInboxes, MovesOn;
    NarrowerKeepsInv(s, next);
  }

  lemma UnroutingKeepsInv(s: State, id: U32, loop: Loop, overflows: bool)
    requires Inv(s) && !s.loop.Holding? && !loop.Holding? && (s.loop.Dropping? ==> s.loop.id == id)
    ensures var overflowed := if overflows then s.overflowed + multiset{id} else s.overflowed;
            Inv(s.(routes := s.routes - {id}, loop := loop, overflowed := overflowed))
  {
    hide Inv;
    var overflowed := if overflows then s.overflowed + multiset{id} else s.overflowed;
    NarrowerKeepsInv(s, s.(routes := s.routes - {id}, loop := loop, overflowed := overflowed));
  }

  lemma AnsweringKeepsInv(s: State, canceled: set<U32>, credits: map<U32, Credit>, loop: Loop)
    requires Inv(s) && (s.loop.Answering? || s.loop.Finishing?) && !loop.Holding?
    ensures Inv(s.(canceled := canceled, credits := credits, loop := loop))
  {
    hide Inv;
    NarrowerKeepsInv(s, s.(canceled := canceled, credits := credits, loop := loop));
  }

  lemma LoopKeepsInv(s: State)
    requires Inv(s) && LoopStepped(s).Some?
    ensures Inv(LoopStepped(s).value)
  {
    hide Inv, Pushed, ToldOne, RoutesCleared, CancelsDrained;
    var next := LoopStepped(s).value;
    match s.loop
    case Holding(_, _, _) => PushingKeepsInv(s);
    case CancelTell(id) => TellingKeepsInv(s, id);
    case CancelRoute(id) => UnroutingKeepsInv(s, id, CancelTell(id), false);
    case Dropping(id, overflow) => UnroutingKeepsInv(s, id, Serving, overflow);
    case Leaving => TearingDownKeepsInv(s, RoutesCleared(s));
    case Draining => TearingDownKeepsInv(s, CancelsDrained(s));
    case _ => AnsweringKeepsInv(s, next.canceled, next.credits, next.loop);
  }

  lemma TakingDelivers(s: State, task: nat, k: nat)
    requires FrameTaken(s, task).Some? && k in s.handlers && Delivers(s, k)
    ensures k in FrameTaken(s, task).value.handlers && Delivers(FrameTaken(s, task).value, k)
  {
    var next := FrameTaken(s, task).value;
    assert next.handlers[k].taken + next.handlers[k].queue == s.handlers[k].taken + s.handlers[k].queue;
  }

  lemma TakingKeepsInv(s: State, task: nat)
    requires Inv(s) && FrameTaken(s, task).Some?
    ensures Inv(FrameTaken(s, task).value)
  {
    hide Delivers, Linked;
    var next := FrameTaken(s, task).value;
    assert Narrower(s, next);
    NarrowerKeepsLinks(s, next);
    hide Narrower;
    forall k | k in next.handlers ensures Delivers(next, k) {
      TakingDelivers(s, task, k);
    }
  }

  lemma LeftRoutesNarrows(s: State, task: nat)
    requires task in s.handlers
    ensures var next := LeftRoutes(s, task); Narrower(s, next) && SameInboxes(s, next) && MovesOn(s, next)
  {
    hide UsesRoute, UsesCancel;
  }

  lemma LeftCancelsNarrows(s: State, task: nat)
    requires task in s.handlers
    ensures var next := LeftCancels(s, task); Narrower(s, next) && SameInboxes(s, next) && MovesOn(s, next)
  {
    hide UsesRoute, UsesCancel;
  }

  lemma ForgottenNarrows(s: State, task: nat)
    requires task in s.handlers
    ensures var next := Forgotten(s, task); Narrower(s, next) && SameInboxes(s, next) && MovesOn(s, next)
  {
    hide UsesRoute, UsesCancel;
  }

  lemma GoneNarrows(s: State, task: nat)
    requires task in s.handlers
    ensures var next := Gone(s, task); Narrower(s, next) && SameInboxes(s, next) && MovesOn(s, next)
  {
    hide UsesRoute, UsesCancel;
  }

  lemma HandlerKeepsInv(s: State, task: nat)
    requires Inv(s) && Stepped(s, task).Some?
    ensures Inv(Stepped(s, task).value)
  {
    hide Inv, LeftRoutes, LeftCancels, Forgotten, Gone, Narrower, SameInboxes, MovesOn;
    LeftRoutesNarrows(s, task);
    LeftCancelsNarrows(s, task);
    ForgottenNarrows(s, task);
    GoneNarrows(s, task);
    NarrowerKeepsInv(s, Stepped(s, task).value);
  }

  lemma WriterNarrows(flow: bool, s: State, action: Action)
    requires Apply(flow, s, action).Some? && (action.LoopFails? || action.TakeCredit?)
    ensures var next := Apply(flow, s, action).value; Narrower(s, next) && SameInboxes(s, next) && MovesOn(s, next)
  {
  }

  lemma StepKeepsInv(flow: bool, s: State, action: Action)
    requires Inv(s) && Apply(flow, s, action).Some?
    ensures Inv(Apply(flow, s, action).value)
  {
    hide Inv, Arrived, LoopStepped, FrameTaken, Stepped, CancelLocal, Narrower, SameInboxes, MovesOn;
    var next := Apply(flow, s, action).value;
    match action
    case Arrive(incoming, task) => ArrivalKeepsInv(flow, s, incoming, task);
    case LoopStep => LoopKeepsInv(s);
    case TakeFrame(task) => TakingKeepsInv(s, task);
    case HandlerStep(task) =>
      HandlerKeepsInv(s, task);
    case OverflowCancels(id) => CancelingKeepsInv(s, id, s.loop, s.overflowed - multiset{id});
    case _ =>
      WriterNarrows(flow, s, action);
      NarrowerKeepsInv(s, next);
  }

  lemma {:induction false} RunKeepsInv(flow: bool, s: State, actions: seq<Action>)
    requires Inv(s) && Exec(flow, s, actions).Some?
    ensures Inv(Exec(flow, s, actions).value)
    decreases |actions|
  {
    hide Apply, Inv;
    if actions != [] {
      StepKeepsInv(flow, s, actions[0]);
      RunKeepsInv(flow, Apply(flow, s, actions[0]).value, actions[1..]);
    }
  }

  /** Whatever the host sends, a handler receives an in-order prefix of the frames that arrived for its stream, its
      inbox stays within its capacity, and while it is routed nothing is missing. */
  lemma HandlersReceiveInOrder(flow: bool, actions: seq<Action>, task: nat)
    requires Exec(flow, INIT, actions).Some? && task in Exec(flow, INIT, actions).value.handlers
    ensures var s := Exec(flow, INIT, actions).value;
            var handler := s.handlers[task];
            && handler.taken + handler.queue <= handler.arrived
            && |handler.queue| <= STREAM_ROUTE_CAPACITY
            && (s.loop == Serving && handler.id in s.routes && s.routes[handler.id] == task ==>
                  handler.taken + handler.queue == handler.arrived)
  {
    hide Apply;
    RunKeepsInv(flow, INIT, actions);
    assert Delivers(Exec(flow, INIT, actions).value, task);
  }
}
