/** What the daemon does with each kind of frame, and what its handlers get. */
module DaemonRequests {
  import opened Wrappers
  import opened Bytes
  import opened Frames
  import opened FlowCredits
  import opened DaemonSteps
  import opened DaemonTables

  /** The frames that ask for something to be done. */
  predicate Asks(kind: FrameKind) {
    || kind == ExecRequest || kind == PushRequest || kind == PullRequest || kind == PtyOpen
    || kind == ClipboardGet || kind == ClipboardSet || kind == ClipboardClear || kind == ProxyStartRequest
  }

  lemma KindByName(kind: FrameKind)
    ensures RequestKind(kind)
         == if !Asks(kind) then None
            else if kind == PushRequest then Some(Push) else if kind == PullRequest then Some(Pull)
            else if kind == PtyOpen then Some(Pty) else Some(Command)
  {
  }

  /** A stream that is in no table is registered where its kind says. */
  lemma RegisteredByKind(flow: bool, s: State, id: U32, kind: Kind, task: nat)
    requires id !in s.routes && id !in s.cancels && id !in s.credits && s.loop == Serving
    ensures var n := Registered(flow, s, id, kind, task);
            && n.loop == Serving && n.handlers == s.handlers[task := Handler(id, kind, Running, [], [], [], false)]
            && n.routes == (if kind == Push || kind == Pty then s.routes[id := task] else s.routes)
            && n.cancels == (if kind == Pty then s.cancels else s.cancels[id := task])
            && n.credits == (if kind == Pull && flow then s.credits[id := Credit(0, 0)] else s.credits)
  {
  }

  /** A handler for the request has been started and is registered where the request needs it. */
  ghost predicate StartedFor(flow: bool, s: State, n: State, frame: Frame, task: nat) {
    var id, kind := frame.streamId, frame.kind;
    && n.loop == Serving && n.handlers.Keys == s.handlers.Keys + {task}
    && n.handlers[task].id == id && n.handlers[task].phase == Running && !n.handlers[task].told
    && n.handlers[task].queue == [] && n.handlers[task].taken == []
    && (id in n.routes <==> kind == PushRequest || kind == PtyOpen)
    && (id in n.routes ==> n.routes[id] == task)
    && (id in n.cancels <==> kind != PtyOpen)
    && (id in n.cancels ==> n.cancels[id] == task)
    && (id in n.credits <==> kind == PullRequest && flow)
    && (id in n.credits ==> n.credits[id].available == 0)
  }

  lemma RegisteredStarts(flow: bool, s: State, frame: Frame, task: nat)
    requires frame.streamId !in s.routes && frame.streamId !in s.cancels && frame.streamId !in s.credits
    requires s.loop == Serving && Asks(frame.kind) && RequestKind(frame.kind).Some?
    ensures StartedFor(flow, s, Registered(flow, s, frame.streamId, RequestKind(frame.kind).value, task), frame, task)
  {
    KindByName(frame.kind);
    hide RequestKind, Registered;
    RegisteredByKind(flow, s, frame.streamId, RequestKind(frame.kind).value, task);
  }

  /** A request under an id the host has not used starts a handler, with a route if it is a push or a terminal, with a
      cancel channel unless it is a terminal, with flow control state if it is a pull. */
  lemma RequestsStart(flow: bool, s: State, frame: Frame, task: nat) returns (next: State)
    requires Live(flow, s) && s.loop == Serving && task !in s.tasks && frame.streamId !in s.requested
    requires Asks(frame.kind)
    ensures Apply(flow, s, Arrive(Plain(frame), task)) == Some(next) && StartedFor(flow, s, next, frame, task)
  {
    NewIsNowhere(flow, s, frame.streamId);
    KindByName(frame.kind);
    NotedKeys(s.handlers, frame);
    hide Live, Noted, RequestKind, Registered, Asks;
    var noted := s.(handlers := Noted(s.handlers, frame));
    RegisteredStarts(flow, noted, frame, task);
    next := Registered(flow, noted, frame.streamId, RequestKind(frame.kind).value, task);
  }

  /** A request under an id that still has a cancel channel or flow control state ends the connection; the ends of
      the new channels have taken the place of the old ones by then, and no handler is started. */
  lemma CollisionsEndTheConnection(flow: bool, s: State, frame: Frame, task: nat)
    requires s.loop == Serving && task !in s.tasks && frame.streamId !in s.routes && Asks(frame.kind)
    ensures var next, id, kind := Apply(flow, s, Arrive(Plain(frame), task)), frame.streamId, frame.kind;
            && next.Some?
            && var n := next.value;
            && (n.loop == Leaving <==>
                  (kind != PtyOpen && id in s.cancels) || (kind == PullRequest && flow && id in s.credits))
            && (n.loop != Leaving ==> n.loop == Serving && n.handlers.Keys == s.handlers.Keys + {task})
            && (n.loop == Leaving ==> n.handlers.Keys == s.handlers.Keys)
            && n.routes == (if kind == PushRequest || kind == PtyOpen then s.routes[id := task] else s.routes)
            && n.cancels == (if kind == PtyOpen then s.cancels else s.cancels[id := task])
            && n.credits == (if kind == PullRequest && flow && id !in s.cancels then s.credits[id := Credit(0, 0)]
                             else s.credits)
  {
    KindByName(frame.kind);
    NotedKeys(s.handlers, frame);
    hide Noted, RequestKind, Asks;
    var noted := s.(handlers := Noted(s.handlers, frame));
    RegisteredAnyway(flow, noted, frame.streamId, RequestKind(frame.kind).value, task);
    hide Registered;
  }

  lemma RegisteredAnyway(flow: bool, s: State, id: U32, kind: Kind, task: nat)
    requires s.loop == Serving
    ensures var n := Registered(flow, s, id, kind, task);
            && (n.loop == Leaving || n.loop == Serving)
            && (n.loop == Leaving <==> (kind != Pty && id in s.cancels) || (kind == Pull && flow && id in s.credits))
            && n.handlers.Keys == (if n.loop == Leaving then s.handlers.Keys else s.handlers.Keys + {task})
            && n.routes == (if kind == Push || kind == Pty then s.routes[id := task] else s.routes)
            && n.cancels == (if kind == Pty then s.cancels else s.cancels[id := task])
            && n.credits == (if kind == Pull && flow && id !in s.cancels then s.credits[id := Credit(0, 0)]
                             else s.credits)
  {
  }

  lemma NotedKeys(handlers: map<nat, Handler>, frame: Frame)
    ensures Noted(handlers, frame).Keys == handlers.Keys
  {
  }

  /** Nothing else starts one: a ping is answered by a pong unless the stream is canceled, anything else as an
      unsupported request. */
  lemma OthersAreAnswered(flow: bool, s: State, frame: Frame, task: nat)
    requires s.loop == Serving && task !in s.tasks && frame.streamId !in s.routes && !Asks(frame.kind)
    ensures var next := Apply(flow, s, Arrive(Plain(frame), task));
            && next.Some?
            && var n, id := next.value, frame.streamId;
            && n.handlers.Keys == s.handlers.Keys && n.tasks == s.tasks && n.overflowed == s.overflowed
            && n.routes == s.routes && n.cancels == s.cancels && n.credits == s.credits && n.canceled == s.canceled
            && n.loop == if frame.kind != Ping then Answering(id, false)
                         else if id in s.canceled then Leaving else Answering(id, true)
  {
    KindByName(frame.kind);
    NotedKeys(s.handlers, frame);
    hide Noted, RequestKind, Registered, Asks;
  }

  /** A frame of a stream that has a route goes there, whatever its kind is. */
  lemma RoutesComeFirst(flow: bool, s: State, frame: Frame, task: nat)
    requires s.loop == Serving && task !in s.tasks && frame.streamId in s.routes
    ensures var n, id := Apply(flow, s, Arrive(Plain(frame), task)).value, frame.streamId;
            && n.loop == Holding(id, s.routes[id], frame) && n.tasks == s.tasks && n.handlers.Keys == s.handlers.Keys
            && n.routes == s.routes && n.cancels == s.cancels && n.credits == s.credits && n.canceled == s.canceled
  {
    NotedKeys(s.handlers, frame);
    hide RequestKind, Noted, Registered;
  }

  /** An answer to a frame without a route finishes its stream; a pong of a stream canceled meanwhile is an error. */
  lemma AnswersFinishTheStream(flow: bool, s: State, id: U32, pong: bool)
    requires s.loop == Answering(id, pong)
    ensures pong && id in s.canceled ==> Apply(flow, s, LoopStep) == Some(s.(loop := Leaving))
    ensures !(pong && id in s.canceled) ==>
              Exec(flow, s, [LoopStep, LoopStep])
              == Some(s.(canceled := s.canceled - {id}, credits := s.credits - {id}, loop := Serving))
  {
    var middle := s.(canceled := s.canceled - {id}, loop := Finishing(id));
    var end := middle.(credits := s.credits - {id}, loop := Serving);
    if !(pong && id in s.canceled) {
      assert [LoopStep, LoopStep][1..] == [LoopStep] && [LoopStep][1..] == [];
      assert Exec(flow, end, []) == Some(end);
      assert Apply(flow, middle, LoopStep) == Some(end);
      assert Exec(flow, middle, [LoopStep]) == Some(end);
    }
  }

  /** A cancel frame: the stream is canceled and its senders are notified, its route goes, and whoever is in the cancel
      table is told. */
  lemma CancelFramesAreHandled(flow: bool, s: State, id: U32, task: nat)
    requires s.loop == Serving && task !in s.tasks
    ensures var end := Exec(flow, s, [Arrive(Cancel(id), task), LoopStep, LoopStep]);
            && end.Some?
            && var n := end.value;
            && n.loop == Serving && n.tasks == s.tasks && n.overflowed == s.overflowed && n.requested == s.requested
            && n.canceled == s.canceled + {id} && n.routes == s.routes - {id} && n.cancels == s.cancels - {id}
            && n.handlers.Keys == s.handlers.Keys && n.credits.Keys == s.credits.Keys
            && (forall k :: k in s.handlers ==>
                  n.handlers[k] == if id in s.cancels && s.cancels[id] == k then s.handlers[k].(told := true)
                                   else s.handlers[k])
            && (forall other :: other in s.credits ==>
                  && n.credits[other].available == s.credits[other].available
                  && n.credits[other].generation == s.credits[other].generation + if other == id then 1 else 0)
  {
    CancelFrameRuns(flow, s, id, task);
    hide Apply, Exec;
    var end := ToldOne(CancelLocal(s, id).(routes := s.routes - {id}), id).(loop := Serving);
    assert end.cancels == s.cancels - {id};
  }

  lemma CancelFrameRuns(flow: bool, s: State, id: U32, task: nat)
    requires s.loop == Serving && task !in s.tasks
    ensures Exec(flow, s, [Arrive(Cancel(id), task), LoopStep, LoopStep])
         == Some(ToldOne(CancelLocal(s, id).(routes := s.routes - {id}), id).(loop := Serving))
  {
    hide Registered, PlainArrived, WindowArrived, Pushed, RoutesCleared, CancelsDrained;
    var actions := [Arrive(Cancel(id), task), LoopStep, LoopStep];
    var s1 := CancelLocal(s, id).(loop := CancelRoute(id));
    var s2 := s1.(routes := s.routes - {id}, loop := CancelTell(id));
    var s3 := ToldOne(s2, id).(loop := Serving);
    assert Apply(flow, s, actions[0]) == Some(s1) && Apply(flow, s1, LoopStep) == Some(s2);
    assert Apply(flow, s2, LoopStep) == Some(s3);
    assert s3 == ToldOne(CancelLocal(s, id).(routes := s.routes - {id}), id).(loop := Serving);
    hide Apply, ToldOne, CancelLocal;
    assert actions[1..][1..] == [LoopStep] && [LoopStep][1..] == [];
    assert Exec(flow, s3, []) == Some(s3) && Exec(flow, s2, [LoopStep]) == Some(s3);
    assert Exec(flow, s1, actions[1..]) == Some(s3);
  }

  /** A connection that is lost, or breaks while a pong is written, ends the loop and changes nothing else. */
  lemma LostConnectionsEndTheLoop(flow: bool, s: State)
    ensures Apply(flow, s, LoopFails)
         == if s.loop == Serving || exists id :: s.loop == Answering(id, true) then Some(s.(loop := Leaving)) else None
  {
  }

  /** A spawned cancellation marks the stream, once for each overflow. */
  lemma OverflowsCancel(flow: bool, s: State, id: U32)
    ensures Apply(flow, s, OverflowCancels(id)).Some? <==> id in s.overflowed
    ensures id in s.overflowed ==>
              var n := Apply(flow, s, OverflowCancels(id)).value;
              n.canceled == s.canceled + {id} && n.overflowed[id] == s.overflowed[id] - 1 && n.routes == s.routes
  {
  }

  /** A frame in hand goes to the inbox if its handler is there and fewer than sixteen wait; otherwise the route goes,
      and with sixteen a cancellation is spawned. */
  lemma InboxHoldsSixteen(flow: bool, s: State)
    requires s.loop.Holding?
    ensures var id, k := s.loop.id, s.loop.task;
            var fits := k in s.handlers && |s.handlers[k].queue| < 16;
            var n := Exec(flow, s, if fits then [LoopStep] else [LoopStep, LoopStep]);
            && n.Some?
            && n.value.loop == Serving
            && (if fits then
                  n.value == s.(loop := Serving, handlers := s.handlers[k := s.handlers[k].(
                                  queue := s.handlers[k].queue + [s.loop.frame])])
                else
                  n.value == s.(loop := Serving, routes := s.routes - {id},
                                overflowed := if k in s.handlers then s.overflowed + multiset{id} else s.overflowed))
  {
    var next := Apply(flow, s, LoopStep).value;
    assert [LoopStep][1..] == [] && [LoopStep, LoopStep][1..] == [LoopStep];
    assert Exec(flow, next, []) == Some(next);
    if next.loop != Serving {
      var end := Apply(flow, next, LoopStep).value;
      assert Exec(flow, end, []) == Some(end);
      assert Exec(flow, next, [LoopStep]) == Some(end);
    }
  }

  /** The end of the loop empties both tables. Everything that was in them is canceled, its senders are notified, and
      everyone in the cancel table is told. */
  lemma TeardownIsExact(flow: bool, s: State)
    requires s.loop == Leaving
    ensures var end := Exec(flow, s, [LoopStep, LoopStep]);
            && end.Some?
            && var n := end.value;
            && n.loop == Ended && n.routes == map[] && n.cancels == map[] && n.tasks == s.tasks
            && n.overflowed == s.overflowed && n.canceled == s.canceled + s.routes.Keys + s.cancels.Keys
            && n.handlers.Keys == s.handlers.Keys && n.credits.Keys == s.credits.Keys
            && (forall k :: k in s.handlers ==>
                  var id := s.handlers[k].id;
                  n.handlers[k] == if id in s.cancels && s.cancels[id] == k then s.handlers[k].(told := true)
                                   else s.handlers[k])
            && (forall id :: id in s.credits ==>
                  && n.credits[id].available == s.credits[id].available
                  && n.credits[id].generation == s.credits[id].generation
                                                 + (if id in s.routes then 1 else 0) + if id in s.cancels then 1 else 0)
  {
    TeardownRuns(flow, s);
    hide Apply, Exec;
    var end := CancelsDrained(RoutesCleared(s));
    assert forall k :: k in s.handlers ==> (InCancels(RoutesCleared(s), k) <==> InCancels(s, k));
  }

  lemma TeardownRuns(flow: bool, s: State)
    requires s.loop == Leaving
    ensures Exec(flow, s, [LoopStep, LoopStep]) == Some(CancelsDrained(RoutesCleared(s)))
  {
    var middle := RoutesCleared(s);
    var end := CancelsDrained(middle);
    assert middle.loop == Draining;
    hide RoutesCleared, CancelsDrained;
    assert [LoopStep, LoopStep][1..] == [LoopStep] && [LoopStep][1..] == [];
    assert Exec(flow, end, []) == Some(end);
    assert Exec(flow, middle, [LoopStep]) == Some(end);
  }

  // ---- Handlers ----

  /** A handler at work takes the frame at the head of its inbox, whenever there is one. */
  lemma HandlersReceive(flow: bool, s: State, k: nat)
    ensures Apply(flow, s, TakeFrame(k)).Some?
       <==> k in s.handlers && s.handlers[k].phase == Running && s.handlers[k].queue != []
    ensures Apply(flow, s, TakeFrame(k)).Some? ==>
              var was, n := s.handlers[k], Apply(flow, s, TakeFrame(k)).value.handlers[k];
              was.queue == [was.queue[0]] + n.queue && n.taken == was.taken + [was.queue[0]]
  {
  }

  /** A handler that ends takes everything of its stream out of the tables in four steps: the route of a push or a
      terminal, the cancel channel of all but a terminal, the cancellation and the flow control state. */
  lemma HandlersFinish(flow: bool, s: State, k: nat)
    requires k in s.handlers && s.handlers[k].phase == Running
    ensures var step, id, kind := HandlerStep(k), s.handlers[k].id, s.handlers[k].kind;
            Exec(flow, s, [step, step, step, step])
            == Some(s.(handlers := s.handlers - {k}, credits := s.credits - {id}, canceled := s.canceled - {id},
                       routes := if kind == Push || kind == Pty then s.routes - {id} else s.routes,
                       cancels := if kind == Pty then s.cancels else s.cancels - {id}))
  {
    var step, h := HandlerStep(k), s.handlers[k];
    var s1 := LeftRoutes(s, k);
    var s2 := LeftCancels(s1, k);
    var s3 := Forgotten(s2, k);
    var s4 := Gone(s3, k);
    assert s4.handlers == s.handlers - {k};
    assert [step, step, step, step][1..] == [step, step, step] && [step, step, step][1..] == [step, step];
    assert [step, step][1..] == [step] && [step][1..] == [];
    assert Apply(flow, s, step) == Some(s1) && Apply(flow, s1, step) == Some(s2);
    assert Apply(flow, s2, step) == Some(s3) && Apply(flow, s3, step) == Some(s4);
    hide Apply;
    assert Exec(flow, s4, []) == Some(s4) && Exec(flow, s3, [step]) == Some(s4);
    assert Exec(flow, s2, [step, step]) == Some(s4) && Exec(flow, s1, [step, step, step]) == Some(s4);
  }

  // ---- Credit ----

  predicate AtWork(loop: Loop) { !loop.Leaving? && !loop.Draining? && !loop.Ended? }

  /** The byte count of a window update that arrives for a stream with flow control state. */
  function UpdateIn(s: State, action: Action, id: U32): nat {
    if action.Arrive? && action.incoming.Window? && action.incoming.id == id && id in s.credits
       && action.incoming.bytes.Some?
    then action.incoming.bytes.value else 0
  }

  function TakenIn(action: Action, id: U32): nat { if action.TakeCredit? && action.id == id then action.bytes else 0 }

  /** The stream keeps its flow control state over the run. */
  ghost predicate StaysCredited(flow: bool, s: State, actions: seq<Action>, id: U32)
    requires Exec(flow, s, actions).Some?
    decreases |actions|
  {
    id in s.credits && (actions != [] ==> StaysCredited(flow, Apply(flow, s, actions[0]).value, actions[1..], id))
  }

  function Updates(flow: bool, s: State, actions: seq<Action>, id: U32): nat
    requires Exec(flow, s, actions).Some?
    decreases |actions|
  {
    if actions == [] then 0
    else UpdateIn(s, actions[0], id) + Updates(flow, Apply(flow, s, actions[0]).value, actions[1..], id)
  }

  function Takes(actions: seq<Action>, id: U32): nat {
    if actions == [] then 0 else TakenIn(actions[0], id) + Takes(actions[1..], id)
  }

  lemma RegisteringKeepsCredit(flow: bool, s: State, other: U32, kind: Kind, task: nat, id: U32)
    requires id in s.credits && s.loop == Serving && AtWork(Registered(flow, s, other, kind, task).loop)
    ensures var n := Registered(flow, s, other, kind, task); id in n.credits && n.credits[id] == s.credits[id]
  {
    hide UsesRoute, UsesCancel;
  }

  lemma FramesKeepCredit(flow: bool, s: State, frame: Frame, task: nat, id: U32)
    requires id in s.credits && s.loop == Serving && AtWork(PlainArrived(flow, s, frame, task).loop)
    ensures var n := PlainArrived(flow, s, frame, task); id in n.credits && n.credits[id] == s.credits[id]
  {
    hide Noted, RequestKind;
    if frame.streamId !in s.routes && RequestKind(frame.kind).Some? {
      var noted := s.(handlers := Noted(s.handlers, frame));
      RegisteringKeepsCredit(flow, noted, frame.streamId, RequestKind(frame.kind).value, task, id);
      hide Registered;
    }
  }

  lemma LoopKeepsCredit(flow: bool, s: State, id: U32)
    requires id in s.credits && LoopStepped(s).Some? && id in LoopStepped(s).value.credits
    ensures LoopStepped(s).value.credits[id].available == s.credits[id].available
    ensures AtWork(LoopStepped(s).value.loop) ==> AtWork(s.loop)
  {
  }

  lemma HandlersKeepCredit(s: State, task: nat, id: U32)
    requires Stepped(s, task).Some? && id in s.credits && id in Stepped(s, task).value.credits
    ensures Stepped(s, task).value.credits[id] == s.credits[id] && Stepped(s, task).value.loop == s.loop
  {
    hide UsesRoute, UsesCancel;
  }

  lemma WindowBalances(flow: bool, s: State, other: U32, bytes: Option<U32>, id: U32)
    requires id in s.credits && s.loop == Serving
    ensures var n := WindowArrived(flow, s, other, bytes);
            && id in n.credits && (n.loop == Serving || n.loop == Leaving)
            && (AtWork(n.loop) ==> n.credits[id].available
                                   == s.credits[id].available
                                      + if other == id && bytes.Some? then bytes.value else 0)
            && (n.credits[id].available > s.credits[id].available
                ==> n.credits[id].generation > s.credits[id].generation)
            && n.canceled == s.canceled
  {
  }

  lemma CancelBalances(s: State, other: U32, id: U32)
    requires id in s.credits
    ensures var n := CancelLocal(s, other);
            && id in n.credits && n.credits[id].available == s.credits[id].available
            && (id in n.canceled && id !in s.canceled ==> n.credits[id].generation > s.credits[id].generation)
  {
  }

  lemma StepBalances(flow: bool, s: State, action: Action, id: U32)
    requires Apply(flow, s, action).Some? && id in s.credits && id in Apply(flow, s, action).value.credits
    requires AtWork(Apply(flow, s, action).value.loop)
    ensures Apply(flow, s, action).value.credits[id].available + TakenIn(action, id)
         == s.credits[id].available + UpdateIn(s, action, id)
    ensures AtWork(s.loop)
  {
    hide PlainArrived, LoopStepped, Stepped, WindowArrived, CancelLocal;
    match action
    case Arrive(incoming, task) =>
      match incoming {
        case Window(other, bytes) => WindowBalances(flow, s, other, bytes, id);
        case Cancel(other) => CancelBalances(s, other, id);
        case Plain(frame) => FramesKeepCredit(flow, s, frame, task, id);
      }
    case LoopStep => LoopKeepsCredit(flow, s, id);
    case HandlerStep(task) => HandlersKeepCredit(s, task, id);
    case OverflowCancels(other) => CancelBalances(s, other, id);
    case _ =>
  }

  /** No grant is lost and none is invented, whatever the host sends: while the loop is at work, the credit of a stream
      and all that its handler takes are the window updates that arrive for it. */
  lemma {:induction false} UpdatesAreAccounted(flow: bool, s: State, actions: seq<Action>, id: U32)
    requires Exec(flow, s, actions).Some? && StaysCredited(flow, s, actions, id)
    requires AtWork(Exec(flow, s, actions).value.loop)
    ensures id in Exec(flow, s, actions).value.credits
    ensures Exec(flow, s, actions).value.credits[id].available + Takes(actions, id)
         == s.credits[id].available + Updates(flow, s, actions, id)
    ensures AtWork(s.loop)
    decreases |actions|
  {
    hide Apply, TakenIn, UpdateIn, AtWork;
    if actions != [] {
      var next := Apply(flow, s, actions[0]).value;
      UpdatesAreAccounted(flow, next, actions[1..], id);
      StepBalances(flow, s, actions[0], id);
    }
  }

  /** Credit is taken all or nothing, and a handler whose credit covers what it needs gets it. */
  lemma TakingIsAllOrNothing(flow: bool, s: State, id: U32, bytes: nat)
    ensures Apply(flow, s, TakeCredit(id, bytes)).Some? <==> id in s.credits && bytes <= s.credits[id].available
    ensures Apply(flow, s, TakeCredit(id, bytes)).Some? ==>
              Apply(flow, s, TakeCredit(id, bytes)).value
              == s.(credits := s.credits[id := Credit(s.credits[id].available - bytes, s.credits[id].generation)])
  {
  }

  /** The connection ends over a window update exactly if it does not decode, updates were not negotiated, or it is for
      a stream with flow control state and empty or beyond 16 MiB of credit. */
  lemma ForbiddenUpdates(flow: bool, s: State, id: U32, bytes: Option<U32>, task: nat)
    requires s.loop == Serving && task !in s.tasks
    ensures Apply(flow, s, Arrive(Window(id, bytes), task)).value.loop == Leaving
       <==> !flow || bytes.None?
            || (id in s.credits && (bytes.value == 0 || s.credits[id].available + bytes.value > 16777216))
  {
  }

  /** Whoever sleeps for credit is notified when there is more of it, and when the stream is canceled, by whatever
      step. */
  lemma GrantsAndCancellationsNotify(flow: bool, s: State, action: Action, id: U32)
    requires Apply(flow, s, action).Some? && id in s.credits && id in Apply(flow, s, action).value.credits
    requires !(action.Arrive? && action.incoming.Plain?)
    ensures var n := Apply(flow, s, action).value;
            (n.credits[id].available > s.credits[id].available || (id in n.canceled && id !in s.canceled))
            ==> n.credits[id].generation > s.credits[id].generation
  {
    hide PlainArrived, LoopStepped, Stepped, WindowArrived, CancelLocal, FrameTaken;
    match action
    case Arrive(incoming, task) =>
      match incoming {
        case Window(other, bytes) => WindowBalances(flow, s, other, bytes, id);
        case Cancel(other) => CancelBalances(s, other, id);
        case _ =>
      }
    case LoopStep => LoopNotifies(s, id);
    case HandlerStep(task) =>
      HandlersKeepCredit(s, task, id);
      HandlersCancelNothing(s, task);
    case OverflowCancels(other) => CancelBalances(s, other, id);
    case _ => OthersCancelNothing(flow, s, action);
  }

  lemma HandlersCancelNothing(s: State, task: nat)
    requires Stepped(s, task).Some?
    ensures Stepped(s, task).value.canceled <= s.canceled
  {
    hide UsesRoute, UsesCancel;
  }

  lemma OthersCancelNothing(flow: bool, s: State, action: Action)
    requires Apply(flow, s, action).Some? && (action.LoopFails? || action.TakeFrame? || action.TakeCredit?)
    ensures Apply(flow, s, action).value.canceled == s.canceled
    ensures forall id :: id in s.credits ==>
              id in Apply(flow, s, action).value.credits
              && Apply(flow, s, action).value.credits[id].available <= s.credits[id].available
  {
  }

  lemma LoopNotifies(s: State, id: U32)
    requires LoopStepped(s).Some? && id in s.credits && id in LoopStepped(s).value.credits
    ensures var n := LoopStepped(s).value;
            && n.credits[id].available == s.credits[id].available
            && (id in n.canceled && id !in s.canceled ==> n.credits[id].generation > s.credits[id].generation)
  {
    match s.loop
    case Holding(_, _, _) => PushingKeepsCredit(s);
    case CancelTell(other) => TellingKeepsCredit(s, other);
    case _ => hide Pushed, ToldOne;
  }

  lemma PushingKeepsCredit(s: State)
    requires s.loop.Holding?
    ensures Pushed(s).credits == s.credits && Pushed(s).canceled == s.canceled
  {
  }

  lemma TellingKeepsCredit(s: State, id: U32)
    ensures ToldOne(s, id).credits == s.credits && ToldOne(s, id).canceled == s.canceled
  {
  }

  // ---- Data ----

  /** The frames that arrive for the handler. */
  function DataIn(s: State, action: Action, k: nat): seq<Frame> {
    if action.Arrive? && action.incoming.Plain? && k in s.handlers
       && s.handlers[k].id == action.incoming.frame.streamId
    then [action.incoming.frame] else []
  }

  function DataFor(flow: bool, s: State, actions: seq<Action>, k: nat): seq<Frame>
    requires Exec(flow, s, actions).Some?
    decreases |actions|
  {
    if actions == [] then []
    else DataIn(s, actions[0], k) + DataFor(flow, Apply(flow, s, actions[0]).value, actions[1..], k)
  }

  lemma RegisteringKeepsHandlers(flow: bool, s: State, id: U32, kind: Kind, task: nat, k: nat)
    requires k != task
    ensures var n := Registered(flow, s, id, kind, task);
            && (k in n.handlers <==> k in s.handlers) && (k in s.handlers ==> n.handlers[k] == s.handlers[k])
            && n.tasks == s.tasks + {task}
  {
    hide UsesRoute, UsesCancel;
  }

  lemma NotingIsExact(handlers: map<nat, Handler>, frame: Frame, k: nat)
    ensures k in Noted(handlers, frame) <==> k in handlers
    ensures k in handlers ==>
              Noted(handlers, frame)[k]
              == handlers[k].(arrived := handlers[k].arrived
                                         + if handlers[k].id == frame.streamId then [frame] else [])
  {
    if k in handlers {
      assert handlers[k].arrived + [] == handlers[k].arrived;
    }
  }

  lemma FramesAreNoted(flow: bool, s: State, frame: Frame, task: nat, k: nat)
    requires k != task
    ensures var n := PlainArrived(flow, s, frame, task);
            && (k in n.handlers <==> k in s.handlers) && s.tasks <= n.tasks
            && (k in s.handlers ==> n.handlers[k].arrived == s.handlers[k].arrived
                                                             + DataIn(s, Arrive(Plain(frame), task), k))
  {
    NotingIsExact(s.handlers, frame, k);
    hide Noted, RequestKind;
    if frame.streamId !in s.routes && RequestKind(frame.kind).Some? {
      var noted := s.(handlers := Noted(s.handlers, frame));
      RegisteringKeepsHandlers(flow, noted, frame.streamId, RequestKind(frame.kind).value, task, k);
      hide Registered;
    }
  }

  lemma LoopNotesNothing(s: State, k: nat)
    requires LoopStepped(s).Some? && k in s.handlers
    ensures var n := LoopStepped(s).value;
            k in n.handlers && n.handlers[k].arrived == s.handlers[k].arrived && n.handlers[k].id == s.handlers[k].id
  {
  }

  lemma HandlersNoteNothing(s: State, task: nat, k: nat)
    requires Stepped(s, task).Some? && k in s.handlers && k in Stepped(s, task).value.handlers
    ensures Stepped(s, task).value.handlers[k].arrived == s.handlers[k].arrived
  {
    hide UsesRoute, UsesCancel;
  }

  lemma StepNotesData(flow: bool, s: State, action: Action, k: nat)
    requires s.handlers.Keys <= s.tasks && Apply(flow, s, action).Some?
    requires k in s.handlers && k in Apply(flow, s, action).value.handlers
    ensures Apply(flow, s, action).value.handlers[k].arrived == s.handlers[k].arrived + DataIn(s, action, k)
  {
    hide PlainArrived, LoopStepped, Stepped;
    match action
    case Arrive(incoming, task) =>
      if incoming.Plain? {
        FramesAreNoted(flow, s, incoming.frame, task, k);
      }
    case LoopStep => LoopNotesNothing(s, k);
    case HandlerStep(task) => HandlersNoteNothing(s, task, k);
    case _ =>
  }

  function ArrivedFor(s: State, k: nat): seq<Frame> { if k in s.handlers then s.handlers[k].arrived else [] }

  lemma GoneHandlersStayGone(flow: bool, s: State, action: Action, k: nat)
    requires Apply(flow, s, action).Some? && k in s.tasks && k !in s.handlers
    ensures var n := Apply(flow, s, action).value; k in n.tasks && k !in n.handlers
  {
    hide PlainArrived, LoopStepped, Stepped;
    match action
    case Arrive(incoming, task) =>
      if incoming.Plain? {
        FramesAreNoted(flow, s, incoming.frame, task, k);
      }
    case LoopStep => LoopStartsNothing(s, k);
    case HandlerStep(task) => HandlersStartNothing(s, task, k);
    case _ =>
  }

  lemma LoopStartsNothing(s: State, k: nat)
    requires LoopStepped(s).Some? && k !in s.handlers
    ensures var n := LoopStepped(s).value; n.tasks == s.tasks && k !in n.handlers
  {
    match s.loop
    case Holding(_, _, _) => PushingStartsNothing(s);
    case CancelTell(id) => TellingStartsNothing(s, id);
    case _ => hide Pushed, ToldOne, InCancels;
  }

  lemma PushingStartsNothing(s: State)
    requires s.loop.Holding?
    ensures Pushed(s).tasks == s.tasks && Pushed(s).handlers.Keys == s.handlers.Keys
  {
  }

  lemma TellingStartsNothing(s: State, id: U32)
    ensures ToldOne(s, id).tasks == s.tasks && ToldOne(s, id).handlers.Keys == s.handlers.Keys
  {
  }

  lemma HandlersStartNothing(s: State, task: nat, k: nat)
    requires Stepped(s, task).Some? && k !in s.handlers
    ensures var n := Stepped(s, task).value; n.tasks == s.tasks && k !in n.handlers
  {
    hide UsesRoute, UsesCancel;
  }

  lemma {:induction false} StaysGone(flow: bool, s: State, actions: seq<Action>, k: nat)
    requires Exec(flow, s, actions).Some? && k in s.tasks && k !in s.handlers
    ensures k !in Exec(flow, s, actions).value.handlers
    decreases |actions|
  {
    hide Apply;
    if actions != [] {
      GoneHandlersStayGone(flow, s, actions[0], k);
      StaysGone(flow, Apply(flow, s, actions[0]).value, actions[1..], k);
    }
  }

  /** What a handler is said to have received is measured against the frames that the loop really read. */
  lemma {:induction false} DataIsAccounted(flow: bool, s: State, actions: seq<Action>, k: nat)
    requires Inv(s) && Exec(flow, s, actions).Some? && k in s.handlers && k in Exec(flow, s, actions).value.handlers
    ensures ArrivedFor(Exec(flow, s, actions).value, k) == ArrivedFor(s, k) + DataFor(flow, s, actions, k)
    decreases |actions|
  {
    if actions != [] {
      assert s.handlers.Keys <= s.tasks;
      hide Apply, Inv, DataIn, ArrivedFor;
      var next := Apply(flow, s, actions[0]).value;
      StepKeepsInv(flow, s, actions[0]);
      WasThere(flow, s, actions[0], actions[1..], k);
      StepAddsData(flow, s, actions[0], k);
      DataIsAccounted(flow, next, actions[1..], k);
    }
  }

  lemma StepAddsData(flow: bool, s: State, action: Action, k: nat)
    requires s.handlers.Keys <= s.tasks && Apply(flow, s, action).Some?
    requires k in s.handlers && k in Apply(flow, s, action).value.handlers
    ensures ArrivedFor(Apply(flow, s, action).value, k) == ArrivedFor(s, k) + DataIn(s, action, k)
  {
    hide Apply, DataIn;
    StepNotesData(flow, s, action, k);
  }

  lemma WasThere(flow: bool, s: State, action: Action, actions: seq<Action>, k: nat)
    requires k in s.tasks && Apply(flow, s, action).Some?
    requires Exec(flow, Apply(flow, s, action).value, actions).Some?
    requires k in Exec(flow, Apply(flow, s, action).value, actions).value.handlers
    ensures k in Apply(flow, s, action).value.handlers
  {
    TasksStay(flow, s, action, k);
    hide Apply, Exec;
    if k !in Apply(flow, s, action).value.handlers {
      StaysGone(flow, Apply(flow, s, action).value, actions, k);
    }
  }

  lemma TasksStay(flow: bool, s: State, action: Action, k: nat)
    requires Apply(flow, s, action).Some? && k in s.tasks
    ensures k in Apply(flow, s, action).value.tasks
  {
    hide PlainArrived, LoopStepped, Stepped;
    match action
    case Arrive(incoming, task) =>
      if incoming.Plain? {
        FramesAreNoted(flow, s, incoming.frame, task, k);
      }
    case LoopStep => LoopKeepsTasks(s);
    case HandlerStep(task) => HandlersKeepTasks(s, task);
    case _ =>
  }

  lemma LoopKeepsTasks(s: State)
    requires LoopStepped(s).Some?
    ensures LoopStepped(s).value.tasks == s.tasks
  {
  }

  lemma HandlersKeepTasks(s: State, task: nat)
    requires Stepped(s, task).Some?
    ensures Stepped(s, task).value.tasks == s.tasks
  {
    hide UsesRoute, UsesCancel;
  }
}
