/** The daemon's objects, changed in place: one turn of the serve loop, one method of the writer at a time. */
module Daemons {
  import opened Wrappers
  import opened Bytes
  import opened Frames
  import opened FlowCredits
  import opened DaemonSteps

  function StepsLeft(loop: Loop): nat {
    match loop
    case CancelRoute(_) => 2
    case CancelTell(_) => 1
    case Holding(_, _, _) => 2
    case Dropping(_, _) => 1
    case Answering(_, _) => 2
    case Finishing(_) => 1
    case _ => 0
  }

  /** What the loop makes of the frame it is at if no other task takes a step. */
  function Settled(s: State): State
    decreases StepsLeft(s.loop)
  {
    if StepsLeft(s.loop) == 0 then s else Settled(LoopStepped(s).value)
  }

  /** It is a run of the loop's own steps, so everything proved about runs holds of it. */
  lemma {:induction false} SettlingIsARun(flow: bool, s: State) returns (actions: seq<Action>)
    ensures Exec(flow, s, actions) == Some(Settled(s)) && forall i :: 0 <= i < |actions| ==> actions[i] == LoopStep
    decreases StepsLeft(s.loop)
  {
    if StepsLeft(s.loop) == 0 {
      actions := [];
    } else {
      var next := LoopStepped(s).value;
      var rest := SettlingIsARun(flow, next);
      actions := [LoopStep] + rest;
      assert actions[1..] == rest;
    }
  }

  lemma HandlingIsARun(flow: bool, s: State, incoming: Incoming, task: nat) returns (actions: seq<Action>)
    requires s.loop == Serving && task !in s.tasks
    ensures actions != [] && actions[0] == Arrive(incoming, task)
    ensures Exec(flow, s, actions) == Some(Settled(Arrived(flow, s, incoming, task).value))
  {
    hide WindowArrived, PlainArrived, CancelLocal, Settled, LoopStepped;
    var next := Arrived(flow, s, incoming, task).value;
    var rest := SettlingIsARun(flow, next);
    actions := [Arrive(incoming, task)] + rest;
    assert actions[1..] == rest;
    assert Apply(flow, s, actions[0]) == Some(next);
  }

  lemma SettledCancel(s: State, id: U32)
    requires s.loop == CancelRoute(id)
    ensures Settled(s) == ToldOne(s.(routes := s.routes - {id}), id).(loop := Serving)
  {
    var second := s.(routes := s.routes - {id}, loop := CancelTell(id));
    assert LoopStepped(s) == Some(second);
    var third := ToldOne(second, id).(loop := Serving);
    assert LoopStepped(second) == Some(third);
    assert Settled(third) == third;
    assert Settled(second) == third;
  }

  lemma SettledHolding(s: State)
    requires s.loop.Holding?
    ensures var next := Pushed(s);
            Settled(s) == if next.loop == Serving then next
                          else next.(routes := next.routes - {s.loop.id}, loop := Serving,
                                     overflowed := if next.loop.overflow then next.overflowed + multiset{s.loop.id}
                                                   else next.overflowed)
  {
    var next := Pushed(s);
    if next.loop == Serving {
      assert Settled(next) == next;
    } else {
      var last := LoopStepped(next).value;
      assert Settled(last) == last;
      assert Settled(next) == last;
    }
  }

  lemma SettledAnswer(s: State, id: U32, pong: bool)
    requires s.loop == Answering(id, pong) && !(pong && id in s.canceled)
    ensures Settled(s) == s.(canceled := s.canceled - {id}, credits := s.credits - {id}, loop := Serving)
  {
    var second := LoopStepped(s).value;
    var last := LoopStepped(second).value;
    assert Settled(last) == last;
    assert Settled(second) == last;
  }

  /** The writer's shared state. */
  class MuxWriter {
    const flow: bool
    var canceled: set<U32>
    var credits: map<U32, Credit>
    var failed: bool
    /** How often the tasks that wait for the end of the connection were notified. */
    var closings: nat

    constructor (flow: bool)
      ensures this.flow == flow && canceled == {} && credits == map[] && !failed && closings == 0
    {
      this.flow, canceled, credits, failed, closings := flow, {}, map[], false, 0;
    }

    /** `register_flow_stream`; a second registration is an error that has already replaced the first. */
    method RegisterFlowStream(id: U32) returns (ok: bool)
      modifies this`credits
      ensures credits == if flow then old(credits)[id := Credit(0, 0)] else old(credits)
      ensures ok <==> !flow || id !in old(credits)
    {
      if !flow {
        return true;
      }
      ok := id !in credits;
      credits := credits[id := Credit(0, 0)];
    }

    /** `add_flow_credit`: false for a stream without flow control state, `None` for an error. A credit that grows
        wakes its waiters. */
    method AddFlowCredit(id: U32, bytes: U32) returns (added: Option<bool>)
      modifies this`credits
      ensures added.None? <==> !flow || (id in old(credits) && AddCredit(old(credits)[id].available, bytes).None?)
      ensures added.Some? ==> (added.value <==> id in old(credits))
      ensures credits == if added.Some? && added.value then
                           var was := old(credits)[id];
                           old(credits)[id := Credit(was.available + bytes, was.generation + 1)]
                         else old(credits)
    {
      if !flow {
        return None;
      }
      if id !in credits {
        return Some(false);
      }
      var updated := AddCredit(credits[id].available, bytes);
      if updated.None? {
        return None;
      }
      credits := credits[id := Notified(credits[id].(available := updated.value))];
      return Some(true);
    }

    /** `cancel_local`: senders asleep for credit of the stream are woken. */
    method CancelLocal(id: U32)
      modifies this`canceled, this`credits
      ensures canceled == old(canceled) + {id}
      ensures credits == if id in old(credits) then old(credits)[id := Notified(old(credits)[id])] else old(credits)
    {
      canceled := canceled + {id};
      if id in credits {
        credits := credits[id := Notified(credits[id])];
      }
    }

    method FinishStream(id: U32)
      modifies this`canceled, this`credits
      ensures canceled == old(canceled) - {id} && credits == old(credits) - {id}
    {
      canceled := canceled - {id};
      credits := credits - {id};
    }

    /** `close`: everybody is notified, once. */
    method Close()
      modifies this`failed, this`closings
      ensures failed && closings == old(closings) + if old(failed) then 0 else 1
    {
      if !failed {
        failed, closings := true, closings + 1;
      }
    }
  }

  /** The serve loop and what it shares with its handlers. */
  class Daemon {
    const writer: MuxWriter
    var routes: map<U32, nat>
    var cancels: map<U32, nat>
    var handlers: map<nat, Handler>
    var tasks: set<nat>
    var overflowed: multiset<U32>
    var loop: Loop
    /** Proxy tasks by their id, and those that were aborted. */
    var proxies: map<string, nat>
    var aborted: set<nat>
    ghost var requested: map<U32, Kind>

    ghost function View(): State
      reads this, writer
    {
      State(routes, cancels, writer.credits, writer.canceled, handlers, tasks, overflowed, requested, loop)
    }

    constructor (flow: bool)
      ensures View() == INIT && writer.flow == flow && fresh(writer) && proxies == map[] && aborted == {}
    {
      writer := new MuxWriter(flow);
      routes, cancels, handlers, tasks, overflowed, requested := map[], map[], map[], {}, multiset{}, map[];
      loop, proxies, aborted := Serving, map[], {};
    }

    /** One turn of the serve loop, for any frame in any state of the tables. */
    method HandleFrame(incoming: Incoming, task: nat)
      requires loop == Serving && task !in tasks
      modifies this`routes, this`cancels, this`handlers, this`tasks, this`overflowed, this`requested, this`loop
      modifies writer`canceled, writer`credits
      ensures View() == Settled(Arrived(writer.flow, old(View()), incoming, task).value)
    {
      hide Settled;
      ghost var arrived := Arrived(writer.flow, View(), incoming, task).value;
      match incoming
      case Window(id, bytes) =>
        HandleWindow(id, bytes);
        assert Settled(View()) == View() by { StaysSettled(View()); }
      case Cancel(id) =>
        SettledCancel(arrived, id);
        HandleCancel(id);
      case Plain(frame) => HandlePlain(frame, task);
    }

    method HandleWindow(id: U32, bytes: Option<U32>)
      requires loop == Serving
      modifies this`loop, writer`credits
      ensures View() == WindowArrived(writer.flow, old(View()), id, bytes)
    {
      if bytes.None? {
        loop := Leaving;
      } else {
        var added := writer.AddFlowCredit(id, bytes.value);
        if added.None? {
          loop := Leaving;
        }
      }
    }

    method HandleCancel(id: U32)
      requires loop == Serving
      modifies this`routes, this`cancels, this`handlers, writer`canceled, writer`credits
      ensures var canceled := CancelLocal(old(View()), id);
              View() == ToldOne(canceled.(routes := canceled.routes - {id}), id)
    {
      writer.CancelLocal(id);
      routes := routes - {id};
      if id in cancels {
        Tell(cancels[id]);
        cancels := cancels - {id};
      }
    }

    /** The cancel channel of a handler that is still there. */
    method Tell(task: nat)
      modifies this`handlers
      ensures handlers == if task in old(handlers) then old(handlers)[task := old(handlers)[task].(told := true)]
                          else old(handlers)
    {
      if task in handlers {
        handlers := handlers[task := handlers[task].(told := true)];
      }
    }

    /** A routed frame goes to the inbox, a request starts a handler, anything else is answered. */
    method HandlePlain(frame: Frame, task: nat)
      requires loop == Serving && task !in tasks
      modifies this`routes, this`cancels, this`handlers, this`tasks, this`overflowed, this`requested, this`loop
      modifies writer`canceled, writer`credits
      ensures View() == Settled(PlainArrived(writer.flow, old(View()), frame, task))
    {
      hide Settled, Noted, RequestKind;
      ghost var arrived := PlainArrived(writer.flow, View(), frame, task);
      var id, request := frame.streamId, RequestKind(frame.kind);
      handlers := Noted(handlers, frame);
      if id in routes {
        SettledHolding(arrived);
        Send(id, routes[id], frame);
      } else if request.Some? {
        Start(id, request.value, task);
        assert Settled(View()) == View() by { StaysSettled(View()); }
      } else if frame.kind == Ping && id in writer.canceled {
        loop := Leaving;
        assert Settled(View()) == View() by { StaysSettled(View()); }
      } else {
        SettledAnswer(arrived, id, frame.kind == Ping);
        if frame.kind == Ping {
          requested := requested[id := Command];
        }
        writer.FinishStream(id);
      }
    }

    /** `try_send` on the route, and what follows a failure. */
    method Send(id: U32, task: nat, frame: Frame)
      requires loop == Serving
      modifies this`routes, this`handlers, this`overflowed
      ensures var next := Pushed(old(View()).(loop := Holding(id, task, frame)));
              View() == if next.loop == Serving then next
                        else next.(routes := next.routes - {id}, loop := Serving,
                                   overflowed := if next.loop.overflow then next.overflowed + multiset{id}
                                                 else next.overflowed)
    {
      if task !in handlers {
        routes := routes - {id};
      } else if |handlers[task].queue| >= STREAM_ROUTE_CAPACITY {
        routes := routes - {id};
        overflowed := overflowed + multiset{id};
      } else {
        handlers := handlers[task := handlers[task].(queue := handlers[task].queue + [frame])];
      }
    }

    /** Registers a request in the tables it needs and starts its handler. */
    method Start(id: U32, kind: Kind, task: nat)
      requires loop == Serving
      modifies this`routes, this`cancels, this`handlers, this`tasks, this`requested, this`loop, writer`credits
      ensures View() == Registered(writer.flow, old(View()), id, kind, task)
    {
      requested, tasks := requested[id := kind], tasks + {task};
      if UsesRoute(kind) {
        routes := routes[id := task];
      }
      if UsesCancel(kind) {
        var taken := id in cancels;
        cancels := cancels[id := task];
        if taken {
          loop := Leaving;
          return;
        }
      }
      if kind.Pull? {
        var ok := writer.RegisterFlowStream(id);
        if !ok {
          loop := Leaving;
          return;
        }
      }
      handlers := handlers[task := Handler(id, kind, Running, [], [], [], false)];
    }

    /** A proxy that takes the place of another ends it. */
    method InsertProxy(id: string, task: nat)
      modifies this`proxies, this`aborted
      ensures proxies == old(proxies)[id := task]
      ensures aborted == old(aborted) + if id in old(proxies) then {old(proxies)[id]} else {}
    {
      if id in proxies {
        aborted := aborted + {proxies[id]};
      }
      proxies := proxies[id := task];
    }

    /** What follows the loop: canceling everything that is routed, telling everyone who listens, ending the proxies,
        closing the writer. */
    method TearDown()
      requires loop == Leaving
      modifies this, writer
      ensures Exec(writer.flow, old(View()), [LoopStep, LoopStep]) == Some(View())
      ensures proxies == map[] && forall id :: id in old(proxies) ==> old(proxies)[id] in aborted
      ensures writer.failed && writer.closings == old(writer.closings) + if old(writer.failed) then 0 else 1
    {
      hide LoopStepped, Exec;
      ghost var before := View();
      ClearRoutes();
      ghost var drained := View();
      DrainCancels();
      aborted := aborted + proxies.Values;
      proxies := map[];
      writer.Close();
      TwoSteps(writer.flow, before, drained, View());
    }

    /** Everything that is routed is canceled, under the route lock. */
    method ClearRoutes()
      requires loop == Leaving
      modifies this`routes, this`loop, writer`canceled, writer`credits
      ensures LoopStepped(old(View())) == Some(View()) && loop == Draining
    {
      CancelAll(routes.Keys);
      routes, loop := map[], Draining;
      ghost var next := RoutesCleared(old(View()));
      assert writer.credits == next.credits && writer.canceled == next.canceled;
    }

    /** Everyone who listens is told, under the cancel lock. */
    method DrainCancels()
      requires loop == Draining
      modifies this`cancels, this`handlers, this`loop, writer`canceled, writer`credits
      ensures LoopStepped(old(View())) == Some(View())
    {
      CancelAll(cancels.Keys);
      handlers := map k | k in handlers ::
                    if handlers[k].id in cancels && cancels[handlers[k].id] == k then handlers[k].(told := true)
                    else handlers[k];
      cancels, loop := map[], Ended;
      ghost var next := CancelsDrained(old(View()));
      assert writer.credits == next.credits && writer.canceled == next.canceled && handlers == next.handlers;
    }

    /** `cancel_local` for each of the streams. */
    method CancelAll(ids: set<U32>)
      modifies writer`canceled, writer`credits
      ensures writer.canceled == old(writer.canceled) + ids
      ensures writer.credits == map id | id in old(writer.credits) ::
                                  if id in ids then Notified(old(writer.credits)[id]) else old(writer.credits)[id]
    {
      var left := ids;
      while left != {}
        invariant left <= ids && writer.canceled == old(writer.canceled) + (ids - left)
        invariant writer.credits.Keys == old(writer.credits).Keys
        invariant forall id :: id in writer.credits ==>
                    writer.credits[id] == if id in ids - left then Notified(old(writer.credits)[id])
                                          else old(writer.credits)[id]
        decreases |left|
      {
        var id :| id in left;
        writer.CancelLocal(id);
        left := left - {id};
      }
    }
  }

  lemma StaysSettled(s: State)
    requires s.loop == Serving || s.loop == Leaving
    ensures Settled(s) == s
  {
  }

  lemma TwoSteps(flow: bool, s: State, middle: State, end: State)
    requires LoopStepped(s) == Some(middle) && LoopStepped(middle) == Some(end)
    ensures Exec(flow, s, [LoopStep, LoopStep]) == Some(end)
  {
    hide LoopStepped;
    assert [LoopStep, LoopStep][1..] == [LoopStep] && [LoopStep][1..] == [];
    assert Exec(flow, end, []) == Some(end);
    assert Exec(flow, middle, [LoopStep]) == Some(end);
  }
}
