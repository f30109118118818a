/** Senders that sleep until a window update arrives, against everything that may wake them.

    A `Notify` is a counter: `notified()` takes a snapshot of it and completes once the counter has moved on, and
    `notify_waiters()` moves it. Every update of shared state and the notification after it are separate steps. */
module CreditWaiting {
  import opened Wrappers
  import opened FlowCredits

  /** The host watches cancellation through its own channel; the device reuses the credit notification for it. */
  datatype Side = Host | Device

  /** The points of the waiting loop: subscribe to credit, subscribe to the end of the connection, check
      cancellation, check the end of the connection, try to take, sleep. */
  datatype Point = Top | CreditWatched | ClosedWatched | NotCanceled | NotClosed | Asleep | Taken | Failed

  datatype Waiter = Waiter(need: nat, point: Point, creditSeen: nat, closedSeen: nat, cancelSeen: nat)

  datatype State = State(available: nat, creditGen: nat, creditPending: nat,
                         canceled: bool, cancelGen: nat,
                         closed: bool, closedGen: nat, closedPending: nat,
                         waiters: map<nat, Waiter>)

  datatype Action =
    | Begin(id: nat, need: nat, cancelSeen: nat)
    | Advance(id: nat)
    | Wake(id: nat)
    | Grant(bytes: nat)
    | NotifyCredit
    | Cancel
    | Close(notifies: bool)
    | NotifyClosed

  const INIT := State(0, 0, 0, false, 0, false, 0, 0, map[])

  function With(s: State, id: nat, w: Waiter): State { s.(waiters := s.waiters[id := w]) }

  /** A task starts to wait for a frame it wants to send; it may or may not have seen an earlier cancellation. */
  function Begun(s: State, id: nat, need: nat, cancelSeen: nat): Option<State> {
    if !(1 <= need <= MAX_FLOW_CREDIT) || cancelSeen > s.cancelGen then None
    else if (id in s.waiters && s.waiters[id].point !in {Taken, Failed}) then None
    else Some(With(s, id, Waiter(need, Top, 0, 0, cancelSeen)))
  }

  function Advanced(s: State, id: nat): Option<State> {
    if id !in s.waiters then None
    else
      var w := s.waiters[id];
      match w.point
      case Top => Some(With(s, id, w.(point := CreditWatched, creditSeen := s.creditGen)))
      case CreditWatched => Some(With(s, id, w.(point := ClosedWatched, closedSeen := s.closedGen)))
      case ClosedWatched => Some(With(s, id, w.(point := if s.canceled then Failed else NotCanceled)))
      case NotCanceled => Some(With(s, id, w.(point := if s.closed then Failed else NotClosed)))
      case NotClosed =>
        if s.available >= w.need then
          Some(With(s, id, w.(point := Taken)).(available := s.available - w.need))
        else Some(With(s, id, w.(point := Asleep)))
      case _ => None
  }

  /** Some branch of the `select!` of a sleeping waiter is ready. */
  predicate Ready(side: Side, s: State, w: Waiter) {
    w.creditSeen < s.creditGen || w.closedSeen < s.closedGen || (side.Host? && w.cancelSeen < s.cancelGen)
  }

  function Woken(side: Side, s: State, id: nat): Option<State> {
    if id !in s.waiters || s.waiters[id].point != Asleep || !Ready(side, s, s.waiters[id]) then None
    else Some(With(s, id, s.waiters[id].(point := Top, cancelSeen := s.cancelGen)))
  }

  function Apply(side: Side, s: State, action: Action): Option<State> {
    match action
    case Begin(id, need, cancelSeen) => Begun(s, id, need, cancelSeen)
    case Advance(id) => Advanced(s, id)
    case Wake(id) => Woken(side, s, id)
    case Grant(bytes) =>
      if AddCredit(s.available, bytes).None? then None
      else Some(s.(available := s.available + bytes, creditPending := s.creditPending + 1))
    case NotifyCredit =>
      if s.creditPending == 0 then None
      else Some(s.(creditGen := s.creditGen + 1, creditPending := s.creditPending - 1))
    case Cancel =>
      if side.Host? then Some(s.(canceled := true, cancelGen := s.cancelGen + 1))
      else Some(s.(canceled := true, creditPending := s.creditPending + 1))
    case Close(notifies) =>
      if !notifies && !s.closed then None
      else Some(s.(closed := true, closedPending := s.closedPending + if notifies then 1 else 0))
    case NotifyClosed =>
      if s.closedPending == 0 then None
      else Some(s.(closedGen := s.closedGen + 1, closedPending := s.closedPending - 1))
  }

  function Exec(side: Side, s: State, actions: seq<Action>): Option<State>
    decreases |actions|
  {
    if actions == [] then Some(s)
    else match Apply(side, s, actions[0])
      case None => None
      case Some(next) => Exec(side, next, actions[1..])
  }

  ghost predicate CreditNews(s: State, w: Waiter) { w.creditSeen < s.creditGen || s.creditPending > 0 }

  ghost predicate ClosedNews(s: State, w: Waiter) { w.closedSeen < s.closedGen || s.closedPending > 0 }

  ghost predicate CancelNews(side: Side, s: State, w: Waiter) {
    if side.Host? then w.cancelSeen < s.cancelGen else CreditNews(s, w)
  }

  /** What a waiter has found false may have become true only if news of it has reached it or is on its way. */
  ghost predicate Informed(side: Side, s: State, w: Waiter) {
    && w.cancelSeen <= s.cancelGen
    && (w.point !in {Top, Taken, Failed} ==> w.creditSeen <= s.creditGen)
    && (w.point !in {Top, CreditWatched, Taken, Failed} ==> w.closedSeen <= s.closedGen)
    && (w.point in {NotCanceled, NotClosed, Asleep} && s.canceled ==> CancelNews(side, s, w))
    && (w.point in {NotClosed, Asleep} && s.closed ==> ClosedNews(s, w))
    && (w.point == Asleep && s.available >= w.need ==> CreditNews(s, w))
  }

  ghost predicate Inv(side: Side, s: State) {
    forall id :: id in s.waiters ==> Informed(side, s, s.waiters[id])
  }

  /** Changing one waiter, and perhaps taking its credit, leaves the others informed. */
  lemma OthersStayInformed(side: Side, s: State, id: nat, w: Waiter, available: nat)
    requires Inv(side, s) && available <= s.available
    requires Informed(side, With(s, id, w).(available := available), w)
    ensures Inv(side, With(s, id, w).(available := available))
  {
    var next := With(s, id, w).(available := available);
    forall other | other in next.waiters ensures Informed(side, next, next.waiters[other]) {
      if other != id {
        assert Informed(side, s, s.waiters[other]);
      }
    }
  }

  lemma WaiterStepKeepsInv(side: Side, s: State, action: Action)
    requires Inv(side, s) && Apply(side, s, action).Some?
    requires action.Begin? || action.Advance? || action.Wake?
    ensures Inv(side, Apply(side, s, action).value)
  {
    var next := Apply(side, s, action).value;
    var id := action.id;
    var w := next.waiters[id];
    assert next == With(s, id, w).(available := next.available);
    assert id in s.waiters ==> Informed(side, s, s.waiters[id]);
    OthersStayInformed(side, s, id, w, next.available);
  }

  /** A change of the shared state leaves every waiter where it is and brings its news along. */
  lemma SharedStepKeepsInv(side: Side, s: State, action: Action)
    requires Inv(side, s) && Apply(side, s, action).Some?
    requires !(action.Begin? || action.Advance? || action.Wake?)
    ensures Inv(side, Apply(side, s, action).value)
  {
    var next := Apply(side, s, action).value;
    forall id | id in next.waiters ensures Informed(side, next, next.waiters[id]) {
      assert Informed(side, s, s.waiters[id]);
    }
  }

  lemma StepKeepsInv(side: Side, s: State, action: Action)
    requires Inv(side, s) && Apply(side, s, action).Some?
    ensures Inv(side, Apply(side, s, action).value)
  {
    hide Apply, Inv;
    if action.Begin? || action.Advance? || action.Wake? {
      WaiterStepKeepsInv(side, s, action);
    } else {
      SharedStepKeepsInv(side, s, action);
    }
  }

  lemma {:induction false} RunKeepsInv(side: Side, s: State, actions: seq<Action>)
    requires Inv(side, s) && Exec(side, s, actions).Some?
    ensures Inv(side, Exec(side, s, actions).value)
    decreases |actions|
  {
    hide Apply, Inv;
    if actions != [] {
      StepKeepsInv(side, s, actions[0]);
      RunKeepsInv(side, Apply(side, s, actions[0]).value, actions[1..]);
    }
  }

  /** No lost wake-up: in every reachable state without a pending notification, a sleeper that nothing will wake
      truly lacks credit, and neither its stream is canceled nor its connection closed. */
  lemma NoLostWakeup(side: Side, actions: seq<Action>, id: nat)
    requires Exec(side, INIT, actions).Some?
    requires var s := Exec(side, INIT, actions).value;
             && s.creditPending == 0 && s.closedPending == 0
             && id in s.waiters && s.waiters[id].point == Asleep && Apply(side, s, Wake(id)).None?
    ensures var s := Exec(side, INIT, actions).value;
            s.available < s.waiters[id].need && !s.canceled && !s.closed
  {
    RunKeepsInv(side, INIT, actions);
  }

  // ---- Accounts ----

  /** What was granted in a run. */
  function GrantedIn(actions: seq<Action>): nat {
    if actions == [] then 0 else (if actions[0].Grant? then actions[0].bytes else 0) + GrantedIn(actions[1..])
  }

  /** The waiter has just got through with its send. */
  ghost predicate Passes(s: State, next: State, id: nat) {
    id in next.waiters && next.waiters[id].point == Taken && !(id in s.waiters && s.waiters[id].point == Taken)
  }

  /** What the sends that got through in a run needed. */
  ghost function PassedIn(side: Side, s: State, actions: seq<Action>): nat
    requires Exec(side, s, actions).Some?
    decreases |actions|
  {
    if actions == [] then 0
    else
      var next := Apply(side, s, actions[0]).value;
      (if actions[0].Advance? && Passes(s, next, actions[0].id) then next.waiters[actions[0].id].need else 0)
      + PassedIn(side, next, actions[1..])
  }

  lemma StepIsAccounted(side: Side, s: State, action: Action)
    requires Apply(side, s, action).Some?
    ensures var next := Apply(side, s, action).value;
            var passed := if action.Advance? && Passes(s, next, action.id) then next.waiters[action.id].need else 0;
            && next.available + passed == s.available + (if action.Grant? then action.bytes else 0)
            && forall id :: Passes(s, next, id) ==> action == Advance(id)
  {
  }

  /** No send goes through on credit that was not granted, none is granted for nothing: over every run the credit and
      the needs of the sends that got through add up to the grants. */
  lemma {:induction false} GrantsAreAccounted(side: Side, s: State, actions: seq<Action>)
    requires Exec(side, s, actions).Some?
    ensures Exec(side, s, actions).value.available + PassedIn(side, s, actions) == s.available + GrantedIn(actions)
    decreases |actions|
  {
    hide Apply, Passes;
    if actions != [] {
      StepIsAccounted(side, s, actions[0]);
      GrantsAreAccounted(side, Apply(side, s, actions[0]).value, actions[1..]);
    }
  }

  /** The stream is canceled, and the connection closed, exactly if that has happened. */
  lemma {:induction false} EndsAreRecorded(side: Side, s: State, actions: seq<Action>)
    requires Exec(side, s, actions).Some?
    ensures var end := Exec(side, s, actions).value;
            && (end.canceled <==> s.canceled || Cancel in actions)
            && (end.closed <==> s.closed || Close(true) in actions)
    decreases |actions|
  {
    if actions != [] {
      EndsAreRecorded(side, Apply(side, s, actions[0]).value, actions[1..]);
    }
  }

  /** How many steps a waiter takes from the top of its loop. */
  function Turn(s: State): nat { if s.canceled then 3 else if s.closed then 4 else 5 }

  lemma {:induction false} Advances(side: Side, s: State, id: nat, states: seq<State>)
    requires |states| > 0 && states[0] == s
    requires forall i :: 0 <= i < |states| - 1 ==> Apply(side, states[i], Advance(id)) == Some(states[i + 1])
    ensures Exec(side, s, seq(|states| - 1, _ => Advance(id))) == Some(states[|states| - 1])
    decreases |states|
  {
    hide Apply;
    var actions := seq(|states| - 1, _ => Advance(id));
    if |states| > 1 {
      Advances(side, states[1], id, states[1..]);
      assert actions[1..] == seq(|states| - 2, _ => Advance(id));
    }
  }

  /** One turn of the loop, undisturbed: an error if the stream is canceled or the connection closed, otherwise the
      credit is taken exactly if it covers the need, and the waiter falls asleep if it does not. */
  lemma TurnDecides(side: Side, s: State, id: nat)
    requires id in s.waiters && s.waiters[id].point == Top
    ensures var end := Exec(side, s, seq(Turn(s), _ => Advance(id)));
            && end.Some? && id in end.value.waiters && end.value.waiters[id].need == s.waiters[id].need
            && end.value.waiters[id].point
               == (if s.canceled || s.closed then Failed
                   else if s.waiters[id].need <= s.available then Taken else Asleep)
            && end.value.available
               == s.available - (if !s.canceled && !s.closed && s.waiters[id].need <= s.available
                                 then s.waiters[id].need else 0)
            && forall other :: other != id && other in s.waiters ==>
                 other in end.value.waiters && end.value.waiters[other] == s.waiters[other]
  {
    var s1 := Advanced(s, id).value;
    var s2 := Advanced(s1, id).value;
    var s3 := Advanced(s2, id).value;
    if s.canceled {
      Advances(side, s, id, [s, s1, s2, s3]);
    } else {
      var s4 := Advanced(s3, id).value;
      if s.closed {
        Advances(side, s, id, [s, s1, s2, s3, s4]);
      } else {
        var s5 := Advanced(s4, id).value;
        Advances(side, s, id, [s, s1, s2, s3, s4, s5]);
      }
    }
  }

  /** At its last check a waiter takes the credit if that covers its need and falls asleep otherwise, whatever else has
      happened since it began. */
  lemma LastCheckDecides(side: Side, s: State, id: nat)
    requires id in s.waiters && s.waiters[id].point == NotClosed
    ensures var next := Apply(side, s, Advance(id));
            && next.Some? && id in next.value.waiters
            && next.value.waiters[id].point == (if s.waiters[id].need <= s.available then Taken else Asleep)
            && next.value.available + (if s.waiters[id].need <= s.available then s.waiters[id].need else 0)
               == s.available
  {
  }

  /** A task may begin to wait for up to 16 MiB, and a grant is accepted exactly if it is not empty and the credit stays
      within 16 MiB. */
  lemma WhatIsAccepted(side: Side, s: State, id: nat, need: nat, bytes: nat)
    ensures id !in s.waiters && 1 <= need <= 16777216 ==>
              Apply(side, s, Begin(id, need, s.cancelGen)) == Some(With(s, id, Waiter(need, Top, 0, 0, s.cancelGen)))
    ensures Apply(side, s, Grant(bytes)).Some? <==> bytes > 0 && s.available + bytes <= 16777216
  {
  }

  /** Notifications that are delivered. */
  predicate Notifies(action: Action) { action.NotifyCredit? || action.NotifyClosed? || action.Cancel? }

  /** Only notifications wake: a sleeper that has seen all of them stays asleep while none is delivered. */
  lemma {:induction false} OnlyNotificationsWake(side: Side, s: State, actions: seq<Action>, id: nat)
    requires id in s.waiters && s.waiters[id].point == Asleep && Exec(side, s, actions).Some?
    requires s.waiters[id].creditSeen == s.creditGen && s.waiters[id].closedSeen == s.closedGen
    requires s.waiters[id].cancelSeen == s.cancelGen && forall action :: action in actions ==> !Notifies(action)
    ensures var end := Exec(side, s, actions).value;
            id in end.waiters && end.waiters[id] == s.waiters[id]
    decreases |actions|
  {
    if actions != [] {
      var next := Apply(side, s, actions[0]).value;
      assert !Notifies(actions[0]);
      OnlyNotificationsWake(side, next, actions[1..], id);
    }
  }

  /** Everybody who sleeps is woken by a notification of credit, and by one of the end of the connection. */
  lemma NotificationsWakeEveryone(side: Side, s: State, action: Action, id: nat)
    requires Inv(side, s) && id in s.waiters && s.waiters[id].point == Asleep && Apply(side, s, action).Some?
    requires action == NotifyCredit || action == NotifyClosed || (side.Host? && action == Cancel)
    ensures var next := Apply(side, s, action).value;
            var woken := Apply(side, next, Wake(id));
            woken.Some? && woken.value.waiters[id].point == Top
  {
    assert Informed(side, s, s.waiters[id]);
  }

  /** The same loop with the checks before the subscriptions. */
  function AdvancedLate(s: State, id: nat): Option<State> {
    if id !in s.waiters then None
    else
      var w := s.waiters[id];
      match w.point
      case Top => Some(With(s, id, w.(point := if s.canceled then Failed else NotCanceled)))
      case NotCanceled => Some(With(s, id, w.(point := if s.closed then Failed else NotClosed)))
      case NotClosed =>
        if s.available >= w.need then
          Some(With(s, id, w.(point := Taken)).(available := s.available - w.need))
        else Some(With(s, id, w.(point := CreditWatched)))
      case CreditWatched => Some(With(s, id, w.(point := ClosedWatched, creditSeen := s.creditGen)))
      case ClosedWatched => Some(With(s, id, w.(point := Asleep, closedSeen := s.closedGen)))
      case _ => None
  }

  function ApplyLate(side: Side, s: State, action: Action): Option<State> {
    if action.Advance? then AdvancedLate(s, action.id) else Apply(side, s, action)
  }

  function ExecLate(side: Side, s: State, actions: seq<Action>): Option<State>
    decreases |actions|
  {
    if actions == [] then Some(s)
    else match ApplyLate(side, s, actions[0])
      case None => None
      case Some(next) => ExecLate(side, next, actions[1..])
  }

  /** Runs the actions one after the other. */
  lemma {:induction false} ExecLateAll(side: Side, s: State, actions: seq<Action>, states: seq<State>)
    requires |states| == |actions| + 1 && states[0] == s
    requires forall i :: 0 <= i < |actions| ==> ApplyLate(side, states[i], actions[i]) == Some(states[i + 1])
    ensures ExecLate(side, s, actions) == Some(states[|actions|])
    decreases |actions|
  {
    hide ApplyLate;
    if actions != [] {
      ExecLateAll(side, states[1], actions[1..], states[1..]);
    }
  }

  /** The guarantee rests on subscribing first: checking first has a run, on either side, that ends with a sleeper
      nothing will wake although its credit is there. */
  lemma CheckingFirstLosesWakeup(side: Side, need: nat) returns (actions: seq<Action>, s: State)
    requires 1 <= need <= MAX_FLOW_CREDIT
    ensures ExecLate(side, INIT, actions) == Some(s)
    ensures s.creditPending == 0 && s.closedPending == 0 && 0 in s.waiters && s.waiters[0].point == Asleep
    ensures Apply(side, s, Wake(0)).None? && s.available >= s.waiters[0].need
  {
    var w := Waiter(need, Top, 0, 0, 0);
    var s1 := With(INIT, 0, w);
    var s2 := With(s1, 0, w.(point := NotCanceled));
    var s3 := With(s2, 0, w.(point := NotClosed));
    var s4 := With(s3, 0, w.(point := CreditWatched));
    var s5 := s4.(available := need, creditPending := 1);
    var s6 := s5.(creditGen := 1, creditPending := 0);
    var s7 := With(s6, 0, w.(point := ClosedWatched, creditSeen := 1));
    s := With(s7, 0, w.(point := Asleep, creditSeen := 1));
    actions := [Begin(0, need, 0), Advance(0), Advance(0), Advance(0), Grant(need), NotifyCredit, Advance(0),
                Advance(0)];
    ExecLateAll(side, INIT, actions, [INIT, s1, s2, s3, s4, s5, s6, s7, s]);
  }
}
