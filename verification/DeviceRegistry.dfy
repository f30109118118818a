/** The table of connected devices: registrations replace sessions, monitors clean up after closed ones. */
module DeviceRegistry {
  import opened Wrappers

  type DeviceId = string

  /** Sessions are numbered in the order they enter the table.
      `sessions`: the device of every session ever registered. `replaced`: registrations that have entered the table
      and not yet looked at the session they found there. `closing`: replaced sessions whose close is on its way.
      `cleaned`: sessions whose monitor has run. */
  datatype State = State(sessions: seq<DeviceId>, closed: set<nat>, devices: map<DeviceId, nat>,
                         replaced: map<nat, Option<nat>>, closing: set<nat>, cleaned: set<nat>)

  datatype Action =
    | Insert(id: DeviceId, alreadyClosed: bool)
    | Settle(session: nat)
    | CloseReplaced(session: nat)
    | Close(session: nat)
    | CleanUp(session: nat)

  const INIT := State([], {}, map[], map[], {}, {})

  function Entry(devices: map<DeviceId, nat>, id: DeviceId): Option<nat> {
    if id in devices then Some(devices[id]) else None
  }

  /** `remove_device_if_same` on the table. */
  function WithoutIfSame(devices: map<DeviceId, nat>, id: DeviceId, session: nat): map<DeviceId, nat> {
    if Entry(devices, id) == Some(session) then devices - {id} else devices
  }

  /** The two halves of `register_device` (the insertion under the lock; the look at the replaced session and the
      spawned tasks), the spawned close, any other reason to close, and a monitor that has seen its session closed. */
  function Apply(s: State, action: Action): Option<State> {
    match action
    case Insert(id, alreadyClosed) =>
      var session := |s.sessions|;
      Some(s.(sessions := s.sessions + [id], devices := s.devices[id := session],
              closed := if alreadyClosed then s.closed + {session} else s.closed,
              replaced := s.replaced[session := Entry(s.devices, id)]))
    case Settle(session) =>
      if session !in s.replaced then None
      else
        var previous := s.replaced[session];
        Some(s.(replaced := s.replaced - {session},
                closing := if previous.Some? && previous.value != session && previous.value !in s.closed
                           then s.closing + {previous.value} else s.closing))
    case CloseReplaced(session) =>
      if session !in s.closing then None
      else Some(s.(closing := s.closing - {session}, closed := s.closed + {session}))
    case Close(session) =>
      if session >= |s.sessions| then None else Some(s.(closed := s.closed + {session}))
    case CleanUp(session) =>
      if session >= |s.sessions| || session in s.replaced || session !in s.closed || session in s.cleaned then None
      else Some(s.(cleaned := s.cleaned + {session},
                   devices := WithoutIfSame(s.devices, s.sessions[session], session)))
  }

  function Exec(s: State, actions: seq<Action>): Option<State>
    decreases |actions|
  {
    if actions == [] then Some(s)
    else match Apply(s, actions[0])
      case None => None
      case Some(next) => Exec(next, actions[1..])
  }

  predicate IsLatest(sessions: seq<DeviceId>, session: nat) {
    session < |sessions| && forall later :: session < later < |sessions| ==> sessions[later] != sessions[session]
  }

  ghost predicate InRange(s: State) {
    && (forall i :: i in s.closed ==> i < |s.sessions|)
    && (forall i :: i in s.replaced ==> i < |s.sessions|)
    && (forall i :: i in s.cleaned ==> i < |s.sessions|)
    && (forall i :: i in s.closing ==> i < |s.sessions| && !IsLatest(s.sessions, i))
    && (forall i :: i in s.replaced && s.replaced[i].Some? ==>
          s.replaced[i].value < i && s.sessions[s.replaced[i].value] == s.sessions[i])
  }

  /** An entry is the newest session of its device. */
  ghost predicate EntriesAreLatest(s: State) {
    forall id :: id in s.devices ==>
      && s.devices[id] < |s.sessions| && s.sessions[s.devices[id]] == id
      && IsLatest(s.sessions, s.devices[id])
  }

  /** The newest session of a device is in the table unless its monitor has run, and only closed ones are cleaned. */
  ghost predicate MissingAreCleaned(s: State) {
    forall i :: 0 <= i < |s.sessions| && IsLatest(s.sessions, i) ==>
      if i in s.cleaned then i in s.closed && s.sessions[i] !in s.devices
      else Entry(s.devices, s.sessions[i]) == Some(i)
  }

  ghost predicate CloseIsDue(s: State, i: nat) {
    i in s.closed || i in s.closing || exists newer :: newer in s.replaced && s.replaced[newer] == Some(i)
  }

  /** Every session that is not the newest of its device is closed, or will be. */
  ghost predicate OldOnesClose(s: State) {
    forall i :: 0 <= i < |s.sessions| && !IsLatest(s.sessions, i) ==> CloseIsDue(s, i)
  }

  ghost predicate Inv(s: State) {
    InRange(s) && EntriesAreLatest(s) && MissingAreCleaned(s) && OldOnesClose(s)
  }

  lemma InsertMakesLatest(sessions: seq<DeviceId>, id: DeviceId, i: nat)
    requires i <= |sessions|
    ensures IsLatest(sessions + [id], i) <==> i == |sessions| || (IsLatest(sessions, i) && sessions[i] != id)
  {
    if i < |sessions| {
      assert (sessions + [id])[|sessions|] == id;
      if IsLatest(sessions + [id], i) {
        forall later | i < later < |sessions| ensures sessions[later] != sessions[i] {
          assert (sessions + [id])[later] == sessions[later];
        }
      }
    }
  }

  lemma InsertKeepsInv(s: State, id: DeviceId, alreadyClosed: bool)
    requires Inv(s)
    ensures Inv(Apply(s, Insert(id, alreadyClosed)).value)
  {
    hide IsLatest;
    var next := Apply(s, Insert(id, alreadyClosed)).value;
    var session := |s.sessions|;
    forall i | 0 <= i <= session
      ensures IsLatest(next.sessions, i) <==> i == session || (IsLatest(s.sessions, i) && s.sessions[i] != id)
    {
      InsertMakesLatest(s.sessions, id, i);
    }
    forall i | 0 <= i < |next.sessions| && !IsLatest(next.sessions, i) ensures CloseIsDue(next, i) {
      if IsLatest(s.sessions, i) {
        assert i !in s.cleaned ==> next.replaced[session] == Some(i);
      } else {
        assert CloseIsDue(s, i);
        if newer :| newer in s.replaced && s.replaced[newer] == Some(i) {
          assert next.replaced[newer] == Some(i);
        }
      }
    }
    assert InRange(next);
  }

  lemma OldOnesStillClose(s: State, action: Action)
    requires InRange(s) && OldOnesClose(s) && !action.Insert? && Apply(s, action).Some?
    ensures OldOnesClose(Apply(s, action).value)
  {
    hide IsLatest;
    var next := Apply(s, action).value;
    forall i | 0 <= i < |next.sessions| && !IsLatest(next.sessions, i) ensures CloseIsDue(next, i) {
      assert CloseIsDue(s, i);
      if i !in s.closed && i !in s.closing {
        var newer :| newer in s.replaced && s.replaced[newer] == Some(i);
        assert newer in next.replaced || i in next.closing;
      }
    }
  }

  lemma OtherStepsKeepInv(s: State, action: Action)
    requires Inv(s) && !action.Insert? && Apply(s, action).Some?
    ensures Inv(Apply(s, action).value)
  {
    hide IsLatest, OldOnesClose;
    OldOnesStillClose(s, action);
    if action.Settle? && s.replaced[action.session].Some? {
      ReplacedIsOld(s, action.session);
    }
  }

  lemma ReplacedIsOld(s: State, session: nat)
    requires InRange(s) && session in s.replaced && s.replaced[session].Some?
    ensures !IsLatest(s.sessions, s.replaced[session].value)
  {
    assert s.sessions[session] == s.sessions[s.replaced[session].value];
  }

  lemma {:induction false} RunKeepsInv(s: State, actions: seq<Action>)
    requires Inv(s) && Exec(s, actions).Some?
    ensures Inv(Exec(s, actions).value)
    decreases |actions|
  {
    hide Apply, Inv;
    if actions != [] {
      if actions[0].Insert? {
        InsertKeepsInv(s, actions[0].id, actions[0].alreadyClosed);
      } else {
        OtherStepsKeepInv(s, actions[0]);
      }
      RunKeepsInv(Apply(s, actions[0]).value, actions[1..]);
    }
  }

  /** Over every run, the entry of a device is its newest session or there is none; there is none only if no session
      was ever registered or the newest one is closed. */
  lemma EntryIsLatestOrClosed(actions: seq<Action>, id: DeviceId)
    requires Exec(INIT, actions).Some?
    ensures var s := Exec(INIT, actions).value;
            match Entry(s.devices, id)
            case Some(i) => IsLatest(s.sessions, i) && s.sessions[i] == id
            case None =>
              forall i :: 0 <= i < |s.sessions| && IsLatest(s.sessions, i) && s.sessions[i] == id ==> i in s.closed
  {
    hide Apply, Exec, IsLatest;
    RunKeepsInv(INIT, actions);
  }

  /** A monitor removes exactly its own session: with a newer one registered it changes nothing in the table. */
  lemma StaleMonitorsChangeNothing(actions: seq<Action>, session: nat)
    requires Exec(INIT, actions).Some? && Apply(Exec(INIT, actions).value, CleanUp(session)).Some?
    ensures var s := Exec(INIT, actions).value;
            var next := Apply(s, CleanUp(session)).value;
            if IsLatest(s.sessions, session)
            then s.sessions[session] in s.devices && next.devices == s.devices - {s.sessions[session]}
            else next.devices == s.devices
  {
    hide Exec, IsLatest;
    RunKeepsInv(INIT, actions);
  }

  /** Replacing closes old sessions only, never the newest of a device. */
  lemma ReplacingSparesTheNewest(actions: seq<Action>, session: nat)
    requires Exec(INIT, actions).Some? && Apply(Exec(INIT, actions).value, CloseReplaced(session)).Some?
    ensures var sessions := Exec(INIT, actions).value.sessions; session < |sessions| && !IsLatest(sessions, session)
  {
    hide Exec, IsLatest;
    RunKeepsInv(INIT, actions);
  }

  lemma StepCloses(s: State, action: Action)
    requires Apply(s, action).Some?
    ensures var next := Apply(s, action).value;
            && (forall i :: 0 <= i < |s.sessions| && InRange(s) ==>
                  (i in next.closed <==> i in s.closed || action == Close(i) || action == CloseReplaced(i)))
            && (action.Insert? ==>
                  next.sessions == s.sessions + [action.id] && (InRange(s) ==>
                  (|s.sessions| in next.closed <==> action.alreadyClosed)))
            && (!action.Insert? ==> next.sessions == s.sessions)
  {
  }

  /** A session that is registered is closed exactly if it was then, or has been closed since, by itself or because it
      was replaced. */
  lemma {:induction false} ClosingIsExact(s: State, actions: seq<Action>, i: nat)
    requires Inv(s) && Exec(s, actions).Some? && i < |s.sessions|
    ensures i in Exec(s, actions).value.closed
       <==> i in s.closed || Close(i) in actions || CloseReplaced(i) in actions
    decreases |actions|
  {
    if actions != [] {
      var next := Apply(s, actions[0]).value;
      StepCloses(s, actions[0]);
      var single := actions[..1];
      assert single[0] == actions[0] && single[1..] == [];
      assert Exec(s, single) == Exec(next, []);
      RunKeepsInv(s, single);
      hide Apply, IsLatest, OldOnesClose;
      ClosingIsExact(next, actions[1..], i);
    }
  }

  /** Steps the program takes by itself once registrations and failures stop. */
  predicate Internal(action: Action) {
    action.Settle? || action.CloseReplaced? || action.CleanUp?
  }

  ghost predicate Quiet(s: State) {
    forall action :: Internal(action) ==> Apply(s, action).None?
  }

  /** When nothing is left to do, the table holds exactly the sessions that are not closed, and those are the newest
      of their devices: one live session per device. */
  lemma QuietTableIsExact(actions: seq<Action>)
    requires Exec(INIT, actions).Some? && Quiet(Exec(INIT, actions).value)
    ensures var s := Exec(INIT, actions).value;
            && (forall i :: 0 <= i < |s.sessions| ==> (i !in s.closed <==> Entry(s.devices, s.sessions[i]) == Some(i)))
            && (forall i :: 0 <= i < |s.sessions| && i !in s.closed ==> IsLatest(s.sessions, i))
            && (forall id :: id in s.devices ==> s.devices[id] < |s.sessions| && s.sessions[s.devices[id]] == id)
  {
    hide Exec, IsLatest;
    RunKeepsInv(INIT, actions);
    var s := Exec(INIT, actions).value;
    forall i: nat ensures i !in s.replaced {
      assert Apply(s, Settle(i)).None?;
    }
    forall i | 0 <= i < |s.sessions|
      ensures i !in s.closed <==> Entry(s.devices, s.sessions[i]) == Some(i)
      ensures i !in s.closed ==> IsLatest(s.sessions, i)
    {
      assert Apply(s, CloseReplaced(i)).None? && Apply(s, CleanUp(i)).None?;
      if !IsLatest(s.sessions, i) {
        assert CloseIsDue(s, i);
      }
    }
  }

  ghost function ToClean(s: State): set<nat> { s.closed - s.cleaned }

  ghost function WorkLeft(s: State): nat {
    3 * |s.replaced.Keys| + 2 * |s.closing| + |ToClean(s)|
  }

  lemma Smaller(small: set<nat>, big: set<nat>, x: nat)
    requires x in big && small == big - {x}
    ensures |small| == |big| - 1
  {
    assert big == small + {x};
  }

  lemma AtMostOneMore(big: set<nat>, small: set<nat>, x: nat)
    requires big <= small + {x}
    ensures |big| <= |small| + 1
  {
    CardinalityGrows(big, small + {x});
    if x in small {
      assert small + {x} == small;
    }
  }

  lemma {:induction false} CardinalityGrows(small: set<nat>, big: set<nat>)
    requires small <= big
    ensures |small| <= |big|
  {
    if small != {} {
      var x :| x in small;
      CardinalityGrows(small - {x}, big - {x});
    }
  }

  /** The clean-up ends: every internal step uses up some of the work that is left. */
  lemma InternalStepsRunOut(s: State, action: Action)
    requires Internal(action) && Apply(s, action).Some?
    ensures WorkLeft(Apply(s, action).value) < WorkLeft(s)
  {
    var next := Apply(s, action).value;
    match action
    case Settle(session) =>
      Smaller(next.replaced.Keys, s.replaced.Keys, session);
      var previous := s.replaced[session];
      AtMostOneMore(next.closing, s.closing, if previous.Some? then previous.value else session);
    case CloseReplaced(session) =>
      Smaller(next.closing, s.closing, session);
      AtMostOneMore(ToClean(next), ToClean(s), session);
    case CleanUp(session) =>
      Smaller(ToClean(next), ToClean(s), session);
  }

  // ---- Heartbeat ----

  const HEARTBEAT_MAX_MISSES := 3

  /** One round of the heartbeat: the connection found closed, an answer, an error, no answer in time. */
  datatype Beat = FoundClosed | Answered | Refused(closed: bool) | TimedOut

  datatype Verdict = Watching | EndsAt(round: nat) | ClosesAt(round: nat)

  predicate Ends(beat: Beat) { beat.FoundClosed? || (beat.Refused? && beat.closed) }

  predicate Missed(beat: Beat) { beat.TimedOut? || (beat.Refused? && !beat.closed) }

  /** A missed round is one without an answer in time or with an error on an open connection; an error on a closed one
      ends the heartbeat, as finding it closed does, and nothing but an answer is neither. */
  lemma BeatsByKind(beat: Beat)
    ensures Missed(beat) <==> beat in {TimedOut, Refused(false)}
    ensures Ends(beat) <==> beat in {FoundClosed, Refused(true)}
    ensures !Missed(beat) && !Ends(beat) <==> beat == Answered
  {
  }

  /** The round and the two before it were all missed. */
  predicate Silent(beats: seq<Beat>, round: nat)
    requires round < |beats|
  {
    round >= 2 && Missed(beats[round - 2]) && Missed(beats[round - 1]) && Missed(beats[round])
  }

  predicate QuietUpTo(beats: seq<Beat>, rounds: nat)
    requires rounds <= |beats|
  {
    forall k :: 0 <= k < rounds ==> !Ends(beats[k]) && !Silent(beats, k)
  }

  /** `device_heartbeat`: the session is closed at the first round that completes a silence, unless its connection is
      found closed before. */
  method Heartbeat(beats: seq<Beat>) returns (verdict: Verdict)
    ensures match verdict
            case Watching => QuietUpTo(beats, |beats|)
            case EndsAt(round) => round < |beats| && QuietUpTo(beats, round) && Ends(beats[round])
            case ClosesAt(round) =>
              round < |beats| && QuietUpTo(beats, round) && !Ends(beats[round]) && Silent(beats, round)
  {
    var misses := 0;
    for round := 0 to |beats|
      invariant QuietUpTo(beats, round)
      invariant 0 <= misses < HEARTBEAT_MAX_MISSES && misses <= round
      invariant forall i :: round - misses <= i < round ==> Missed(beats[i])
      invariant misses < round ==> !Missed(beats[round - misses - 1])
    {
      match beats[round] {
        case FoundClosed => return EndsAt(round);
        case Answered => misses := 0;
        case Refused(closed) =>
          if closed {
            return EndsAt(round);
          }
          misses := misses + 1;
        case TimedOut => misses := misses + 1;
      }
      if misses >= HEARTBEAT_MAX_MISSES {
        return ClosesAt(round);
      }
      assert !Silent(beats, round);
    }
    return Watching;
  }

  /** The shared table, changed in place. */
  class DeviceMap {
    var devices: map<DeviceId, nat>

    ghost function View(s: State): State
      reads this
    {
      s.(devices := devices)
    }

    constructor ()
      ensures devices == map[]
    {
      devices := map[];
    }

    /** `register_device`: whether the session it found has to be closed. */
    method RegisterDevice(id: DeviceId, session: nat, closed: set<nat>) returns (close: Option<nat>)
      modifies this
      ensures forall s: State :: |s.sessions| == session && s.closed == closed && session !in s.replaced ==>
                Exec(old(View(s)), [Insert(id, session in closed), Settle(session)])
                == Some(View(s).(sessions := s.sessions + [id],
                                 closing := if close.Some? then s.closing + {close.value} else s.closing))
      ensures close.Some? ==> close == Entry(old(devices), id) && close.value !in closed
    {
      var previous := Entry(devices, id);
      devices := devices[id := session];
      close := if previous.Some? && previous.value != session && previous.value !in closed then previous else None;
      forall s: State | |s.sessions| == session && s.closed == closed && session !in s.replaced
        ensures Exec(old(View(s)), [Insert(id, session in closed), Settle(session)])
             == Some(View(s).(sessions := s.sessions + [id],
                              closing := if close.Some? then s.closing + {close.value} else s.closing))
      {
        var first := Apply(old(View(s)), Insert(id, session in closed)).value;
        assert first.replaced - {session} == s.replaced;
        assert first.closed == closed;
        var second := Apply(first, Settle(session)).value;
        assert [Insert(id, session in closed), Settle(session)][1..] == [Settle(session)];
        assert Exec(first, [Settle(session)]) == Some(second);
      }
    }

    /** `remove_device_if_same`. */
    method RemoveDeviceIfSame(id: DeviceId, session: nat) returns (removed: bool)
      modifies this
      ensures forall s: State :: Apply(s, CleanUp(session)).Some? && s.sessions[session] == id ==>
                Apply(old(View(s)), CleanUp(session)) == Some(View(s).(cleaned := s.cleaned + {session}))
      ensures removed <==> Entry(old(devices), id) == Some(session)
    {
      removed := id in devices && devices[id] == session;
      if removed {
        devices := devices - {id};
      }
    }
  }
}
