/** Pairing connections against the PIN file: the commit section runs under a lock, everything else does not. */
module PairingCommit {
  import opened Wrappers

  const MAX_PIN_FAILURES := 5

  /** The PIN file. Every generation gets a serial number, which the program itself does not see: two generations
      may well carry the same PIN. */
  datatype PinFile = PinFile(pin: string, until: nat, serial: nat)

  /** A connection: it has read a PIN for its banner, waits for or holds the commit lock, has passed the second look
      at the file, has stored the host. */
  datatype Connection =
    | Started(pin: string) | Locked(pin: string) | Checked(pin: string, serial: nat) | Stored(serial: nat)

  /** What became of the file after a host was stored: the removal is still to come, it worked, it failed, or storing
      ended in an error after the host was written, and no removal was tried. */
  datatype Fate = Pending | Removed | RemovalFailed | StoreFailed

  /** A stored pairing: the generation that authorised it and what became of the file. */
  datatype Commit = Commit(serial: nat, fate: Fate)

  datatype State = State(file: Option<PinFile>, generated: nat, connections: map<nat, Connection>,
                         commits: seq<Commit>, currentPin: Option<string>, failures: nat)

  datatype Action =
    | Generate(pin: string, until: nat)
    | Connect(id: nat, now: nat)
    | Lock(id: nat)
    | Check(id: nat, now: nat)
    | Store(id: nat)
    | StoreThenFail(id: nat)
    | Remove(id: nat, succeeds: bool)
    | GiveUp(id: nat)
    | RecordFailure(now: nat, removes: bool)
    | ClearSuccess
    | Disappear

  const INIT := State(None, 0, map[], [], None, 0)

  predicate IsPin(pin: string) { |pin| == 6 && forall i :: 0 <= i < 6 ==> '0' <= pin[i] <= '9' }

  /** `pairing_pin`: the PIN of a file that is there, well formed and not expired. */
  function ActivePin(file: Option<PinFile>, now: nat): Option<string> {
    match file
    case None => None
    case Some(f) => if now > f.until || !IsPin(f.pin) then None else Some(f.pin)
  }

  /** The commit lock is taken from the second look at the file to the end of the section. */
  ghost predicate LockFree(s: State) {
    forall id :: id in s.connections ==> s.connections[id].Started?
  }

  ghost function Apply(s: State, action: Action): Option<State> {
    match action
    case Generate(pin, until) =>
      Some(s.(file := Some(PinFile(pin, until, s.generated)), generated := s.generated + 1))
    case Connect(id, now) =>
      if id in s.connections || ActivePin(s.file, now).None? then None
      else Some(s.(connections := s.connections[id := Started(ActivePin(s.file, now).value)]))
    case Lock(id) =>
      if id !in s.connections || !LockFree(s) then None
      else Some(s.(connections := s.connections[id := Locked(s.connections[id].pin)]))
    case Check(id, now) =>
      if id !in s.connections || !s.connections[id].Locked? || ActivePin(s.file, now) != Some(s.connections[id].pin)
      then None
      else Some(s.(connections := s.connections[id := Checked(s.connections[id].pin, s.file.value.serial)]))
    case Store(id) =>
      if id !in s.connections || !s.connections[id].Checked? then None
      else
        var serial := s.connections[id].serial;
        Some(s.(connections := s.connections[id := Stored(serial)], commits := s.commits + [Commit(serial, Pending)]))
    case StoreThenFail(id) =>
      if id !in s.connections || !s.connections[id].Checked? then None
      else
        Some(s.(connections := s.connections - {id},
                commits := s.commits + [Commit(s.connections[id].serial, StoreFailed)]))
    case Remove(id, succeeds) =>
      if id !in s.connections || !s.connections[id].Stored? || s.commits == [] then None
      else
        var last := |s.commits| - 1;
        Some(s.(connections := s.connections - {id}, file := if succeeds then None else s.file,
                commits := s.commits[last := s.commits[last].(fate := if succeeds then Removed else RemovalFailed)]))
    case GiveUp(id) =>
      // Errors, the time limit and a check that fails, before anything is stored; nothing can come between storing
      // and removing.
      if id !in s.connections || s.connections[id].Stored? then None
      else Some(s.(connections := s.connections - {id}))
    case RecordFailure(now, removes) =>
      (match ActivePin(s.file, now)
       case None => Some(s)
       case Some(pin) =>
         var failures := (if s.currentPin == Some(pin) then s.failures else 0) + 1;
         if failures >= MAX_PIN_FAILURES then
           Some(s.(file := if removes then None else s.file, currentPin := None, failures := 0))
         else Some(s.(currentPin := Some(pin), failures := failures)))
    case ClearSuccess => Some(s.(currentPin := None, failures := 0))
    case Disappear => Some(s.(file := None))
  }

  ghost function Exec(s: State, actions: seq<Action>): Option<State>
    decreases |actions|
  {
    if actions == [] then Some(s)
    else match Apply(s, actions[0])
      case None => None
      case Some(next) => Exec(next, actions[1..])
  }

  /** A pairing whose removal succeeded has used up its generation: the generation is older than anything a later
      pairing or the file can stand for. */
  ghost predicate UsesUp(s: State, i: nat)
    requires i < |s.commits|
  {
    s.commits[i].fate == Removed ==>
      && (forall j :: i < j < |s.commits| ==> s.commits[i].serial < s.commits[j].serial)
      && (s.file.Some? ==> s.commits[i].serial < s.file.value.serial)
      && (forall id :: id in s.connections && s.connections[id].Checked? ==>
            s.commits[i].serial < s.connections[id].serial)
  }

  /** Serial numbers of pairings, of a passed check and of the file never go back. */
  ghost predicate Ordered(s: State) {
    && (s.file.Some? ==> s.file.value.serial < s.generated)
    && (forall i :: 0 <= i < |s.commits| ==> s.commits[i].serial < s.generated)
    && (forall i, j :: 0 <= i < j < |s.commits| ==> s.commits[i].serial <= s.commits[j].serial)
    && (forall i :: 0 <= i < |s.commits| && s.file.Some? ==> s.commits[i].serial <= s.file.value.serial)
    && (forall id :: id in s.connections && s.connections[id].Checked? ==>
          && s.connections[id].serial < s.generated
          && (s.file.Some? ==> s.connections[id].serial <= s.file.value.serial)
          && (forall i :: 0 <= i < |s.commits| ==> s.commits[i].serial <= s.connections[id].serial))
  }

  /** The lock is held once, and only its holder can have stored a pairing without having tried to remove the file. */
  ghost predicate Exclusive(s: State) {
    && (forall a, b :: a in s.connections && b in s.connections && a != b ==>
          s.connections[a].Started? || s.connections[b].Started?)
    && (forall id :: id in s.connections && s.connections[id].Stored? ==>
          |s.commits| > 0 && s.commits[|s.commits| - 1] == Commit(s.connections[id].serial, Pending))
  }

  /** Only a pairing being committed is still pending. */
  ghost predicate Settled(s: State) {
    forall i :: 0 <= i < |s.commits| && s.commits[i].fate == Pending ==>
      i == |s.commits| - 1 && exists id :: id in s.connections && s.connections[id].Stored?
  }

  ghost predicate Inv(s: State) {
    Ordered(s) && Exclusive(s) && Settled(s) && forall i :: 0 <= i < |s.commits| ==> UsesUp(s, i)
  }

  lemma StepKeepsExclusive(s: State, action: Action)
    requires Exclusive(s) && Apply(s, action).Some?
    ensures Exclusive(Apply(s, action).value)
  {
  }

  lemma StepKeepsSettled(s: State, action: Action)
    requires Settled(s) && Exclusive(s) && Apply(s, action).Some?
    ensures Settled(Apply(s, action).value)
  {
    var next := Apply(s, action).value;
    forall i | 0 <= i < |next.commits| && next.commits[i].fate == Pending
      ensures i == |next.commits| - 1 && exists id :: id in next.connections && next.connections[id].Stored?
    {
      if action.Store? {
        assert action.id in next.connections && next.connections[action.id].Stored?;
      } else {
        var id :| id in s.connections && s.connections[id].Stored?;
        assert id in next.connections && next.connections[id].Stored?;
      }
    }
  }

  lemma StepKeepsOrdered(s: State, action: Action)
    requires Ordered(s) && Exclusive(s) && Apply(s, action).Some?
    ensures Ordered(Apply(s, action).value)
  {
    hide LockFree, IsPin, Settled, UsesUp;
  }

  lemma StepKeepsUsesUp(s: State, action: Action, i: nat)
    requires Inv(s) && Apply(s, action).Some? && i < |Apply(s, action).value.commits|
    ensures UsesUp(Apply(s, action).value, i)
  {
    if i < |s.commits| {
      assert UsesUp(s, i);
    }
  }

  lemma {:induction false} RunKeepsInv(s: State, actions: seq<Action>)
    requires Inv(s) && Exec(s, actions).Some?
    ensures Inv(Exec(s, actions).value)
    decreases |actions|
  {
    hide Apply, Ordered, Exclusive, Settled, UsesUp;
    if actions != [] {
      var next := Apply(s, actions[0]).value;
      StepKeepsExclusive(s, actions[0]);
      StepKeepsOrdered(s, actions[0]);
      StepKeepsSettled(s, actions[0]);
      forall i | 0 <= i < |next.commits| ensures UsesUp(next, i) {
        StepKeepsUsesUp(s, actions[0], i);
      }
      RunKeepsInv(next, actions[1..]);
    }
  }

  lemma InitInv()
    ensures Inv(INIT)
  {
  }

  /** The file was left behind. */
  predicate Unspent(commit: Commit) { commit.fate.RemovalFailed? || commit.fate.StoreFailed? }

  /** Between two pairings the serial grows, unless the first one left the file behind. */
  lemma OnlyUnspentRepeats(s: State, i: nat, j: nat)
    requires Inv(s) && i < j < |s.commits|
    ensures s.commits[i].serial < s.commits[j].serial || Unspent(s.commits[i])
  {
    hide Apply, Exclusive;
    assert UsesUp(s, i);
  }

  /** Two pairings on one generated PIN need one that left the file behind, over every interleaving: its removal
      failed, or storing its host failed half-way. */
  lemma OnePairingPerPin(actions: seq<Action>, i: nat, j: nat)
    requires Exec(INIT, actions).Some? && i < j < |Exec(INIT, actions).value.commits|
    ensures var commits := Exec(INIT, actions).value.commits;
            commits[i].serial == commits[j].serial ==> Unspent(commits[i])
  {
    hide Apply, Exec, Ordered, Exclusive;
    assert Inv(INIT) by { InitInv(); }
    RunKeepsInv(INIT, actions);
    OnlyUnspentRepeats(Exec(INIT, actions).value, i, j);
  }

  function CountUnspent(commits: seq<Commit>): nat {
    if commits == [] then 0
    else
      var last := |commits| - 1;
      CountUnspent(commits[..last]) + if Unspent(commits[last]) then 1 else 0
  }

  lemma {:induction false} CommitsAreCounted(s: State, k: nat)
    requires Inv(s) && 1 <= k <= |s.commits|
    ensures k <= CountUnspent(s.commits[..k - 1]) + s.commits[k - 1].serial + 1
    decreases k
  {
    hide Apply, Exclusive, Settled, UsesUp;
    if k > 1 {
      CommitsAreCounted(s, k - 1);
      assert s.commits[..k - 1][..k - 2] == s.commits[..k - 2];
      OnlyUnspentRepeats(s, k - 2, k - 1);
      assert s.commits[k - 2].serial <= s.commits[k - 1].serial;
    }
  }

  /** The number of pairings never exceeds the number of PINs generated plus the number of pairings that left the
      file behind. */
  lemma PairingsAreBounded(actions: seq<Action>)
    requires Exec(INIT, actions).Some?
    ensures var s := Exec(INIT, actions).value;
            |s.commits| <= s.generated + CountUnspent(s.commits)
  {
    hide Apply, Exec, Exclusive, Settled, UsesUp;
    InitInv();
    RunKeepsInv(INIT, actions);
    var s := Exec(INIT, actions).value;
    if s.commits != [] {
      CommitsAreCounted(s, |s.commits|);
      assert s.commits[..|s.commits| - 1] == s.commits[..|s.commits|][..|s.commits| - 1];
    }
  }

  lemma {:induction false} ExecConcat(s: State, before: seq<Action>, after: seq<Action>)
    requires Exec(s, before).Some?
    ensures Exec(s, before + after) == Exec(Exec(s, before).value, after)
    decreases |before|
  {
    hide Apply;
    if before == [] {
      assert before + after == after;
    } else {
      assert (before + after)[1..] == before[1..] + after;
      ExecConcat(Apply(s, before[0]).value, before[1..], after);
    }
  }

  /** One connection that pairs, undisturbed. */
  function Pairing(id: nat, now: nat, fate: Fate): seq<Action>
    requires fate != Pending
  {
    [Connect(id, now), Lock(id), Check(id, now)]
    + if fate.StoreFailed? then [StoreThenFail(id)] else [Store(id), Remove(id, fate.Removed?)]
  }

  lemma ExecTwo(s: State, first: Action, second: Action)
    requires Apply(s, first).Some?
    ensures Exec(s, [first, second]) == Apply(Apply(s, first).value, second)
  {
    hide Apply;
    var next := Apply(s, first).value;
    assert [first, second][1..] == [second] && [second][1..] == [];
    match Apply(next, second)
    case None =>
    case Some(end) => assert Exec(end, []) == Some(end);
  }

  lemma ExecThree(s: State, actions: seq<Action>, s1: State, s2: State, s3: State)
    requires |actions| == 3 && Apply(s, actions[0]) == Some(s1)
    requires Apply(s1, actions[1]) == Some(s2) && Apply(s2, actions[2]) == Some(s3)
    ensures Exec(s, actions) == Some(s3)
  {
    hide Apply;
    assert actions[1..] == [actions[1], actions[2]];
    ExecTwo(s1, actions[1], actions[2]);
  }

  /** A connection that finds the PIN active can pass the second look. */
  lemma ReachesCheck(s: State, id: nat, now: nat)
    requires LockFree(s) && id !in s.connections && ActivePin(s.file, now).Some?
    ensures Exec(s, [Connect(id, now), Lock(id), Check(id, now)])
         == Some(s.(connections := s.connections[id := Checked(s.file.value.pin, s.file.value.serial)]))
  {
    hide IsPin, Exec;
    var pin, serial, was := ActivePin(s.file, now).value, s.file.value.serial, s.connections;
    var s1 := s.(connections := was[id := Started(pin)]);
    var s2 := s.(connections := was[id := Locked(pin)]);
    var s3 := s.(connections := was[id := Checked(pin, serial)]);
    assert s1.connections[id := Locked(pin)] == s2.connections;
    assert s2.connections[id := Checked(pin, serial)] == s3.connections;
    ExecThree(s, [Connect(id, now), Lock(id), Check(id, now)], s1, s2, s3);
  }

  lemma EndOfPairing(s: State, checked: State, id: nat, serial: nat, fate: Fate)
    requires id !in s.connections && fate != Pending
    requires id in checked.connections && checked.connections[id].Checked? && checked.connections[id].serial == serial
    requires checked.connections == s.connections[id := checked.connections[id]]
    requires checked == s.(connections := checked.connections)
    ensures Exec(checked, if fate.StoreFailed? then [StoreThenFail(id)] else [Store(id), Remove(id, fate.Removed?)])
         == Some(s.(file := if fate.Removed? then None else s.file, commits := s.commits + [Commit(serial, fate)]))
  {
    hide IsPin, LockFree;
    assert checked.connections - {id} == s.connections;
    if fate.StoreFailed? {
      var end := Apply(checked, StoreThenFail(id)).value;
      assert [StoreThenFail(id)][1..] == [] && Exec(end, []) == Some(end);
    } else {
      ExecTwo(checked, Store(id), Remove(id, fate.Removed?));
      var stored := Apply(checked, Store(id)).value;
      assert stored.connections - {id} == s.connections;
      assert stored.commits[|s.commits| := Commit(serial, fate)] == s.commits + [Commit(serial, fate)];
    }
  }

  /** A whole pairing stores the host against the generation of the file, and takes the file away exactly if storing
      and removing work; it needs the lock and a PIN that is active. */
  lemma PairingSpendsThePin(s: State, id: nat, now: nat, fate: Fate)
    requires LockFree(s) && id !in s.connections && ActivePin(s.file, now).Some? && fate != Pending
    ensures Exec(s, Pairing(id, now, fate))
         == Some(s.(file := if fate.Removed? then None else s.file,
                    commits := s.commits + [Commit(s.file.value.serial, fate)]))
  {
    hide Apply, Exec, IsPin, LockFree;
    ReachesCheck(s, id, now);
    var looks := [Connect(id, now), Lock(id), Check(id, now)];
    var rest := if fate.StoreFailed? then [StoreThenFail(id)] else [Store(id), Remove(id, fate.Removed?)];
    var checked := Exec(s, looks).value;
    EndOfPairing(s, checked, id, s.file.value.serial, fate);
    ExecConcat(s, looks, rest);
  }

  /** The bound is tight in both its terms: wherever a PIN is active, a pairing that leaves the file behind lets the
      same PIN pair once more. */
  lemma UnspentPinPairsAgain(s: State, first: nat, second: nat, now: nat, fate: Fate, later: Fate)
    requires LockFree(s) && first !in s.connections && second !in s.connections && ActivePin(s.file, now).Some?
    requires Unspent(Commit(0, fate)) && later != Pending
    ensures var end := Exec(s, Pairing(first, now, fate) + Pairing(second, now, later));
            && end.Some? && end.value.generated == s.generated
            && end.value.commits
               == s.commits + [Commit(s.file.value.serial, fate), Commit(s.file.value.serial, later)]
  {
    hide Apply, Exec, IsPin;
    PairingSpendsThePin(s, first, now, fate);
    var middle := Exec(s, Pairing(first, now, fate)).value;
    PairingSpendsThePin(middle, second, now, later);
    ExecConcat(s, Pairing(first, now, fate), Pairing(second, now, later));
  }

  // ---- What a pairing stands on ----

  /** The PIN is six digits. */
  predicate SixDigits(pin: string) {
    |pin| == 6 && forall i :: 0 <= i < |pin| ==> pin[i] in "0123456789"
  }

  /** The file is there, its time has not run out, and what it holds is a PIN. */
  predicate Live(file: Option<PinFile>, now: nat) {
    file.Some? && now <= file.value.until && SixDigits(file.value.pin)
  }

  lemma LiveIsActive(file: Option<PinFile>, now: nat)
    ensures ActivePin(file, now).Some? <==> Live(file, now)
    ensures Live(file, now) ==> ActivePin(file, now) == Some(file.value.pin)
  {
  }

  /** A connection starts, and passes its second look, exactly if the PIN file is live then, and passes it only with
      the PIN it started with. */
  lemma LooksAreExact(s: State, id: nat, now: nat)
    ensures Apply(s, Connect(id, now)).Some? <==> id !in s.connections && Live(s.file, now)
    ensures Apply(s, Connect(id, now)).Some? ==>
              Apply(s, Connect(id, now)).value
              == s.(connections := s.connections[id := Started(s.file.value.pin)])
    ensures Apply(s, Check(id, now)).Some?
       <==> id in s.connections && Live(s.file, now) && s.connections[id] == Locked(s.file.value.pin)
  {
    LiveIsActive(s.file, now);
    hide IsPin, SixDigits;
  }

  /** Failures are held against a live PIN only. */
  lemma FailuresNeedALivePin(s: State, now: nat, removes: bool)
    ensures !Live(s.file, now) ==> Apply(s, RecordFailure(now, removes)) == Some(s)
    ensures Live(s.file, now) && s.failures < 5 ==>
              var next := Apply(s, RecordFailure(now, removes)).value;
              var failures := if s.currentPin == Some(s.file.value.pin) then s.failures + 1 else 1;
              if failures == 5
              then next == s.(currentPin := None, failures := 0, file := if removes then None else s.file)
              else next == s.(currentPin := Some(s.file.value.pin), failures := failures)
  {
    LiveIsActive(s.file, now);
    hide IsPin, SixDigits;
  }

  /** A success forgets the failures; the file does not come into it. */
  lemma SuccessForgets(s: State)
    ensures Apply(s, ClearSuccess) == Some(s.(currentPin := None, failures := 0))
    ensures Held(Apply(s, ClearSuccess).value) == 0
  {
  }

  /** What becomes of the PIN file: it is generated, it disappears, a pairing or the fifth failure against it removes
      it, and nothing else changes it. */
  lemma FileIsExact(s: State, action: Action)
    requires Apply(s, action).Some? && s.failures < 5
    ensures var file, next := s.file, Apply(s, action).value.file;
            var fifth := action.RecordFailure? && Live(file, action.now)
                         && s.currentPin == Some(file.value.pin) && s.failures == 4;
            if action.Generate? then next == Some(PinFile(action.pin, action.until, s.generated))
            else if action.Disappear? || (action.Remove? && action.succeeds) || (fifth && action.removes)
            then next == None
            else next == file
  {
    if action.RecordFailure? {
      LiveIsActive(s.file, action.now);
    }
    hide IsPin, SixDigits, LockFree;
  }

  /** A connection may give up at any time until it has stored its host, and takes only itself away; whoever has the
      lock sets it free like that. */
  lemma GivingUpFreesTheLock(s: State, id: nat)
    ensures Apply(s, GiveUp(id)).Some? <==> id in s.connections && !s.connections[id].Stored?
    ensures Apply(s, GiveUp(id)).Some? ==> Apply(s, GiveUp(id)).value == s.(connections := s.connections - {id})
    ensures Exclusive(s) && Apply(s, GiveUp(id)).Some? && !s.connections[id].Started? ==>
              forall other :: other in Apply(s, GiveUp(id)).value.connections ==>
                Apply(s, GiveUp(id)).value.connections[other].Started?
  {
  }

  /** What a run has done: the files it generated, the time of each connection's second look, and for each pairing the
      time of the look it was stored after. */
  datatype Log = Log(files: seq<PinFile>, looks: map<nat, nat>, times: seq<nat>)

  function Noted(log: Log, action: Action): Log {
    match action
    case Generate(pin, until) => log.(files := log.files + [PinFile(pin, until, |log.files|)])
    case Check(id, now) => log.(looks := log.looks[id := now])
    case Store(id) => log.(times := log.times + [if id in log.looks then log.looks[id] else 0])
    case StoreThenFail(id) => log.(times := log.times + [if id in log.looks then log.looks[id] else 0])
    case _ => log
  }

  function LogOf(log: Log, actions: seq<Action>): Log
    decreases |actions|
  {
    if actions == [] then log else LogOf(Noted(log, actions[0]), actions[1..])
  }

  /** The generation stands for a file that was live at that time. */
  ghost predicate LiveThen(log: Log, serial: nat, time: nat) {
    serial < |log.files| && time <= log.files[serial].until && SixDigits(log.files[serial].pin)
  }

  ghost predicate Logged(s: State, log: Log) {
    && s.generated == |log.files| && |log.times| == |s.commits|
    && (s.file.Some? ==> s.file.value.serial < |log.files| && log.files[s.file.value.serial] == s.file.value)
    && (forall id :: id in s.connections && s.connections[id].Checked? ==>
          id in log.looks && LiveThen(log, s.connections[id].serial, log.looks[id])
          && log.files[s.connections[id].serial].pin == s.connections[id].pin)
    && (forall i :: 0 <= i < |s.commits| ==> LiveThen(log, s.commits[i].serial, log.times[i]))
  }

  lemma GeneratingIsLogged(s: State, log: Log, pin: string, until: nat)
    requires Logged(s, log)
    ensures Logged(Apply(s, Generate(pin, until)).value, Noted(log, Generate(pin, until)))
  {
    hide SixDigits;
  }

  lemma StepIsLogged(s: State, log: Log, action: Action)
    requires Logged(s, log) && Exclusive(s) && Apply(s, action).Some?
    ensures Logged(Apply(s, action).value, Noted(log, action))
  {
    if action.Generate? {
      GeneratingIsLogged(s, log, action.pin, action.until);
    } else if action.Check? {
      LooksAreExact(s, action.id, action.now);
      hide IsPin, SixDigits, LockFree;
    } else {
      hide IsPin, SixDigits, LockFree;
    }
  }

  lemma {:induction false} RunIsLogged(s: State, log: Log, actions: seq<Action>)
    requires Logged(s, log) && Inv(s) && Exec(s, actions).Some?
    ensures Logged(Exec(s, actions).value, LogOf(log, actions))
    decreases |actions|
  {
    if actions != [] {
      var single := actions[..1];
      assert single[0] == actions[0] && single[1..] == [];
      assert Exec(s, single) == Exec(Apply(s, actions[0]).value, []);
      RunKeepsInv(s, single);
      StepIsLogged(s, log, actions[0]);
      hide Apply, Inv, Logged, Noted;
      RunIsLogged(Apply(s, actions[0]).value, Noted(log, actions[0]), actions[1..]);
    }
  }

  /** Over every run each stored pairing passed its second look at a time not after the end of the very PIN whose
      generation it carries, and that PIN has six digits: an expired or malformed PIN pairs nobody. */
  lemma PairingsUseALivePin(actions: seq<Action>, i: nat)
    requires Exec(INIT, actions).Some? && i < |Exec(INIT, actions).value.commits|
    ensures var commit, log := Exec(INIT, actions).value.commits[i], LogOf(Log([], map[], []), actions);
            && commit.serial < |log.files| && i < |log.times|
            && log.times[i] <= log.files[commit.serial].until
            && SixDigits(log.files[commit.serial].pin)
  {
    InitInv();
    hide Exec, Apply, Inv, SixDigits;
    RunIsLogged(INIT, Log([], map[], []), actions);
  }

  // ---- Failed attempts ----

  /** The failed attempts of a run that were made while the PIN of `file` was active. */
  function Guesses(file: Option<PinFile>, actions: seq<Action>): nat {
    if actions == [] then 0
    else
      (if actions[0].RecordFailure? && ActivePin(file, actions[0].now).Some? then 1 else 0)
      + Guesses(file, actions[1..])
  }

  /** Failures already held against the PIN of the file. */
  function Held(s: State): nat {
    if s.file.Some? && s.currentPin == Some(s.file.value.pin) then s.failures else 0
  }

  /** This failure is the fifth against the PIN of the file. */
  predicate ReachesLimit(s: State, action: Action) {
    action.RecordFailure? && ActivePin(s.file, action.now).Some? && Held(s) + 1 >= MAX_PIN_FAILURES
  }

  /** How often in a run the file outlives a fifth failure. */
  ghost function Survivals(s: State, actions: seq<Action>): nat
    requires Exec(s, actions).Some?
    decreases |actions|
  {
    if actions == [] then 0
    else
      (if ReachesLimit(s, actions[0]) && !actions[0].removes then 1 else 0)
      + Survivals(Apply(s, actions[0]).value, actions[1..])
  }

  /** Every failure recorded against a file that is still there is either held against it or was forgotten, five at a
      time, at a removal that failed. */
  lemma {:induction false} GuessesAreAccounted(s: State, actions: seq<Action>)
    requires s.failures < MAX_PIN_FAILURES && Exec(s, actions).Some?
    requires forall action :: action in actions ==> !action.Generate? && !action.ClearSuccess?
    ensures var end := Exec(s, actions).value;
            && (end.file == s.file || end.file.None?)
            && end.failures < MAX_PIN_FAILURES
            && (end.file.Some? ==>
                  Held(s) + Guesses(s.file, actions) == Held(end) + MAX_PIN_FAILURES * Survivals(s, actions))
    decreases |actions|
  {
    hide IsPin, LockFree;
    if actions != [] {
      var next := Apply(s, actions[0]).value;
      OneGuess(s, actions[0]);
      GuessesAreAccounted(next, actions[1..]);
    }
  }

  lemma OneGuess(s: State, action: Action)
    requires s.failures < MAX_PIN_FAILURES && Apply(s, action).Some? && !action.Generate? && !action.ClearSuccess?
    ensures var next := Apply(s, action).value;
            && next.failures < MAX_PIN_FAILURES
            && (next.file == s.file || next.file.None?)
            && (next.file.Some? ==>
                  Held(s) + (if action.RecordFailure? && ActivePin(s.file, action.now).Some? then 1 else 0)
                  == Held(next) + if ReachesLimit(s, action) then MAX_PIN_FAILURES else 0)
            && (ReachesLimit(s, action) ==> (next.file.Some? <==> !action.removes))
  {
    hide IsPin, LockFree;
  }

  /** While no new PIN is generated and no pairing succeeds, a file that is still there has seen five failures or more
      if and only if a removal at a fifth failure has failed. */
  lemma PinOutlivesFiveGuessesExactly(s: State, actions: seq<Action>)
    requires s.failures < MAX_PIN_FAILURES && Exec(s, actions).Some? && Exec(s, actions).value.file.Some?
    requires forall action :: action in actions ==> !action.Generate? && !action.ClearSuccess?
    ensures Held(s) + Guesses(s.file, actions) >= MAX_PIN_FAILURES <==> Survivals(s, actions) >= 1
  {
    hide Exec, Apply, Guesses, Survivals;
    GuessesAreAccounted(s, actions);
  }

  /** Failures one after the other, while the PIN is active. */
  ghost predicate Fails(s: State, actions: seq<Action>) {
    forall action :: action in actions ==> action.RecordFailure? && ActivePin(s.file, action.now).Some?
  }

  /** The fifth failure decides: the file goes if and only if it can be removed then. If not, the failures are
      forgotten, and a state with none held against the PIN is the very same state again. */
  lemma {:induction false} FifthFailureDecides(s: State, actions: seq<Action>)
    requires s.failures < MAX_PIN_FAILURES && Fails(s, actions) && |actions| == MAX_PIN_FAILURES - Held(s)
    ensures Exec(s, actions)
         == Some(s.(file := if actions[|actions| - 1].removes then None else s.file, currentPin := None, failures := 0))
    decreases |actions|
  {
    hide IsPin, LockFree;
    var next, later := Apply(s, actions[0]).value, actions[1..];
    if later == [] {
      assert Exec(next, later) == Some(next);
    } else {
      assert next == s.(currentPin := Some(s.file.value.pin), failures := Held(s) + 1);
      assert later[|later| - 1] == actions[|actions| - 1];
      FifthFailureDecides(next, later);
    }
  }

  /** The daemon's side of the machine: the file, the failure counter and the stored hosts, changed in place. */
  class PairingDaemon {
    var file: Option<PinFile>
    var currentPin: Option<string>
    var failures: nat
    var commits: seq<Commit>

    ghost function View(s: State): State
      reads this
    {
      s.(file := file, currentPin := currentPin, failures := failures, commits := commits)
    }

    constructor ()
      ensures View(INIT) == INIT
    {
      file, currentPin, failures, commits := None, None, 0, [];
    }

    /** `record_pair_failure`: true when this failure was the fifth, whether or not the file could be removed. */
    method RecordPairFailure(now: nat, removes: bool) returns (disabled: bool)
      modifies this`file, this`currentPin, this`failures
      ensures forall s: State :: Apply(old(View(s)), RecordFailure(now, removes)) == Some(View(s))
      ensures disabled <==> ReachesLimit(old(View(INIT)), RecordFailure(now, removes))
    {
      var active := ActivePin(file, now);
      match active
      case None => return false;
      case Some(pin) =>
        if currentPin != Some(pin) {
          currentPin, failures := Some(pin), 0;
        }
        failures := failures + 1;
        if failures >= MAX_PIN_FAILURES {
          if removes {
            file := None;
          }
          currentPin, failures := None, 0;
          return true;
        }
        return false;
    }

    /** `store_paired_host`: an error may come before the host is written or, from setting its permissions, after. */
    method StorePairedHost(serial: nat) returns (written: bool, ok: bool)
      modifies this`commits
      ensures ok ==> written
      ensures commits == if !written then old(commits)
                         else old(commits) + [Commit(serial, if ok then Pending else StoreFailed)]
    {
      written := *;
      ok := false;
      if written {
        ok := *;
        commits := commits + [Commit(serial, if ok then Pending else StoreFailed)];
      }
    }

    /** The commit section, from taking the lock on: the second look, storing the host, removing the file. Whenever a
        host was written its effect is that of a whole pairing, with the fate that storing and removing had. */
    method CommitSection(id: nat, pin: string, now: nat, removes: bool) returns (paired: bool, fate: Option<Fate>)
      modifies this`file, this`commits
      ensures fate.Some? ==> ActivePin(old(file), now) == Some(pin) && fate.value != Pending
      ensures fate.Some? ==> old(file).Some? && now <= old(file).value.until && old(file).value.pin == pin
      ensures fate.Some? ==> SixDigits(pin)
      ensures paired <==> fate.Some? && fate.value == if removes then Removed else RemovalFailed
      ensures fate.Some? && !paired ==> fate.value.StoreFailed?
      ensures fate.None? ==> file == old(file) && commits == old(commits)
      ensures forall s: State :: fate.Some? && LockFree(s) && id !in s.connections ==>
                Exec(old(View(s)), Pairing(id, now, fate.value)) == Some(View(s))
    {
      LiveIsActive(file, now);
      hide Exec, IsPin, Apply, SixDigits;
      var active := ActivePin(file, now);
      if active != Some(pin) {
        return false, None;
      }
      var serial := file.value.serial;
      var written, ok := StorePairedHost(serial);
      if !written {
        return false, None;
      }
      var end := StoreFailed;
      if ok {
        if removes {
          file := None;
        }
        end := if removes then Removed else RemovalFailed;
        commits := commits[|commits| - 1 := Commit(serial, end)];
      }
      assert commits == old(commits) + [Commit(serial, end)];
      paired, fate := ok, Some(end);
      forall s: State | LockFree(s) && id !in s.connections
        ensures Exec(old(View(s)), Pairing(id, now, end)) == Some(View(s))
      {
        PairingSpendsThePin(old(View(s)), id, now, end);
      }
    }
  }
}
