/** The file transfer loops under flow control; a push and a pull run the same protocol with the roles of host and
    device exchanged. */
module FileTransfer {
  import opened Wrappers
  import opened Bytes
  import opened FlowCredits

  const FILE_BUFFER_SIZE := 256 * 1024
  const FILE_FLOW_WINDOW := 1024 * 1024
  const FILE_FLOW_UPDATE_THRESHOLD := FILE_FLOW_WINDOW / 2

  /** What the receiver still holds back after consuming a chunk, and the window it returns (0 for none). */
  function Consume(held: nat, bytes: nat): (nat, nat) {
    if held + bytes >= FILE_FLOW_UPDATE_THRESHOLD then (0, held + bytes) else (held + bytes, 0)
  }

  /** The receiving end of a transfer: the file written so far and the bytes not yet granted back. */
  class FileReceiver {
    var file: seq<Byte>
    var windowConsumed: nat

    constructor ()
      ensures file == [] && windowConsumed == 0
    {
      file, windowConsumed := [], 0;
    }

    /** Writes a chunk and accounts for it; `grant` is the window update to send, 0 for none. */
    method AcceptChunk(chunk: seq<Byte>) returns (grant: nat)
      modifies this
      ensures file == old(file) + chunk
      ensures (windowConsumed, grant) == Consume(old(windowConsumed), |chunk|)
      ensures windowConsumed + grant == old(windowConsumed) + |chunk|
      ensures grant > 0 <==> old(windowConsumed) + |chunk| >= 524288
      ensures grant > 0 ==> windowConsumed == 0
    {
      file := file + chunk;
      windowConsumed := windowConsumed + |chunk|;
      grant := 0;
      if windowConsumed >= FILE_FLOW_UPDATE_THRESHOLD {
        grant := windowConsumed;
        windowConsumed := 0;
      }
    }
  }

  datatype Message = Chunk(bytes: seq<Byte>) | End

  /** Sender (`unsent`, `ended`, `credit`), messages and grants in transit, receiver (`started`, `received`, `held`,
      `done`); `broken` records a rejected window update. */
  datatype Transfer = Transfer(unsent: seq<Byte>, ended: bool, credit: nat, data: seq<Message>, grants: seq<nat>,
                               started: bool, received: seq<Byte>, held: nat, done: bool, broken: bool)

  datatype Action = Open | Send(n: nat) | SendEnd | Receive | Credit

  function Start(file: seq<Byte>): Transfer {
    Transfer(file, false, 0, [], [], false, [], 0, false, false)
  }

  function Opened(s: Transfer): Option<Transfer> {
    if s.started then None else Some(s.(started := true, grants := s.grants + [FILE_FLOW_WINDOW]))
  }

  function Sent(s: Transfer, n: nat): Option<Transfer> {
    if s.ended || !(1 <= n <= FILE_BUFFER_SIZE) || n > |s.unsent| || n > s.credit then None
    else Some(s.(unsent := s.unsent[n..], credit := s.credit - n, data := s.data + [Chunk(s.unsent[..n])]))
  }

  function Ended(s: Transfer): Option<Transfer> {
    if s.ended || s.unsent != [] then None else Some(s.(ended := true, data := s.data + [End]))
  }

  function Accepted(s: Transfer): Option<Transfer> {
    if !s.started || s.done || s.data == [] then None
    else if s.data[0] == End then Some(s.(data := s.data[1..], done := true))
    else
      var (held, grant) := Consume(s.held, |s.data[0].bytes|);
      Some(s.(data := s.data[1..], received := s.received + s.data[0].bytes, held := held,
              grants := if grant == 0 then s.grants else s.grants + [grant]))
  }

  function Credited(s: Transfer): Option<Transfer> {
    if s.grants == [] then None
    else match AddCredit(s.credit, s.grants[0])
      case None => Some(s.(grants := s.grants[1..], broken := true))
      case Some(credit) => Some(s.(grants := s.grants[1..], credit := credit))
  }

  function Apply(s: Transfer, action: Action): Option<Transfer> {
    match action
    case Open => Opened(s)
    case Send(n) => Sent(s, n)
    case SendEnd => Ended(s)
    case Receive => Accepted(s)
    case Credit => Credited(s)
  }

  function Exec(s: Transfer, actions: seq<Action>): Option<Transfer>
    decreases |actions|
  {
    if actions == [] then Some(s)
    else match Apply(s, actions[0])
      case None => None
      case Some(next) => Exec(next, actions[1..])
  }

  function Sum(grants: seq<nat>): nat {
    if grants == [] then 0 else grants[0] + Sum(grants[1..])
  }

  /** The file bytes in a list of messages. */
  function Payload(data: seq<Message>): seq<Byte> {
    if data == [] then [] else (if data[0].Chunk? then data[0].bytes else []) + Payload(data[1..])
  }

  lemma {:induction false} SumAppend(grants: seq<nat>, grant: nat)
    ensures Sum(grants + [grant]) == Sum(grants) + grant
  {
    if grants == [] {
      assert [grant][1..] == [];
    } else {
      assert (grants + [grant])[1..] == grants[1..] + [grant];
      SumAppend(grants[1..], grant);
    }
  }

  lemma {:induction false} PayloadAppend(data: seq<Message>, message: Message)
    ensures Payload(data + [message]) == Payload(data) + (if message.Chunk? then message.bytes else [])
  {
    if data == [] {
      assert [message][1..] == [];
    } else {
      assert (data + [message])[1..] == data[1..] + [message];
      PayloadAppend(data[1..], message);
    }
  }

  /** The window is split between the sender's credit, the bytes in transit, the bytes held back and the grants. */
  ghost predicate Conserved(s: Transfer) {
    s.credit + |Payload(s.data)| + s.held + Sum(s.grants) == if s.started then FILE_FLOW_WINDOW else 0
  }

  /** The end marker comes last and only once; every chunk is a non-empty part of a buffer. */
  ghost predicate WellShaped(s: Transfer) {
    && (s.done ==> s.ended && s.data == [] && s.started)
    && (s.ended ==> s.unsent == [])
    && (s.ended && !s.done ==> s.data != [] && s.data[|s.data| - 1] == End)
    && forall i :: 0 <= i < |s.data| ==>
         match s.data[i]
         case End => i == |s.data| - 1 && s.ended
         case Chunk(bytes) => 1 <= |bytes| <= FILE_BUFFER_SIZE
  }

  ghost predicate Windowed(s: Transfer) {
    && Conserved(s)
    && !s.broken
    && s.held < FILE_FLOW_UPDATE_THRESHOLD
    && forall i :: 0 <= i < |s.grants| ==> s.grants[i] >= 1
  }

  ghost predicate Inv(file: seq<Byte>, s: Transfer) {
    Windowed(s) && WellShaped(s) && s.received + Payload(s.data) + s.unsent == file
  }

  lemma OpenKeepsInv(file: seq<Byte>, s: Transfer)
    requires Inv(file, s) && Opened(s).Some?
    ensures Inv(file, Opened(s).value)
  {
    SumAppend(s.grants, FILE_FLOW_WINDOW);
  }

  lemma SendKeepsInv(file: seq<Byte>, s: Transfer, n: nat)
    requires Inv(file, s) && Sent(s, n).Some?
    ensures Inv(file, Sent(s, n).value)
  {
    hide Payload;
    PayloadAppend(s.data, Chunk(s.unsent[..n]));
    assert s.unsent == s.unsent[..n] + s.unsent[n..];
  }

  lemma EndKeepsInv(file: seq<Byte>, s: Transfer)
    requires Inv(file, s) && Ended(s).Some?
    ensures Inv(file, Ended(s).value)
  {
    hide Payload;
    PayloadAppend(s.data, End);
  }

  lemma AcceptKeepsShape(s: Transfer)
    requires WellShaped(s) && Accepted(s).Some?
    ensures WellShaped(Accepted(s).value)
  {
    hide Consume;
    var next := Accepted(s).value;
    assert forall i :: 0 <= i < |next.data| ==> next.data[i] == s.data[i + 1];
  }

  lemma AcceptKeepsInv(file: seq<Byte>, s: Transfer)
    requires Inv(file, s) && Accepted(s).Some?
    ensures Inv(file, Accepted(s).value)
  {
    hide Sum, WellShaped, AddCredit;
    var next := Accepted(s).value;
    AcceptKeepsShape(s);
    assert Payload(s.data) == (if s.data[0].Chunk? then s.data[0].bytes else []) + Payload(next.data);
    if s.data[0].Chunk? {
      SumAppend(s.grants, s.held + |s.data[0].bytes|);
    }
  }

  lemma CreditKeepsInv(file: seq<Byte>, s: Transfer)
    requires Inv(file, s) && Credited(s).Some?
    ensures Inv(file, Credited(s).value)
  {
    hide Payload;
    assert Sum(s.grants) == s.grants[0] + Sum(s.grants[1..]);
  }

  lemma StepKeepsInv(file: seq<Byte>, s: Transfer, action: Action)
    requires Inv(file, s) && Apply(s, action).Some?
    ensures Inv(file, Apply(s, action).value)
  {
    hide Inv, Opened, Sent, Ended, Accepted, Credited;
    match action
    case Open => OpenKeepsInv(file, s);
    case Send(n) => SendKeepsInv(file, s, n);
    case SendEnd => EndKeepsInv(file, s);
    case Receive => AcceptKeepsInv(file, s);
    case Credit => CreditKeepsInv(file, s);
  }

  lemma {:induction false} RunKeepsInv(file: seq<Byte>, s: Transfer, actions: seq<Action>)
    requires Inv(file, s) && Exec(s, actions).Some?
    ensures Inv(file, Exec(s, actions).value)
    decreases |actions|
  {
    if actions != [] {
      StepKeepsInv(file, s, actions[0]);
      RunKeepsInv(file, Apply(s, actions[0]).value, actions[1..]);
    }
  }

  /** Over every run the window is conserved, no window update is rejected, and the bytes not yet consumed never
      exceed the window. */
  lemma CreditIsConserved(file: seq<Byte>, actions: seq<Action>)
    requires Exec(Start(file), actions).Some?
    ensures var s := Exec(Start(file), actions).value;
            && s.credit + |Payload(s.data)| + s.held + Sum(s.grants) == (if s.started then 1048576 else 0)
            && !s.broken && s.held < 524288
  {
    RunKeepsInv(file, Start(file), actions);
  }

  /** Whenever nothing is in transit after the opening, the sender has more than half a window and so may send any
      next chunk. */
  lemma QuietSenderHasCredit(file: seq<Byte>, actions: seq<Action>, n: nat)
    requires Exec(Start(file), actions).Some?
    requires var s := Exec(Start(file), actions).value;
             s.started && s.grants == [] && !s.ended && Payload(s.data) == []
    requires n <= |Exec(Start(file), actions).value.unsent|
    ensures var s := Exec(Start(file), actions).value;
            s.credit > 524288 && (Apply(s, Send(n)).Some? <==> 1 <= n <= 262144)
  {
    RunKeepsInv(file, Start(file), actions);
  }

  /** In every unfinished state some step is possible. */
  lemma SomeStepIsPossible(file: seq<Byte>, s: Transfer) returns (action: Action)
    requires Inv(file, s) && !s.done
    ensures Apply(s, action).Some?
  {
    if !s.started {
      action := Open;
    } else if s.grants != [] {
      action := Credit;
    } else if s.data != [] {
      action := Receive;
    } else if s.unsent == [] {
      action := SendEnd;
    } else {
      action := Send(1);
    }
  }

  /** A bound on the steps still to come. */
  function Work(s: Transfer): nat {
    4 * |s.unsent| + (if s.ended then 0 else 4) + 3 * |s.data| + |s.grants| + (if s.started then 0 else 2)
  }

  lemma StepReducesWork(s: Transfer, action: Action)
    requires Apply(s, action).Some?
    ensures Work(Apply(s, action).value) < Work(s)
  {
  }

  lemma {:induction false} RunsAreBounded(s: Transfer, actions: seq<Action>)
    requires Exec(s, actions).Some?
    ensures |actions| + Work(Exec(s, actions).value) <= Work(s)
    decreases |actions|
  {
    hide Apply, Work;
    if actions != [] {
      StepReducesWork(s, actions[0]);
      RunsAreBounded(Apply(s, actions[0]).value, actions[1..]);
    }
  }

  /** No transfer gets stuck: every run is at most `4 * |file| + 6` steps long, and a run that cannot be continued
      has ended the transfer with exactly the file on the receiving side. */
  lemma EveryTransferCompletes(file: seq<Byte>, actions: seq<Action>)
    requires Exec(Start(file), actions).Some?
    ensures |actions| <= 4 * |file| + 6
    ensures var s := Exec(Start(file), actions).value;
            (forall action :: Apply(s, action).None?) ==> s.done && s.received == file
  {
    hide Apply, Exec;
    RunsAreBounded(Start(file), actions);
    RunKeepsInv(file, Start(file), actions);
    var s := Exec(Start(file), actions).value;
    if !s.done {
      var action := SomeStepIsPossible(file, s);
    }
  }

  ghost predicate FullBuffers(s: Transfer) {
    forall i :: 0 <= i < |s.data| && s.data[i].Chunk? && |s.data[i].bytes| < FILE_BUFFER_SIZE ==>
      s.unsent == [] && forall j :: i < j < |s.data| ==> s.data[j] == End
  }

  lemma {:induction false} ManyFullChunks(data: seq<Message>)
    requires forall i :: 0 <= i < |data| ==> data[i].Chunk? && |data[i].bytes| == FILE_BUFFER_SIZE
    ensures |Payload(data)| == FILE_BUFFER_SIZE * |data|
  {
    if data != [] {
      ManyFullChunks(data[1..]);
    }
  }

  lemma FirstChunksAreFull(s: Transfer, n: nat)
    requires WellShaped(s) && FullBuffers(s) && n + 1 < |s.data|
    ensures |Payload(s.data[..n])| == FILE_BUFFER_SIZE * n
  {
    forall i | 0 <= i < n ensures s.data[i].Chunk? && |s.data[i].bytes| == FILE_BUFFER_SIZE {
      assert s.data[i + 1] != End;
    }
    ManyFullChunks(s.data[..n]);
  }

  /** A sender whose reads fill the buffer until the end of the file. */
  ghost predicate ReadsFull(s: Transfer, actions: seq<Action>)
    requires Exec(s, actions).Some?
    decreases |actions|
  {
    actions == [] ||
    (&& (actions[0].Send? ==> actions[0].n == FILE_BUFFER_SIZE || actions[0].n == |s.unsent|)
     && ReadsFull(Apply(s, actions[0]).value, actions[1..]))
  }

  lemma FullReadKeepsFullBuffers(s: Transfer, action: Action)
    requires WellShaped(s) && FullBuffers(s) && Apply(s, action).Some?
    requires action.Send? ==> action.n == FILE_BUFFER_SIZE || action.n == |s.unsent|
    ensures FullBuffers(Apply(s, action).value)
  {
    hide Consume, AddCredit;
    var next := Apply(s, action).value;
    match action
    case Receive => assert forall i :: 0 <= i < |next.data| ==> next.data[i] == s.data[i + 1];
    case Send(n) => assert forall i :: 0 <= i < |s.data| ==> next.data[i] == s.data[i];
    case SendEnd => assert forall i :: 0 <= i < |s.data| ==> next.data[i] == s.data[i];
    case _ =>
  }

  lemma {:induction false} FullReadsKeepFullBuffers(file: seq<Byte>, s: Transfer, actions: seq<Action>)
    requires Inv(file, s) && FullBuffers(s) && Exec(s, actions).Some? && ReadsFull(s, actions)
    ensures FullBuffers(Exec(s, actions).value)
    decreases |actions|
  {
    hide Apply, FullBuffers;
    if actions != [] {
      StepKeepsInv(file, s, actions[0]);
      FullReadKeepsFullBuffers(s, actions[0]);
      FullReadsKeepFullBuffers(file, Apply(s, actions[0]).value, actions[1..]);
    }
  }

  /** With reads that fill the buffer the messages in transit always fit the receiver's queue. */
  lemma FullReadsNeverOverflow(file: seq<Byte>, actions: seq<Action>)
    requires Exec(Start(file), actions).Some? && ReadsFull(Start(file), actions)
    ensures |Exec(Start(file), actions).value.data| <= 6 < 16 == ROUTE_CAPACITY
  {
    RunKeepsInv(file, Start(file), actions);
    FullReadsKeepFullBuffers(file, Start(file), actions);
    var s := Exec(Start(file), actions).value;
    if |s.data| > 6 {
      assert s.data == s.data[..5] + s.data[5..];
      PayloadConcat(s.data[..5], s.data[5..]);
      FirstChunksAreFull(s, 5);
    }
  }

  lemma {:induction false} PayloadConcat(left: seq<Message>, right: seq<Message>)
    ensures Payload(left + right) == Payload(left) + Payload(right)
  {
    if left == [] {
      assert left + right == right;
    } else {
      assert (left + right)[1..] == left[1..] + right;
      PayloadConcat(left[1..], right);
    }
  }

  /** With short reads they need not fit: `n` one-byte chunks can be in transit at once. */
  lemma {:induction false} ShortReadsCanOverflow(file: seq<Byte>, n: nat) returns (actions: seq<Action>, s: Transfer)
    requires n <= |file| && n <= FILE_FLOW_WINDOW
    ensures Exec(Start(file), actions) == Some(s)
    ensures |s.data| == n && s.unsent == file[n..] && s.credit == FILE_FLOW_WINDOW - n && !s.ended
  {
    if n == 0 {
      actions := [Open, Credit];
      s := Start(file).(started := true, credit := FILE_FLOW_WINDOW);
      var granted := Start(file).(started := true, grants := [FILE_FLOW_WINDOW]);
      assert Start(file).grants + [FILE_FLOW_WINDOW] == granted.grants && granted.grants[1..] == s.grants;
      assert actions[1..] == [Credit] && [Credit][1..] == [];
      assert Exec(granted, [Credit]) == Exec(s, []);
    } else {
      var earlier, before := ShortReadsCanOverflow(file, n - 1);
      actions := earlier + [Send(1)];
      s := Apply(before, Send(1)).value;
      ExecAppend(Start(file), earlier, Send(1));
    }
  }

  lemma {:induction false} ChunksAreNotEmpty(data: seq<Message>)
    requires forall i :: 0 <= i < |data| ==>
               (data[i].Chunk? ==> data[i].bytes != []) && (data[i].End? ==> i == |data| - 1)
    ensures |data| <= |Payload(data)| + 1
  {
    if data != [] {
      ChunksAreNotEmpty(data[1..]);
    }
  }

  /** How the file is read decides whether the queue can overflow; only a file shorter than the queue is safe
      whatever the reads return. */
  lemma OnlyShortFilesNeverOverflow(file: seq<Byte>)
    ensures (forall actions :: Exec(Start(file), actions).Some? ==>
               |Exec(Start(file), actions).value.data| <= 16) <==> |file| < 16
  {
    hide Exec, Apply, Payload;
    forall actions | |file| < ROUTE_CAPACITY && Exec(Start(file), actions).Some?
      ensures |Exec(Start(file), actions).value.data| <= ROUTE_CAPACITY
    {
      StartInv(file);
      RunKeepsInv(file, Start(file), actions);
      ChunksAreNotEmpty(Exec(Start(file), actions).value.data);
    }
    if |file| >= ROUTE_CAPACITY {
      var actions := OverflowingRun(file);
      assert |Exec(Start(file), actions).value.data| > ROUTE_CAPACITY;
    }
  }

  lemma StartInv(file: seq<Byte>)
    ensures Inv(file, Start(file))
  {
  }

  lemma OverflowingRun(file: seq<Byte>) returns (actions: seq<Action>)
    requires |file| >= ROUTE_CAPACITY
    ensures Exec(Start(file), actions).Some? && |Exec(Start(file), actions).value.data| == ROUTE_CAPACITY + 1
  {
    hide Exec;
    var earlier, s := ShortReadsCanOverflow(file, ROUTE_CAPACITY);
    var last := if s.unsent == [] then SendEnd else Send(1);
    actions := earlier + [last];
    ExecAppend(Start(file), earlier, last);
  }

  lemma {:induction false} ExecAppend(s: Transfer, actions: seq<Action>, action: Action)
    requires Exec(s, actions).Some?
    ensures Exec(s, actions + [action]) == Apply(Exec(s, actions).value, action)
    decreases |actions|
  {
    var all := actions + [action];
    if actions == [] {
      assert all[0] == action && all[1..] == [];
    } else {
      assert all[0] == actions[0] && all[1..] == actions[1..] + [action];
      ExecAppend(Apply(s, actions[0]).value, actions[1..], action);
    }
  }
}
