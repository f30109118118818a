/** How a pull ends: the daemon's handler sends the file to the host's loop through the stream's bounded queue, with
    overflow, cancellation, errors at either side and loss of the connection. */
module PullEnds {
  import opened Wrappers
  import opened Bytes
  import opened FlowCredits
  import opened TransferWires
  import FileTransfer

  const FILE_BUFFER_SIZE := FileTransfer.FILE_BUFFER_SIZE
  const FILE_FLOW_WINDOW := FileTransfer.FILE_FLOW_WINDOW
  const FILE_FLOW_UPDATE_THRESHOLD := FileTransfer.FILE_FLOW_UPDATE_THRESHOLD

  /** Awaiting the file's metadata, about to grant the window, after a grant was written, awaiting a frame, finishing
      the local file after the end marker. */
  datatype HostPhase = Opening | Granting | GrantSent | Working | Flushing | Succeeded | HostFailed

  /** The host's stream with its route and queue, whether it was canceled, and the cancel frames that its dropping and
      its overflow have still to send; the bytes written and those whose window is kept back. */
  datatype Host = Host(phase: HostPhase, received: seq<Byte>, held: nat, granted: bool, routed: bool,
                       inbox: seq<Message>, canceled: bool, cancels: nat)

  /** Before the metadata, reading, waiting for credit for `n` bytes, done; then as in a push. */
  datatype DaemonPhase =
    Starting | Sending | Holding(n: nat) | Complete | Failing | Reporting | Finishing | DaemonFailed

  /** `canceled` is the writer's mark for the stream, `told` the handler's own signal; `broken` records a rejected
      window update. */
  datatype Daemon = Daemon(phase: DaemonPhase, unsent: seq<Byte>, credit: nat, canceled: bool, told: bool, broken: bool)

  datatype State = State(host: Host, daemon: Daemon, toDaemon: seq<Message>, toHost: seq<Message>, open: bool)

  /** The last three come from outside: the host cannot create, write or finish the local file, the daemon cannot open
      or read its file, the connection is lost. */
  datatype Action =
    | HostStep | SendCancel | ArriveAtHost | DaemonStep | Read(n: nat) | ArriveAtDaemon
    | HostBreaks | DaemonBreaks | Disconnect

  /** The steps the program takes by itself, nothing breaking at that moment. */
  predicate Due(action: Action) { !(action.HostBreaks? || action.DaemonBreaks? || action.Disconnect?) }

  /** The daemon has registered the request. */
  function Initial(file: seq<Byte>): State {
    State(Host(Opening, [], 0, false, true, [], false, 0), Daemon(Starting, file, 0, false, false, false), [], [], true)
  }

  predicate HostEnded(s: State) { s.host.phase == Succeeded || s.host.phase == HostFailed }

  predicate DaemonEnded(s: State) { s.daemon.phase == Complete || s.daemon.phase == DaemonFailed }

  // ---- The host ----

  /** The stream is dropped: its route goes, and the daemon is told unless the stream was completed. */
  function HostFails(s: State, completed: bool): State {
    s.(host := s.host.(phase := HostFailed, routed := false, cancels := s.host.cancels + if completed then 0 else 1))
  }

  predicate HostActive(s: State) { s.open && !s.host.canceled }

  function Grants(s: State, window: nat): State {
    if HostActive(s)
    then s.(host := s.host.(phase := GrantSent, granted := true), toDaemon := s.toDaemon + [Grant(window)])
    else HostFails(s, false)
  }

  /** A chunk is written; its window is kept back or returned. */
  function Written(s: State, bytes: seq<Byte>): State {
    var (held, grant) := FileTransfer.Consume(s.host.held, |bytes|);
    var rest := s.(host := s.host.(received := s.host.received + bytes, held := held));
    if grant == 0 then rest else Grants(rest, grant)
  }

  function Popped(s: State): State
    requires s.host.inbox != []
  {
    s.(host := s.host.(inbox := s.host.inbox[1..]))
  }

  function Taken(s: State): State
    requires s.host.inbox != []
  {
    var message, rest := s.host.inbox[0], Popped(s);
    if message.Meta? && s.host.phase == Opening then rest.(host := rest.host.(phase := Granting))
    else if message.Chunk? && s.host.phase == Working then Written(rest, message.bytes)
    else if message.End? && s.host.phase == Working then rest.(host := rest.host.(phase := Flushing))
    else HostFails(rest, message.End? || message.Failure?)
  }

  /** `recv`. */
  function HostReceives(s: State): Option<State> {
    if s.host.canceled then Some(HostFails(s, true))
    else if s.host.inbox != [] then Some(Taken(s))
    else if s.host.routed then None
    else Some(HostFails(s, false))
  }

  function HostSteps(s: State): Option<State> {
    match s.host.phase
    case Opening => HostReceives(s)
    case Granting => Some(Grants(s, FILE_FLOW_WINDOW))
    case GrantSent => Some(if HostActive(s) then s.(host := s.host.(phase := Working)) else HostFails(s, false))
    case Working => HostReceives(s)
    case Flushing => Some(s.(host := s.host.(phase := Succeeded, routed := false)))
    case _ => None
  }

  /** The spawned task queues a cancel frame. */
  function CancelSent(s: State): Option<State> {
    if s.host.cancels == 0 then None
    else Some(s.(host := s.host.(cancels := s.host.cancels - 1), toDaemon := Post(s.open, s.toDaemon, Cancel)))
  }

  /** The host's reader delivers a frame to the stream. */
  function Delivered(h: Host, message: Message): Host {
    if !h.routed then h
    else if |h.inbox| >= ROUTE_CAPACITY then h.(routed := false, canceled := true, cancels := h.cancels + 1)
    else h.(inbox := h.inbox + [message])
  }

  function ArrivedAtHost(s: State): Option<State> {
    if !s.open || s.toHost == [] then None
    else Some(s.(host := Delivered(s.host, s.toHost[0]), toHost := s.toHost[1..]))
  }

  // ---- The daemon ----

  predicate DaemonActive(s: State) { s.open && !s.daemon.canceled }

  function DaemonFails(s: State): State { s.(daemon := s.daemon.(phase := Failing)) }

  function Posted(s: State, message: Message, daemon: Daemon): State {
    if DaemonActive(s) then s.(daemon := daemon, toHost := s.toHost + [message]) else DaemonFails(s)
  }

  /** The send of a chunk sleeps until the credit covers it, the stream is canceled or the connection closed. */
  function ChunkSent(s: State, n: nat): Option<State> {
    var d := s.daemon;
    if !DaemonActive(s) then Some(DaemonFails(s))
    else if n > d.credit || n > |d.unsent| then None
    else Some(Posted(s, Chunk(d.unsent[..n]), d.(phase := Sending, unsent := d.unsent[n..], credit := d.credit - n)))
  }

  function DaemonSteps(s: State): Option<State> {
    var d := s.daemon;
    match d.phase
    case Starting => Some(Posted(s, Meta, d.(phase := Sending)))
    case Sending =>
      if d.told then Some(DaemonFails(s))
      else if d.unsent != [] then None
      else Some(Posted(s, End, d.(phase := Complete)))
    case Holding(n) => ChunkSent(s, n)
    case Failing => Some(s.(daemon := d.(phase := Reporting)))
    case Reporting =>
      Some(s.(daemon := d.(phase := Finishing),
              toHost := if d.canceled then s.toHost else Post(s.open, s.toHost, Failure)))
    case Finishing => Some(s.(daemon := d.(phase := DaemonFailed, canceled := false)))
    case _ => None
  }

  /** The signal to the handler comes before the file. */
  function ReadFile(s: State, n: nat): Option<State> {
    var d := s.daemon;
    if d.phase != Sending || d.told || !(1 <= n <= FILE_BUFFER_SIZE) || n > |d.unsent| then None
    else Some(s.(daemon := d.(phase := Holding(n))))
  }

  function Credited(d: Daemon, window: nat): (next: Daemon)
    ensures next == d.(credit := next.credit, broken := next.broken)
  {
    var credit := AddCredit(d.credit, window);
    if credit.None? then d.(broken := true) else d.(credit := credit.value)
  }

  /** The daemon's loop takes a frame: a window update, which an ended stream ignores, or a cancel frame. */
  function ArrivedAtDaemon(s: State): Option<State> {
    if !s.open || s.toDaemon == [] then None
    else
      var rest := s.(toDaemon := s.toDaemon[1..]);
      match s.toDaemon[0]
      case Grant(window) => Some(if DaemonEnded(s) then rest else rest.(daemon := Credited(s.daemon, window)))
      case _ => Some(rest.(daemon := s.daemon.(canceled := true, told := true)))
  }

  /** Both ends notice; what is queued stays. */
  function Disconnected(s: State): Option<State> {
    if !s.open then None
    else Some(State(s.host.(routed := false), s.daemon.(canceled := true, told := true), [], [], false))
  }

  predicate HostMayBreak(s: State) {
    || s.host.phase == Granting || s.host.phase == Flushing
    || (s.host.phase == Working && s.host.inbox != [] && s.host.inbox[0].Chunk?)
  }

  function Apply(s: State, action: Action): Option<State> {
    match action
    case HostStep => HostSteps(s)
    case SendCancel => CancelSent(s)
    case ArriveAtHost => ArrivedAtHost(s)
    case DaemonStep => DaemonSteps(s)
    case Read(n) => ReadFile(s, n)
    case ArriveAtDaemon => ArrivedAtDaemon(s)
    case HostBreaks => if HostMayBreak(s) then Some(HostFails(s, s.host.phase == Flushing)) else None
    case DaemonBreaks =>
      if s.daemon.phase == Starting || s.daemon.phase == Sending then Some(DaemonFails(s)) else None
    case Disconnect => Disconnected(s)
  }

  function Exec(s: State, actions: seq<Action>): Option<State>
    decreases |actions|
  {
    if actions == [] then Some(s)
    else match Apply(s, actions[0])
      case None => None
      case Some(next) => Exec(next, actions[1..])
  }

  // ---- What every step keeps ----

  /** The host has the end marker, or will have it without anything further from the wire. */
  predicate EndTaken(h: Host) {
    h.phase != HostFailed && (Carries(h.inbox, End) || h.phase == Flushing || h.phase == Succeeded)
  }

  /** What was received, and what is queued for a host at work, is the beginning of the file; while that is routed
      nothing is missing between it and what the daemon still has. The end marker stands for the end of the file. */
  ghost predicate BytesInv(file: seq<Byte>, h: Host, unsent: seq<Byte>, toHost: seq<Message>, open: bool) {
    && h.received <= file
    && (h.phase != HostFailed ==> h.received + Payload(h.inbox) <= file)
    && (h.routed ==> h.phase != HostFailed && open && h.received + Payload(h.inbox) + Payload(toHost) + unsent == file)
    && (EndTaken(h) ==> h.received + Payload(h.inbox) == file)
  }

  ghost predicate MarksInv(h: Host, d: Daemon, toHost: seq<Message>) {
    && Shaped(toHost) && (h.phase != HostFailed ==> Shaped(h.inbox))
    && (EndTaken(h) ==> Spent(toHost))
    && (h.phase == Flushing || h.phase == Succeeded ==> Spent(h.inbox))
    && (Carries(toHost, End) || EndTaken(h) ==> d.phase == Complete)
    && (d.phase == Complete ==> d.unsent == [])
    && (d.phase.Holding? ==> 1 <= d.phase.n <= FILE_BUFFER_SIZE && d.phase.n <= |d.unsent|)
  }

  ghost predicate DataInv(file: seq<Byte>, s: State) {
    BytesInv(file, s.host, s.daemon.unsent, s.toHost, s.open) && MarksInv(s.host, s.daemon, s.toHost)
  }

  function InFlight(s: State): nat {
    s.daemon.credit + |Payload(s.toHost)| + |Payload(s.host.inbox)| + s.host.held + Granted(s.toDaemon)
  }

  predicate Serving(phase: DaemonPhase) { phase == Starting || phase == Sending || phase.Holding? }

  /** The window never grows, and while neither end has failed it does not shrink. */
  ghost predicate CreditInv(s: State) {
    var window := if s.host.granted then FILE_FLOW_WINDOW else 0;
    && InFlight(s) <= window
    && (s.host.routed && Serving(s.daemon.phase) && !HostEnded(s) ==> InFlight(s) == window)
    && s.host.held < FILE_FLOW_UPDATE_THRESHOLD
    && RealGrants(s.toDaemon) && Controls(s.toDaemon)
    && (s.host.phase == Opening || s.host.phase == Granting ==> !s.host.granted)
    && (s.host.phase == GrantSent || s.host.phase == Working ==> s.host.granted)
    && !s.daemon.broken
  }

  /** All that the host sends during a pull. */
  ghost predicate Controls(data: seq<Message>) {
    forall i :: 0 <= i < |data| ==> data[i].Grant? || data[i].Cancel?
  }

  lemma ControlsSnoc(data: seq<Message>, message: Message)
    requires Controls(data) && (message.Grant? || message.Cancel?)
    ensures Controls(data + [message])
  {
  }

  lemma ControlsTail(data: seq<Message>)
    requires Controls(data) && data != []
    ensures Controls(data[1..]) && (data[0].Grant? || data[0].Cancel?)
  {
    assert forall i :: 0 <= i < |data| - 1 ==> data[1..][i] == data[i + 1];
  }

  predicate HostIsOver(s: State) { !s.open || HostEnded(s) || s.host.canceled }

  ghost predicate KnowledgeInv(s: State) {
    && (!s.open ==> !s.host.routed && s.daemon.told && s.toDaemon == [] && s.toHost == [])
    && (!s.host.routed ==> HostIsOver(s))
    && (s.daemon.canceled ==> s.daemon.told)
    && (s.daemon.told && Serving(s.daemon.phase) ==> s.daemon.canceled)
    && (Carries(s.toDaemon, Cancel) || s.host.cancels > 0 || s.daemon.told ==> HostIsOver(s))
    && (s.open && (s.host.phase == HostFailed || s.host.canceled) && Serving(s.daemon.phase)
        ==> s.daemon.told || Carries(s.toDaemon, Cancel) || s.host.cancels > 0)
    && (Carries(s.toHost, Failure) || Carries(s.host.inbox, Failure) ==> !Serving(s.daemon.phase))
    && (s.daemon.phase == Finishing || s.daemon.phase == DaemonFailed
        ==> HostIsOver(s) || Carries(s.toHost, Failure) || Carries(s.host.inbox, Failure))
    && (s.daemon.phase == Complete ==> HostIsOver(s) || Carries(s.toHost, End) || EndTaken(s.host))
    && (s.host.phase == Opening && (s.daemon.phase == Sending || s.daemon.phase.Holding?)
        ==> HostIsOver(s) || Carries(s.toHost, Meta) || Carries(s.host.inbox, Meta))
  }

  ghost predicate Inv(file: seq<Byte>, s: State) { DataInv(file, s) && CreditInv(s) && KnowledgeInv(s) }

  // ---- The host ----

  lemma HostFailingKeepsInv(file: seq<Byte>, s: State, completed: bool)
    requires Inv(file, s) && !HostEnded(s)
    requires completed ==> s.host.canceled || !Serving(s.daemon.phase)
    ensures Inv(file, HostFails(s, completed))
  {
    hide Carries, Payload, Shaped, Spent, Granted, RealGrants, Controls;
  }

  lemma PoppingKeepsCredit(s: State)
    requires CreditInv(s) && s.host.inbox != [] && s.host.phase == HostFailed
    ensures CreditInv(Popped(s))
  {
    FirstOf(s.host.inbox);
    hide Carries, Payload, Granted, RealGrants, Controls;
  }

  lemma PoppingKeepsData(file: seq<Byte>, s: State)
    requires DataInv(file, s) && s.host.inbox != [] && s.host.phase == HostFailed
    ensures DataInv(file, Popped(s))
  {
    hide Carries, Payload, Shaped, Spent;
  }

  /** What the host has queued does not matter once it has failed. */
  lemma PoppingKeepsInv(file: seq<Byte>, s: State)
    requires Inv(file, s) && s.host.inbox != [] && s.host.phase == HostFailed
    ensures Inv(file, Popped(s))
  {
    PoppingKeepsCredit(s);
    PoppingKeepsData(file, s);
    CarriesFirst(s.host.inbox);
    hide DataInv, CreditInv, Carries;
  }

  lemma LastFrameMeansOver(file: seq<Byte>, s: State)
    requires Inv(file, s) && s.host.inbox != [] && !HostEnded(s)
    requires s.host.inbox[0] == End || s.host.inbox[0] == Failure
    ensures !Serving(s.daemon.phase)
  {
    CarriesFirst(s.host.inbox);
    hide Carries, Shaped, Spent, BytesInv, CreditInv;
  }

  lemma RefusingKeepsInv(file: seq<Byte>, s: State, completed: bool)
    requires Inv(file, s) && s.host.inbox != [] && !HostEnded(s) && (completed ==> !Serving(s.daemon.phase))
    ensures Inv(file, HostFails(Popped(s), completed))
  {
    assert Popped(HostFails(s, completed)) == HostFails(Popped(s), completed);
    hide Inv;
    HostFailingKeepsInv(file, s, completed);
    PoppingKeepsInv(file, HostFails(s, completed));
  }

  lemma OpeningKeepsData(file: seq<Byte>, s: State)
    requires DataInv(file, s) && s.host.inbox != [] && s.host.inbox[0] == Meta && s.host.phase == Opening
    ensures DataInv(file, Popped(s).(host := Popped(s).host.(phase := Granting)))
  {
    FirstOf(s.host.inbox);
    ShapedTail(s.host.inbox);
    hide Carries, Payload, Shaped, Spent;
  }

  lemma OpeningKeepsInv(file: seq<Byte>, s: State)
    requires Inv(file, s) && s.host.inbox != [] && s.host.inbox[0] == Meta && s.host.phase == Opening
    ensures Inv(file, Popped(s).(host := Popped(s).host.(phase := Granting)))
  {
    OpeningKeepsData(file, s);
    FirstOf(s.host.inbox);
    hide DataInv, Carries, Payload, Granted, RealGrants, Controls;
  }

  function EndSeen(s: State): State
    requires s.host.inbox != []
  {
    Popped(s).(host := Popped(s).host.(phase := Flushing))
  }

  predicate EndIsNext(s: State) { s.host.inbox != [] && s.host.inbox[0] == End && s.host.phase == Working }

  lemma EndingKeepsData(file: seq<Byte>, s: State)
    requires DataInv(file, s) && EndIsNext(s)
    ensures DataInv(file, EndSeen(s))
  {
    FirstOf(s.host.inbox);
    ShapedTail(s.host.inbox);
    hide Carries, Payload, Shaped, Spent;
  }

  lemma EndingKeepsCredit(s: State)
    requires CreditInv(s) && EndIsNext(s)
    ensures CreditInv(EndSeen(s))
  {
    FirstOf(s.host.inbox);
    hide Carries, Payload, Granted, RealGrants, Controls;
  }

  lemma EndingKeepsKnowledge(s: State)
    requires KnowledgeInv(s) && EndIsNext(s)
    ensures KnowledgeInv(EndSeen(s))
  {
    CarriesFirst(s.host.inbox);
    hide Carries;
  }

  lemma EndingKeepsInv(file: seq<Byte>, s: State)
    requires Inv(file, s) && EndIsNext(s)
    ensures Inv(file, EndSeen(s))
  {
    hide DataInv, CreditInv, KnowledgeInv, EndSeen;
    EndingKeepsData(file, s);
    EndingKeepsCredit(s);
    EndingKeepsKnowledge(s);
  }

  /** A chunk has been taken and written, before its window is accounted for. */
  function Appended(s: State, chunk: seq<Byte>, held: nat): State
    requires s.host.inbox != []
  {
    Popped(s).(host := Popped(s).host.(received := s.host.received + chunk, held := held))
  }

  lemma AppendingKeepsData(file: seq<Byte>, s: State, chunk: seq<Byte>, held: nat)
    requires DataInv(file, s) && s.host.inbox != [] && s.host.inbox[0] == Chunk(chunk) && s.host.phase == Working
    ensures DataInv(file, Appended(s, chunk, held))
  {
    var h, rest := s.host, s.host.inbox[1..];
    FirstOf(h.inbox);
    ShapedTail(h.inbox);
    hide Carries, Payload, Shaped, Spent;
    assert h.received + Payload(h.inbox) == h.received + chunk + Payload(rest);
    assert h.received + chunk <= h.received + chunk + Payload(rest);
    var next := Appended(s, chunk, held);
    assert BytesInv(file, next.host, next.daemon.unsent, next.toHost, next.open) by { hide MarksInv; }
    hide BytesInv;
  }

  lemma AppendingKeepsKnowledge(s: State, chunk: seq<Byte>, held: nat)
    requires KnowledgeInv(s) && s.host.inbox != [] && s.host.inbox[0] == Chunk(chunk) && s.host.phase == Working
    ensures KnowledgeInv(Appended(s, chunk, held))
  {
    CarriesFirst(s.host.inbox);
    hide Carries;
  }

  lemma KeepingBackKeepsCredit(s: State, chunk: seq<Byte>)
    requires CreditInv(s) && s.host.inbox != [] && s.host.inbox[0] == Chunk(chunk) && s.host.phase == Working
    requires s.host.held + |chunk| < FILE_FLOW_UPDATE_THRESHOLD
    ensures CreditInv(Appended(s, chunk, s.host.held + |chunk|))
  {
    FirstOf(s.host.inbox);
    hide Payload, Granted, RealGrants, Controls, Carries;
  }

  function Returning(s: State, chunk: seq<Byte>): State
    requires s.host.inbox != []
  {
    Grants(Appended(s, chunk, 0), s.host.held + |chunk|)
  }

  lemma ReturningKeepsCredit(s: State, chunk: seq<Byte>)
    requires CreditInv(s) && s.host.inbox != [] && s.host.inbox[0] == Chunk(chunk) && s.host.phase == Working
    requires s.host.held + |chunk| > 0
    ensures CreditInv(Returning(s, chunk))
  {
    FirstOf(s.host.inbox);
    GrantedSnoc(s.toDaemon, Grant(s.host.held + |chunk|));
    ControlsSnoc(s.toDaemon, Grant(s.host.held + |chunk|));
    hide Payload, Granted, RealGrants, Controls, Carries;
    if HostActive(s) {
    } else {
    }
  }

  lemma GrantingKeepsCredit(s: State)
    requires CreditInv(s) && s.host.phase == Granting
    ensures CreditInv(Grants(s, FILE_FLOW_WINDOW))
  {
    GrantedSnoc(s.toDaemon, Grant(FILE_FLOW_WINDOW));
    ControlsSnoc(s.toDaemon, Grant(FILE_FLOW_WINDOW));
    hide Payload, Granted, RealGrants, Controls, Carries;
    if HostActive(s) {
    } else {
    }
  }

  lemma GrantingKeepsRest(file: seq<Byte>, s: State, window: nat)
    requires DataInv(file, s) && KnowledgeInv(s) && (s.host.phase == Granting || s.host.phase == Working)
    ensures DataInv(file, Grants(s, window)) && KnowledgeInv(Grants(s, window))
  {
    CarriesSnoc(s.toDaemon, Grant(window));
    hide Carries, Payload, Shaped, Spent;
    if HostActive(s) {
    } else {
    }
  }

  lemma WritingKeepsInv(file: seq<Byte>, s: State, chunk: seq<Byte>)
    requires Inv(file, s) && s.host.inbox != [] && s.host.inbox[0] == Chunk(chunk) && s.host.phase == Working
    ensures Inv(file, Written(Popped(s), chunk))
  {
    hide DataInv, CreditInv, KnowledgeInv;
    var (held, grant) := FileTransfer.Consume(s.host.held, |chunk|);
    var appended := Appended(s, chunk, held);
    assert Written(Popped(s), chunk) == if grant == 0 then appended else Grants(appended, grant);
    AppendingKeepsData(file, s, chunk, held);
    AppendingKeepsKnowledge(s, chunk, held);
    if grant == 0 {
      KeepingBackKeepsCredit(s, chunk);
    } else {
      hide Grants, Written;
      ReturningKeepsCredit(s, chunk);
      GrantingKeepsRest(file, appended, grant);
    }
  }

  lemma TakingKeepsInv(file: seq<Byte>, s: State)
    requires Inv(file, s) && s.host.inbox != [] && (s.host.phase == Opening || s.host.phase == Working)
    ensures Inv(file, Taken(s))
  {
    hide Inv, HostFails, Written;
    var message := s.host.inbox[0];
    if message.Meta? && s.host.phase == Opening {
      OpeningKeepsInv(file, s);
    } else if message.Chunk? && s.host.phase == Working {
      WritingKeepsInv(file, s, message.bytes);
    } else if message.End? && s.host.phase == Working {
      EndingKeepsInv(file, s);
    } else {
      if message.End? || message.Failure? {
        LastFrameMeansOver(file, s);
      }
      RefusingKeepsInv(file, s, message.End? || message.Failure?);
    }
  }

  lemma ReceivingKeepsInv(file: seq<Byte>, s: State)
    requires Inv(file, s) && HostReceives(s).Some? && (s.host.phase == Opening || s.host.phase == Working)
    ensures Inv(file, HostReceives(s).value)
  {
    hide Inv, HostFails, Taken;
    if s.host.canceled {
      HostFailingKeepsInv(file, s, true);
    } else if s.host.inbox != [] {
      TakingKeepsInv(file, s);
    } else {
      HostFailingKeepsInv(file, s, false);
    }
  }

  lemma SucceedingKeepsInv(file: seq<Byte>, s: State)
    requires Inv(file, s) && s.host.phase == Flushing
    ensures Inv(file, HostSteps(s).value)
  {
    hide Carries, Payload, Shaped, Spent, Granted, RealGrants, Controls;
  }

  lemma GoingOnKeepsInv(file: seq<Byte>, s: State)
    requires Inv(file, s) && s.host.phase == GrantSent && HostActive(s)
    ensures Inv(file, s.(host := s.host.(phase := Working)))
  {
    hide Carries, Payload, Shaped, Spent, Granted, RealGrants, Controls;
  }

  lemma HostStepKeepsInv(file: seq<Byte>, s: State)
    requires Inv(file, s) && HostSteps(s).Some?
    ensures Inv(file, HostSteps(s).value)
  {
    hide DataInv, CreditInv, KnowledgeInv, HostReceives, HostFails, Grants;
    match s.host.phase
    case Opening => ReceivingKeepsInv(file, s);
    case Working => ReceivingKeepsInv(file, s);
    case Granting =>
      GrantingKeepsCredit(s);
      GrantingKeepsRest(file, s, FILE_FLOW_WINDOW);
    case GrantSent =>
      if HostActive(s) {
        GoingOnKeepsInv(file, s);
      } else {
        HostFailingKeepsInv(file, s, false);
      }
    case Flushing => SucceedingKeepsInv(file, s);
  }

  lemma SendingCancelKeepsCredit(s: State)
    requires CreditInv(s) && CancelSent(s).Some?
    ensures CreditInv(CancelSent(s).value)
  {
    GrantedSnoc(s.toDaemon, Cancel);
    ControlsSnoc(s.toDaemon, Cancel);
    hide Carries, Payload, Granted, RealGrants, Controls;
  }

  lemma SendingCancelKeepsKnowledge(s: State)
    requires KnowledgeInv(s) && CancelSent(s).Some?
    ensures KnowledgeInv(CancelSent(s).value)
  {
    CarriesSnoc(s.toDaemon, Cancel);
    hide Carries;
    if s.open {
    } else {
    }
  }

  lemma SendingCancelKeepsData(file: seq<Byte>, s: State)
    requires DataInv(file, s) && CancelSent(s).Some?
    ensures DataInv(file, CancelSent(s).value)
  {
    hide Carries, Payload, Shaped, Spent;
  }

  lemma SendingCancelKeepsInv(file: seq<Byte>, s: State)
    requires Inv(file, s) && CancelSent(s).Some?
    ensures Inv(file, CancelSent(s).value)
  {
    hide DataInv, CreditInv, KnowledgeInv, CancelSent;
    SendingCancelKeepsData(file, s);
    SendingCancelKeepsCredit(s);
    SendingCancelKeepsKnowledge(s);
  }

  // ---- The host's reader ----

  function Dropped(s: State): State
    requires s.toHost != []
  {
    s.(toHost := s.toHost[1..])
  }

  /** A frame is lost, for want of a route or of room. */
  lemma DroppingKeepsData(file: seq<Byte>, s: State, h: Host)
    requires DataInv(file, s) && s.toHost != []
    requires h == s.host.(routed := false, canceled := h.canceled, cancels := h.cancels)
    ensures DataInv(file, Dropped(s).(host := h))
  {
    CarriesFirst(s.toHost);
    ShapedTail(s.toHost);
    hide Carries, Payload, Shaped, Spent;
  }

  lemma DroppingKeepsCredit(s: State, h: Host)
    requires CreditInv(s) && s.toHost != []
    requires h == s.host.(routed := false, canceled := h.canceled, cancels := h.cancels)
    ensures CreditInv(Dropped(s).(host := h))
  {
    FirstOf(s.toHost);
    hide Carries, Payload, Granted, RealGrants, Controls;
  }

  lemma DroppingKeepsInv(file: seq<Byte>, s: State)
    requires Inv(file, s) && s.toHost != [] && s.open && !s.host.routed
    ensures Inv(file, Dropped(s))
  {
    DroppingKeepsData(file, s, s.host);
    DroppingKeepsCredit(s, s.host);
    CarriesFirst(s.toHost);
    hide DataInv, CreditInv, Carries;
  }

  lemma OverflowKeepsInv(file: seq<Byte>, s: State)
    requires Inv(file, s) && s.toHost != [] && s.open && s.host.routed
    ensures Inv(file, Dropped(s).(host := s.host.(routed := false, canceled := true, cancels := s.host.cancels + 1)))
  {
    var h := s.host.(routed := false, canceled := true, cancels := s.host.cancels + 1);
    DroppingKeepsData(file, s, h);
    DroppingKeepsCredit(s, h);
    CarriesFirst(s.toHost);
    hide DataInv, CreditInv, Carries;
  }

  function Queued(s: State): State
    requires s.toHost != []
  {
    Dropped(s).(host := s.host.(inbox := s.host.inbox + [s.toHost[0]]))
  }

  lemma Regrouped(received: seq<Byte>, queued: seq<Byte>, chunk: seq<Byte>, rest: seq<Byte>, unsent: seq<Byte>)
    ensures received + (queued + chunk) + rest + unsent == received + queued + (chunk + rest) + unsent
    ensures received + (queued + chunk) <= received + queued + (chunk + rest) + unsent
  {
  }

  lemma QueueingChunkKeepsBytes(file: seq<Byte>, s: State, chunk: seq<Byte>)
    requires BytesInv(file, s.host, s.daemon.unsent, s.toHost, s.open) && s.toHost != [] && s.host.routed
    requires (s.toHost[0] == Chunk(chunk) && !EndTaken(s.host)) || (s.toHost[0] != End && chunk == [])
    requires !s.toHost[0].Chunk? || s.toHost[0] == Chunk(chunk)
    ensures BytesInv(file, Queued(s).host, s.daemon.unsent, s.toHost[1..], s.open)
  {
    var h, rest := s.host, s.toHost[1..];
    FirstOf(s.toHost);
    CarriesSnoc(h.inbox, s.toHost[0]);
    PayloadSnoc(h.inbox, s.toHost[0]);
    Regrouped(h.received, Payload(h.inbox), chunk, Payload(rest), s.daemon.unsent);
    assert EndTaken(Queued(s).host) == EndTaken(h) by { hide BytesInv, Payload, Carries; }
    hide Carries, Payload, EndTaken;
  }

  lemma QueueingEndKeepsBytes(file: seq<Byte>, s: State)
    requires BytesInv(file, s.host, s.daemon.unsent, s.toHost, s.open) && s.toHost != [] && s.host.routed
    requires s.toHost[0] == End && Spent(s.toHost[1..]) && s.daemon.unsent == []
    ensures BytesInv(file, Queued(s).host, s.daemon.unsent, s.toHost[1..], s.open)
  {
    FirstOf(s.toHost);
    CarriesSnoc(s.host.inbox, End);
    PayloadSnoc(s.host.inbox, End);
    SpentCarriesNothing(s.toHost[1..]);
    hide Carries, Payload, Spent;
  }

  lemma QueueingKeepsBytes(file: seq<Byte>, s: State)
    requires DataInv(file, s) && s.toHost != [] && s.host.routed
    ensures BytesInv(file, Queued(s).host, s.daemon.unsent, s.toHost[1..], s.open)
  {
    var first := s.toHost[0];
    ShapedTail(s.toHost);
    assert EndTaken(s.host) ==> !first.Chunk? && !first.End?;
    CarriesFirst(s.toHost);
    hide BytesInv, Carries, Shaped, Spent;
    match first
    case Chunk(chunk) => QueueingChunkKeepsBytes(file, s, chunk);
    case End => QueueingEndKeepsBytes(file, s);
    case _ => QueueingChunkKeepsBytes(file, s, []);
  }

  lemma QueueingKeepsMarks(s: State)
    requires MarksInv(s.host, s.daemon, s.toHost) && s.toHost != [] && s.host.routed
    ensures MarksInv(Queued(s).host, s.daemon, s.toHost[1..])
  {
    CarriesFirst(s.toHost);
    CarriesSnoc(s.host.inbox, s.toHost[0]);
    ShapedTail(s.toHost);
    assert EndTaken(s.host) ==> s.toHost[0] != End && !s.toHost[0].Chunk?;
    if s.host.phase != HostFailed && (Carries(s.host.inbox, End) ==> EndTaken(s.host)) {
      ShapedSnoc(s.host.inbox, s.toHost[0]);
    }
    assert Spent(s.host.inbox) && EndTaken(s.host) ==> Spent(s.host.inbox + [s.toHost[0]]);
    hide Carries, Shaped, Spent;
  }

  lemma QueueingKeepsCredit(s: State)
    requires CreditInv(s) && s.toHost != []
    ensures CreditInv(Queued(s))
  {
    FirstOf(s.toHost);
    PayloadSnoc(s.host.inbox, s.toHost[0]);
    hide Carries, Payload, Granted, RealGrants, Controls;
  }

  lemma QueueingKeepsKnowledge(s: State)
    requires KnowledgeInv(s) && s.toHost != [] && s.open && s.host.routed
    ensures KnowledgeInv(Queued(s))
  {
    CarriesFirst(s.toHost);
    CarriesSnoc(s.host.inbox, s.toHost[0]);
    hide Carries;
  }

  lemma QueueingKeepsInv(file: seq<Byte>, s: State)
    requires Inv(file, s) && s.toHost != [] && s.open && s.host.routed
    ensures Inv(file, Queued(s))
  {
    QueueingKeepsCredit(s);
    QueueingKeepsKnowledge(s);
    QueueingKeepsMarks(s);
    QueueingKeepsBytes(file, s);
    hide CreditInv, KnowledgeInv, BytesInv, MarksInv;
  }

  lemma ArrivalAtHostKeepsInv(file: seq<Byte>, s: State)
    requires Inv(file, s) && ArrivedAtHost(s).Some?
    ensures Inv(file, ArrivedAtHost(s).value)
  {
    hide Inv;
    if !s.host.routed {
      DroppingKeepsInv(file, s);
    } else if |s.host.inbox| >= ROUTE_CAPACITY {
      OverflowKeepsInv(file, s);
    } else {
      QueueingKeepsInv(file, s);
    }
  }

  // ---- The daemon ----

  lemma DaemonFailingKeepsInv(file: seq<Byte>, s: State)
    requires Inv(file, s) && Serving(s.daemon.phase)
    ensures Inv(file, DaemonFails(s))
  {
    hide Carries, Payload, Shaped, Spent, Granted, RealGrants, Controls;
  }

  lemma StartingKeepsData(file: seq<Byte>, s: State)
    requires DataInv(file, s) && s.daemon.phase == Starting && DaemonActive(s)
    ensures DataInv(file, DaemonSteps(s).value)
  {
    CarriesSnoc(s.toHost, Meta);
    PayloadSnoc(s.toHost, Meta);
    ShapedSnoc(s.toHost, Meta);
    assert Spent(s.toHost) ==> Spent(s.toHost + [Meta]);
    hide Carries, Payload, Shaped, Spent;
  }

  lemma StartingKeepsInv(file: seq<Byte>, s: State)
    requires Inv(file, s) && s.daemon.phase == Starting && DaemonActive(s)
    ensures Inv(file, DaemonSteps(s).value)
  {
    StartingKeepsData(file, s);
    CarriesSnoc(s.toHost, Meta);
    PayloadSnoc(s.toHost, Meta);
    hide DataInv, Carries, Payload, Granted, RealGrants, Controls;
  }

  lemma ReadingKeepsInv(file: seq<Byte>, s: State, n: nat)
    requires Inv(file, s) && ReadFile(s, n).Some?
    ensures Inv(file, ReadFile(s, n).value)
  {
    hide Carries, Payload, Shaped, Spent, Granted, RealGrants, Controls;
  }

  predicate Covered(s: State, n: nat) {
    s.daemon.phase == Holding(n) && DaemonActive(s) && n <= s.daemon.credit && n <= |s.daemon.unsent|
  }

  lemma ChunkKeepsBytes(file: seq<Byte>, s: State, n: nat)
    requires BytesInv(file, s.host, s.daemon.unsent, s.toHost, s.open) && Covered(s, n)
    ensures BytesInv(file, s.host, s.daemon.unsent[n..], s.toHost + [Chunk(s.daemon.unsent[..n])], s.open)
  {
    PayloadSnoc(s.toHost, Chunk(s.daemon.unsent[..n]));
    assert s.daemon.unsent == s.daemon.unsent[..n] + s.daemon.unsent[n..];
    hide Carries, Payload;
  }

  lemma ChunkKeepsData(file: seq<Byte>, s: State, n: nat)
    requires DataInv(file, s) && Covered(s, n)
    ensures DataInv(file, ChunkSent(s, n).value)
  {
    var chunk := Chunk(s.daemon.unsent[..n]);
    CarriesSnoc(s.toHost, chunk);
    ShapedSnoc(s.toHost, chunk);
    ChunkKeepsBytes(file, s, n);
    hide Carries, BytesInv, Shaped, Spent;
  }

  lemma ChunkKeepsCredit(s: State, n: nat)
    requires CreditInv(s) && Covered(s, n)
    ensures CreditInv(ChunkSent(s, n).value)
  {
    PayloadSnoc(s.toHost, Chunk(s.daemon.unsent[..n]));
    hide Payload, Granted, RealGrants, Controls, Carries;
  }

  lemma ChunkKeepsKnowledge(s: State, n: nat)
    requires KnowledgeInv(s) && Covered(s, n)
    ensures KnowledgeInv(ChunkSent(s, n).value)
  {
    CarriesSnoc(s.toHost, Chunk(s.daemon.unsent[..n]));
    hide Carries;
  }

  lemma ChunkKeepsInv(file: seq<Byte>, s: State, n: nat)
    requires Inv(file, s) && Covered(s, n)
    ensures Inv(file, ChunkSent(s, n).value)
  {
    hide DataInv, CreditInv, KnowledgeInv, ChunkSent;
    ChunkKeepsData(file, s, n);
    ChunkKeepsCredit(s, n);
    ChunkKeepsKnowledge(s, n);
  }

  lemma CompletingKeepsInv(file: seq<Byte>, s: State)
    requires Inv(file, s) && s.daemon.phase == Sending && s.daemon.unsent == [] && DaemonActive(s)
    ensures Inv(file, Posted(s, End, s.daemon.(phase := Complete)))
  {
    CarriesSnoc(s.toHost, End);
    PayloadSnoc(s.toHost, End);
    ShapedSnoc(s.toHost, End);
    hide Carries, Payload, Shaped, Spent, Granted, RealGrants, Controls;
  }

  lemma ReportingKeepsRest(file: seq<Byte>, s: State)
    requires DataInv(file, s) && CreditInv(s) && s.daemon.phase == Reporting
    ensures DataInv(file, DaemonSteps(s).value) && CreditInv(DaemonSteps(s).value)
  {
    CarriesSnoc(s.toHost, Failure);
    PayloadSnoc(s.toHost, Failure);
    ShapedSnoc(s.toHost, Failure);
    assert Spent(s.toHost) ==> Spent(s.toHost + [Failure]);
    hide Carries, Payload, Shaped, Spent, Granted, RealGrants, Controls;
    if s.open && !s.daemon.canceled {
    } else {
    }
  }

  lemma ReportingKeepsInv(file: seq<Byte>, s: State)
    requires Inv(file, s) && s.daemon.phase == Reporting
    ensures Inv(file, DaemonSteps(s).value)
  {
    ReportingKeepsRest(file, s);
    CarriesSnoc(s.toHost, Failure);
    hide DataInv, CreditInv, Carries;
    if s.open && !s.daemon.canceled {
    } else {
    }
  }

  lemma UnregisteringKeepsInv(file: seq<Byte>, s: State)
    requires Inv(file, s) && (s.daemon.phase == Failing || s.daemon.phase == Finishing)
    ensures Inv(file, DaemonSteps(s).value)
  {
    hide Carries, Payload, Shaped, Spent, Granted, RealGrants, Controls;
  }

  lemma DaemonStepKeepsInv(file: seq<Byte>, s: State)
    requires Inv(file, s) && DaemonSteps(s).Some?
    ensures Inv(file, DaemonSteps(s).value)
  {
    hide Inv, DaemonFails;
    match s.daemon.phase
    case Starting =>
      if DaemonActive(s) {
        StartingKeepsInv(file, s);
      } else {
        DaemonFailingKeepsInv(file, s);
      }
    case Sending =>
      if s.daemon.told || !DaemonActive(s) {
        DaemonFailingKeepsInv(file, s);
      } else {
        CompletingKeepsInv(file, s);
      }
    case Holding(n) =>
      if DaemonActive(s) {
        ChunkKeepsInv(file, s, n);
      } else {
        DaemonFailingKeepsInv(file, s);
      }
    case Reporting => ReportingKeepsInv(file, s);
    case _ => UnregisteringKeepsInv(file, s);
  }

  lemma GrantArrivingKeepsInv(file: seq<Byte>, s: State, window: nat)
    requires Inv(file, s) && s.toDaemon != [] && s.toDaemon[0] == Grant(window) && s.open && !DaemonEnded(s)
    ensures Inv(file, s.(toDaemon := s.toDaemon[1..], daemon := Credited(s.daemon, window)))
  {
    FirstOf(s.toDaemon);
    ControlsTail(s.toDaemon);
    hide Carries, Payload, Shaped, Spent, Granted, RealGrants, Controls;
  }

  lemma GrantIgnoringKeepsInv(file: seq<Byte>, s: State)
    requires Inv(file, s) && s.toDaemon != [] && s.toDaemon[0].Grant? && s.open && DaemonEnded(s)
    ensures Inv(file, s.(toDaemon := s.toDaemon[1..]))
  {
    FirstOf(s.toDaemon);
    ControlsTail(s.toDaemon);
    hide Carries, Payload, Shaped, Spent, Granted, RealGrants, Controls;
  }

  lemma CancelArrivingKeepsInv(file: seq<Byte>, s: State)
    requires Inv(file, s) && s.toDaemon != [] && s.toDaemon[0] == Cancel && s.open
    ensures Inv(file, s.(toDaemon := s.toDaemon[1..], daemon := s.daemon.(canceled := true, told := true)))
  {
    FirstOf(s.toDaemon);
    ControlsTail(s.toDaemon);
    hide Carries, Payload, Shaped, Spent, Granted, RealGrants, Controls;
  }

  lemma ArrivalAtDaemonKeepsInv(file: seq<Byte>, s: State)
    requires Inv(file, s) && ArrivedAtDaemon(s).Some?
    ensures Inv(file, ArrivedAtDaemon(s).value)
  {
    assert s.toDaemon[0].Grant? || s.toDaemon[0].Cancel? by { ControlsTail(s.toDaemon); }
    hide Inv, Credited;
    match s.toDaemon[0] {
      case Grant(window) =>
        if DaemonEnded(s) {
          GrantIgnoringKeepsInv(file, s);
        } else {
          GrantArrivingKeepsInv(file, s, window);
        }
      case Cancel => CancelArrivingKeepsInv(file, s);
    }
  }

  lemma DisconnectKeepsData(file: seq<Byte>, s: State)
    requires DataInv(file, s) && s.open
    ensures DataInv(file, Disconnected(s).value)
  {
    assert !Carries([], End) && Shaped([]) && Spent([]);
    hide Carries, Payload, Shaped, Spent;
  }

  lemma DisconnectKeepsCredit(s: State)
    requires CreditInv(s) && s.open
    ensures CreditInv(Disconnected(s).value)
  {
    assert Payload([]) == [] && Granted([]) == 0 && RealGrants([]) && Controls([]);
    hide Payload, Granted, RealGrants, Controls;
  }

  lemma DisconnectKeepsInv(file: seq<Byte>, s: State)
    requires Inv(file, s) && s.open
    ensures Inv(file, Disconnected(s).value)
  {
    DisconnectKeepsData(file, s);
    DisconnectKeepsCredit(s);
    assert forall m :: !Carries([], m);
    hide Carries, DataInv, CreditInv;
  }

  lemma HostBreakingKeepsInv(file: seq<Byte>, s: State)
    requires Inv(file, s) && !HostEnded(s)
    ensures Inv(file, HostFails(s, s.host.phase == Flushing))
  {
    assert s.host.phase == Flushing ==> !Serving(s.daemon.phase) by { hide BytesInv, CreditInv, KnowledgeInv; }
    hide Inv, HostFails;
    HostFailingKeepsInv(file, s, s.host.phase == Flushing);
  }

  lemma ClosedBefore(s: State)
    requires Disconnected(s).Some?
    ensures s.open
  {
  }

  lemma StepKeepsInv(file: seq<Byte>, s: State, action: Action)
    requires Inv(file, s) && Apply(s, action).Some?
    ensures Inv(file, Apply(s, action).value)
  {
    hide Inv, HostSteps, ReadFile, CancelSent, ArrivedAtHost, DaemonSteps, ArrivedAtDaemon, Disconnected;
    hide HostFails, DaemonFails;
    match action
    case HostStep => HostStepKeepsInv(file, s);
    case SendCancel => SendingCancelKeepsInv(file, s);
    case ArriveAtHost => ArrivalAtHostKeepsInv(file, s);
    case DaemonStep => DaemonStepKeepsInv(file, s);
    case Read(n) => ReadingKeepsInv(file, s, n);
    case ArriveAtDaemon => ArrivalAtDaemonKeepsInv(file, s);
    case HostBreaks => HostBreakingKeepsInv(file, s);
    case DaemonBreaks => DaemonFailingKeepsInv(file, s);
    case Disconnect => ClosedBefore(s); DisconnectKeepsInv(file, s);
  }

  lemma {:induction false} RunKeepsInv(file: seq<Byte>, s: State, actions: seq<Action>)
    requires Inv(file, s) && Exec(s, actions).Some?
    ensures Inv(file, Exec(s, actions).value)
    decreases |actions|
  {
    hide Apply, Inv;
    if actions != [] {
      StepKeepsInv(file, s, actions[0]);
      RunKeepsInv(file, Apply(s, actions[0]).value, actions[1..]);
    }
  }

  ghost predicate Reachable(file: seq<Byte>, s: State, actions: seq<Action>) {
    Exec(Initial(file), actions) == Some(s)
  }

  lemma StartKeepsInv(file: seq<Byte>)
    ensures Inv(file, Initial(file))
  {
    var s := Initial(file);
    assert Payload([]) == [] && Granted([]) == 0 && RealGrants([]) && Controls([]) && Shaped([]) && Spent([]);
    assert forall m :: !Carries([], m);
    hide Payload, Granted, RealGrants, Controls, Carries, Shaped, Spent;
    assert BytesInv(file, s.host, s.daemon.unsent, s.toHost, s.open);
    assert MarksInv(s.host, s.daemon, s.toHost);
    hide BytesInv, MarksInv;
    assert CreditInv(s);
    hide CreditInv;
  }

  lemma ReachableKeepsInv(file: seq<Byte>, s: State, actions: seq<Action>)
    requires Reachable(file, s, actions)
    ensures Inv(file, s)
  {
    hide Exec, Inv;
    StartKeepsInv(file);
    RunKeepsInv(file, Initial(file), actions);
  }

  // ---- What a pull guarantees ----

  /** However a pull is disturbed, what the host has written is the beginning of the file, with no gap and nothing
      foreign, and no window update is rejected. */
  lemma ReceivedIsAPrefix(file: seq<Byte>, s: State, actions: seq<Action>)
    requires Reachable(file, s, actions)
    ensures s.host.received <= file && !s.daemon.broken && |Payload(s.host.inbox)| <= FILE_FLOW_WINDOW
  {
    ReachableKeepsInv(file, s, actions);
    hide Exec, Payload, MarksInv, KnowledgeInv, Reachable;
  }

  /** When the host reports success, both ends are done and the whole file has been written. */
  lemma HostSuccessMeansDelivered(file: seq<Byte>, s: State, actions: seq<Action>)
    requires Reachable(file, s, actions) && s.host.phase == Succeeded
    ensures s.host.received == file && s.daemon.phase == Complete && s.daemon.unsent == []
  {
    ReachableKeepsInv(file, s, actions);
    SpentCarriesNothing(s.host.inbox) by { hide BytesInv, CreditInv, KnowledgeInv; }
    hide Exec, Payload, KnowledgeInv, CreditInv, Shaped, Spent, Reachable;
  }

  predicate HostWaits(s: State) {
    && (s.host.phase == Opening || s.host.phase == Working)
    && !s.host.canceled && s.host.inbox == [] && s.host.routed
  }

  predicate DaemonWaits(s: State) { s.daemon.phase.Holding? && DaemonActive(s) && s.daemon.phase.n > s.daemon.credit }

  predicate NothingPending(s: State) { (s.open ==> s.toHost == [] && s.toDaemon == []) && s.host.cancels == 0 }

  /** With nothing under way, a host at work has returned all but half a window. */
  lemma QuietDaemonHasCredit(s: State)
    requires CreditInv(s) && s.toDaemon == [] && s.toHost == [] && HostWaits(s) && Serving(s.daemon.phase)
    ensures s.host.granted ==> s.daemon.credit > FILE_FLOW_WINDOW - FILE_FLOW_UPDATE_THRESHOLD
  {
    assert Payload([]) == [] && Granted([]) == 0;
  }

  lemma HeldChunkFits(file: seq<Byte>, s: State)
    requires Inv(file, s)
    ensures s.daemon.phase.Holding? ==> 1 <= s.daemon.phase.n <= |s.daemon.unsent|
    ensures s.daemon.phase.Holding? ==> s.daemon.phase.n <= FILE_BUFFER_SIZE
  {
    hide BytesInv, CreditInv, KnowledgeInv, Carries, Shaped, Spent;
  }

  lemma WaitingEndsOnBothSides(file: seq<Byte>, s: State)
    requires Inv(file, s) && NothingPending(s)
    requires (HostEnded(s) || HostWaits(s)) && (DaemonEnded(s) || DaemonWaits(s))
    ensures HostEnded(s) && DaemonEnded(s)
  {
    assert forall m :: !Carries([], m);
    HeldChunkFits(file, s);
    if HostWaits(s) && DaemonWaits(s) {
      QuietDaemonHasCredit(s);
    }
    hide Carries, BytesInv, InFlight, Shaped, Spent;
  }

  /** As long as an end has not finished, something is due. */
  lemma SomethingIsDue(file: seq<Byte>, s: State) returns (action: Action)
    requires Inv(file, s) && !(DaemonEnded(s) && HostEnded(s))
    ensures Due(action) && Apply(s, action).Some?
  {
    hide Inv, Taken, HostFails, Delivered, Posted, Written, DaemonFails, Credited;
    HeldChunkFits(file, s);
    if s.open && s.toHost != [] {
      action := ArriveAtHost;
    } else if s.open && s.toDaemon != [] {
      action := ArriveAtDaemon;
    } else if s.host.cancels > 0 {
      action := SendCancel;
    } else if !HostEnded(s) && !HostWaits(s) {
      action := HostStep;
    } else if !DaemonEnded(s) && !DaemonWaits(s) {
      action := if s.daemon.phase == Sending && !s.daemon.told && s.daemon.unsent != [] then Read(1) else DaemonStep;
    } else {
      WaitingEndsOnBothSides(file, s);
    }
  }

  function HostWork(h: Host): nat {
    3 * |h.inbox| + 2 * h.cancels
    + (match h.phase
       case Opening => 7
       case Granting => 6
       case GrantSent => 4
       case Working => 3
       case Flushing => 1
       case _ => 0)
  }

  function DaemonWork(d: Daemon): nat {
    6 * |d.unsent|
    + (match d.phase
       case Starting => 14
       case Sending => 9
       case Holding(_) => 8
       case Failing => 7
       case Reporting => 6
       case Finishing => 1
       case _ => 0)
  }

  /** A bound on the steps still to come. */
  function Work(s: State): nat {
    HostWork(s.host) + DaemonWork(s.daemon) + |s.toDaemon| + 4 * |s.toHost| + if s.open then 1 else 0
  }

  lemma HostFailingReducesWork(s: State, completed: bool)
    requires !HostEnded(s) && (s.host.phase == Flushing ==> completed)
    ensures Work(HostFails(s, completed)) < Work(s)
  {
    hide DaemonWork;
  }

  lemma GrantingReducesWork(s: State, window: nat)
    requires s.host.phase == Granting
    ensures Work(Grants(s, window)) < Work(s)
  {
    HostFailingReducesWork(s, false);
    hide DaemonWork, HostFails;
  }

  lemma WritingReducesWork(s: State, bytes: seq<Byte>)
    requires s.host.inbox != [] && s.host.phase == Working
    ensures Work(Written(Popped(s), bytes)) < Work(s)
  {
    hide DaemonWork, FileTransfer.Consume;
    var (held, grant) := FileTransfer.Consume(s.host.held, |bytes|);
    if grant == 0 {
    } else if HostActive(s) {
    } else {
    }
  }

  lemma TakingReducesWork(s: State)
    requires s.host.inbox != [] && (s.host.phase == Opening || s.host.phase == Working)
    ensures Work(Taken(s)) < Work(s)
  {
    hide DaemonWork, Written;
    var message := s.host.inbox[0];
    if message.Meta? && s.host.phase == Opening {
    } else if message.Chunk? && s.host.phase == Working {
      WritingReducesWork(s, message.bytes);
    } else if message.End? && s.host.phase == Working {
    } else {
    }
  }

  lemma HostStepReducesWork(s: State)
    requires HostSteps(s).Some?
    ensures Work(HostSteps(s).value) < Work(s)
  {
    hide DaemonWork, HostFails, Taken, Grants;
    match s.host.phase
    case Granting => GrantingReducesWork(s, FILE_FLOW_WINDOW);
    case Flushing =>
    case GrantSent => HostFailingReducesWork(s, false);
    case _ =>
      HostFailingReducesWork(s, true);
      HostFailingReducesWork(s, false);
      if s.host.inbox != [] {
        TakingReducesWork(s);
      }
  }

  lemma PostingReducesWork(s: State, message: Message, daemon: Daemon)
    requires DaemonWork(daemon) + 4 < DaemonWork(s.daemon)
    requires DaemonWork(s.daemon.(phase := Failing)) < DaemonWork(s.daemon)
    ensures Work(Posted(s, message, daemon)) < Work(s)
  {
    hide HostWork, DaemonWork;
  }

  lemma ChunkReducesWork(s: State, n: nat)
    requires s.daemon.phase == Holding(n) && n > 0 && ChunkSent(s, n).Some?
    ensures Work(ChunkSent(s, n).value) < Work(s)
  {
    hide HostWork;
  }

  lemma DaemonStepReducesWork(s: State)
    requires DaemonSteps(s).Some? && (s.daemon.phase.Holding? ==> s.daemon.phase.n > 0)
    ensures Work(DaemonSteps(s).value) < Work(s)
  {
    var d := s.daemon;
    match d.phase
    case Starting =>
      PostingReducesWork(s, Meta, d.(phase := Sending));
      hide HostWork, DaemonWork, Posted;
    case Sending =>
      PostingReducesWork(s, End, d.(phase := Complete));
      hide HostWork, Posted;
    case Holding(n) =>
      ChunkReducesWork(s, n);
      hide HostWork, DaemonWork, ChunkSent;
    case _ =>
      hide HostWork;
  }

  lemma StepReducesWork(s: State, action: Action)
    requires Apply(s, action).Some? && (s.daemon.phase.Holding? ==> s.daemon.phase.n > 0)
    ensures Work(Apply(s, action).value) < Work(s)
  {
    hide HostSteps, DaemonSteps, HostFails, Credited;
    match action
    case HostStep => HostStepReducesWork(s);
    case DaemonStep => DaemonStepReducesWork(s);
    case HostBreaks => HostFailingReducesWork(s, s.host.phase == Flushing);
    case ArriveAtHost => hide DaemonWork;
    case ArriveAtDaemon => hide HostWork;
    case _ =>
  }

  lemma {:induction false} RunsAreBounded(file: seq<Byte>, s: State, actions: seq<Action>)
    requires Inv(file, s) && Exec(s, actions).Some?
    ensures |actions| + Work(Exec(s, actions).value) <= Work(s)
    decreases |actions|
  {
    hide Apply, Work, Inv;
    if actions != [] {
      HeldChunkFits(file, s);
      StepReducesWork(s, actions[0]);
      StepKeepsInv(file, s, actions[0]);
      RunsAreBounded(file, Apply(s, actions[0]).value, actions[1..]);
    }
  }

  /** Only an error at either end or loss of the connection can go on. */
  ghost predicate Quiet(s: State) { forall action :: Due(action) ==> Apply(s, action).None? }

  /** No pull hangs, with whatever overflow, cancellation, error or loss of the connection: a run has at most
      `6 * |file| + 22` steps, and when nothing is due any more both ends have finished. */
  lemma EveryPullEnds(file: seq<Byte>, s: State, actions: seq<Action>)
    requires Reachable(file, s, actions)
    ensures |actions| <= 6 * |file| + 22
    ensures Quiet(s) ==> HostEnded(s) && DaemonEnded(s)
  {
    StartKeepsInv(file);
    ReachableKeepsInv(file, s, actions);
    hide Inv, Apply, Reachable;
    RunsAreBounded(file, Initial(file), actions);
    if Quiet(s) && !(DaemonEnded(s) && HostEnded(s)) {
      var action := SomethingIsDue(file, s);
    }
  }

  /** The two ends need not agree: if the connection is lost with the end marker, the daemon is done and the host
      reports an error. */
  lemma DaemonMaySucceedAlone() returns (s: State, actions: seq<Action>)
    ensures Reachable([], s, actions) && s.daemon.phase == Complete && s.host.phase == HostFailed
  {
    var s0 := Initial([]);
    var s1 := s0.(daemon := s0.daemon.(phase := Sending), toHost := [Meta]);
    var s2 := s1.(daemon := s0.daemon.(phase := Complete), toHost := [Meta, End]);
    var s3 := Disconnected(s2).value;
    s := HostFails(s3, false);
    actions := [DaemonStep, DaemonStep, Disconnect, HostStep];
    assert [] + [Meta] == [Meta] && [Meta] + [End] == [Meta, End];
    assert Apply(s0, DaemonStep) == Some(s1) && Apply(s1, DaemonStep) == Some(s2);
    assert Apply(s2, Disconnect) == Some(s3) && Apply(s3, HostStep) == Some(s);
    hide Apply;
    assert Exec(s, []) == Some(s);
    assert [HostStep][1..] == [] && Exec(s3, [HostStep]) == Some(s);
    assert [Disconnect, HostStep][1..] == [HostStep] && Exec(s2, [Disconnect, HostStep]) == Some(s);
    assert actions[1..][1..] == [Disconnect, HostStep] && Exec(s1, actions[1..]) == Some(s);
  }
}
