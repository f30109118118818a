/** How a push ends: the host's loop and the daemon's handler between two bounded queues, with overflow, cancellation by
    either side, errors and loss of the connection. */
module PushEnds {
  import opened Wrappers
  import opened Bytes
  import opened FlowCredits
  import opened TransferWires
  import FileTransfer

  const FILE_BUFFER_SIZE := FileTransfer.FILE_BUFFER_SIZE
  const FILE_FLOW_WINDOW := FileTransfer.FILE_FLOW_WINDOW
  const FILE_FLOW_UPDATE_THRESHOLD := FileTransfer.FILE_FLOW_UPDATE_THRESHOLD

  /** Awaiting the file's metadata, reading, waiting for credit for `n` bytes, after a chunk was written, looking into
      the queue, after the end marker was written, awaiting the reply. */
  datatype HostPhase =
    Opening | Sending | Holding(n: nat) | Sent | Checking | Ended | Waiting | Succeeded | HostFailed

  /** The host's stream: its route and queue, whether it was canceled, and the cancel frames that its dropping and its
      overflow have still to send. `broken` records a rejected window update. */
  datatype Host = Host(phase: HostPhase, unsent: seq<Byte>, credit: nat, routed: bool, inbox: seq<Message>,
                       canceled: bool, cancels: nat, broken: bool)

  /** The last five: done, the handler returned an error, the stream is unregistered, the error is sent, finished. */
  datatype DaemonPhase =
    Starting | Granting | Working | Complete | Failing | Reporting | Finishing | DaemonFailed

  /** The handler with its route and queue. `canceled` is the writer's mark for the stream, `told` the handler's own
      signal, `spawned` the task that sends the cancel frame after an overflow; `clearing` is the loop after it answered
      a frame without a route. */
  datatype Daemon = Daemon(phase: DaemonPhase, routed: bool, inbox: seq<Message>, canceled: bool, told: bool,
                           spawned: bool, clearing: bool, received: seq<Byte>, held: nat, granted: bool)

  datatype State = State(host: Host, daemon: Daemon, toDaemon: seq<Message>, toHost: seq<Message>, open: bool)

  /** The last three come from outside: the host cannot read the file, the daemon cannot open or write it, the
      connection is lost. */
  datatype Action =
    | HostStep | Read(n: nat) | SendCancel | ArriveAtHost | DaemonStep | SpawnedCancel | ArriveAtDaemon | FinishStream
    | HostBreaks | DaemonBreaks | Disconnect

  /** The steps the program takes by itself, nothing breaking at that moment. */
  predicate Due(action: Action) { !(action.HostBreaks? || action.DaemonBreaks? || action.Disconnect?) }

  /** The daemon has registered the request. */
  function Initial(file: seq<Byte>): State {
    State(Host(Opening, file, 0, true, [], false, 0, false),
          Daemon(Starting, true, [], false, false, false, false, [], 0, false), [], [], true)
  }

  predicate HostEnded(s: State) { s.host.phase.Succeeded? || s.host.phase.HostFailed? }

  predicate Serving(phase: DaemonPhase) { phase == Starting || phase == Granting || phase == Working }

  predicate DaemonEnded(s: State) { s.daemon.phase.Complete? || s.daemon.phase.DaemonFailed? }

  // ---- The host ----

  /** The stream is dropped: its route goes, and the daemon is told unless the stream was completed. */
  function HostFails(s: State, completed: bool): State {
    s.(host := s.host.(phase := HostFailed, routed := false, cancels := s.host.cancels + if completed then 0 else 1))
  }

  function Taken(s: State): State
    requires s.host.inbox != []
  {
    var message, rest := s.host.inbox[0], s.(host := s.host.(inbox := s.host.inbox[1..]));
    if message.Meta? && s.host.phase == Opening then rest.(host := rest.host.(phase := Sending))
    else if message.End? && s.host.phase == Waiting
    then rest.(host := rest.host.(phase := Succeeded, routed := false))
    else HostFails(rest, message.End? || message.Failure?)
  }

  /** `recv`. */
  function HostReceives(s: State): Option<State> {
    if s.host.canceled then Some(HostFails(s, true))
    else if s.host.inbox != [] then Some(Taken(s))
    else if s.host.routed then None
    else Some(HostFails(s, false))
  }

  /** `try_recv`. */
  function HostChecks(s: State): State {
    if s.host.canceled then HostFails(s, true)
    else if s.host.inbox != [] then Taken(s)
    else if s.host.routed then s.(host := s.host.(phase := Sending))
    else HostFails(s, false)
  }

  predicate HostActive(s: State) { s.open && !s.host.canceled }

  /** The send of a chunk sleeps until the credit covers it, the stream is canceled or the connection closed. */
  function ChunkSent(s: State, n: nat): Option<State> {
    if !HostActive(s) then Some(HostFails(s, false))
    else if n > s.host.credit || n > |s.host.unsent| then None
    else Some(s.(host := s.host.(phase := Sent, unsent := s.host.unsent[n..], credit := s.host.credit - n),
                 toDaemon := s.toDaemon + [Chunk(s.host.unsent[..n])]))
  }

  function HostSteps(s: State): Option<State> {
    match s.host.phase
    case Opening => HostReceives(s)
    case Sending =>
      if s.host.unsent != [] then None
      else if !HostActive(s) then Some(HostFails(s, false))
      else Some(s.(host := s.host.(phase := Ended), toDaemon := s.toDaemon + [End]))
    case Holding(n) => ChunkSent(s, n)
    case Sent =>
      Some(if HostActive(s) then s.(host := s.host.(phase := Checking)) else HostFails(s, false))
    case Checking => Some(HostChecks(s))
    case Ended =>
      Some(if HostActive(s) then s.(host := s.host.(phase := Waiting)) else HostFails(s, false))
    case Waiting => HostReceives(s)
    case _ => None
  }

  function ReadFile(s: State, n: nat): Option<State> {
    if s.host.phase != Sending || !(1 <= n <= FILE_BUFFER_SIZE) || n > |s.host.unsent| then None
    else Some(s.(host := s.host.(phase := Holding(n))))
  }

  /** The spawned task queues a cancel frame. */
  function CancelSent(s: State): Option<State> {
    if s.host.cancels == 0 then None
    else Some(s.(host := s.host.(cancels := s.host.cancels - 1), toDaemon := Post(s.open, s.toDaemon, Cancel)))
  }

  function Credited(h: Host, window: nat): (next: Host)
    ensures next == h.(credit := next.credit, broken := next.broken)
  {
    var credit := AddCredit(h.credit, window);
    if credit.None? then h.(broken := true) else h.(credit := credit.value)
  }

  /** The host's reader delivers a frame to the stream. */
  function Delivered(h: Host, message: Message): Host {
    if !h.routed then h
    else match message
      case Grant(window) => Credited(h, window)
      case Cancel => h.(routed := false, canceled := true)
      case _ =>
        if |h.inbox| >= ROUTE_CAPACITY then h.(routed := false, canceled := true, cancels := h.cancels + 1)
        else h.(inbox := h.inbox + [message])
  }

  function ArrivedAtHost(s: State): Option<State> {
    if !s.open || s.toHost == [] then None
    else Some(s.(host := Delivered(s.host, s.toHost[0]), toHost := s.toHost[1..]))
  }

  // ---- The daemon ----

  predicate DaemonActive(s: State) { s.open && !s.daemon.canceled }

  function DaemonFails(s: State): State { s.(daemon := s.daemon.(phase := Failing)) }

  /** A frame is queued and the handler goes on, or fails. A handler that notices only after its last reply was written
      that it was canceled counts as done: it sends nothing more either way. */
  function Replied(s: State, message: Message, daemon: Daemon): State {
    if DaemonActive(s) then s.(daemon := daemon, toHost := s.toHost + [message]) else DaemonFails(s)
  }

  /** A chunk is written; its window is kept back or returned. */
  function Written(s: State, bytes: seq<Byte>): State
    requires s.daemon.inbox != []
  {
    var (held, grant) := FileTransfer.Consume(s.daemon.held, |bytes|);
    var rest := s.(daemon := s.daemon.(inbox := s.daemon.inbox[1..], received := s.daemon.received + bytes));
    if grant == 0 then rest.(daemon := rest.daemon.(held := held))
    else Replied(rest, Grant(grant), rest.daemon.(held := held))
  }

  function DaemonReceives(s: State): Option<State> {
    var d := s.daemon;
    if d.told then Some(DaemonFails(s))
    else if d.inbox == [] then (if d.routed then None else Some(DaemonFails(s)))
    else match d.inbox[0]
      case Chunk(bytes) => Some(Written(s, bytes))
      case End =>
        var rest := s.(daemon := d.(inbox := d.inbox[1..]));
        Some(Replied(rest, End, rest.daemon.(phase := Complete, routed := false)))
      case _ => Some(DaemonFails(s.(daemon := d.(inbox := d.inbox[1..]))))
  }

  function DaemonSteps(s: State): Option<State> {
    var d := s.daemon;
    match d.phase
    case Starting => Some(Replied(s, Meta, d.(phase := Granting)))
    case Granting => Some(Replied(s, Grant(FILE_FLOW_WINDOW), d.(phase := Working, granted := true)))
    case Working => DaemonReceives(s)
    case Failing => Some(s.(daemon := d.(phase := Reporting, routed := false)))
    case Reporting =>
      Some(s.(daemon := d.(phase := Finishing),
              toHost := if d.canceled then s.toHost else Post(s.open, s.toHost, Failure)))
    case Finishing => Some(s.(daemon := d.(phase := DaemonFailed, canceled := false)))
    case _ => None
  }

  function CancelSpawned(s: State): Option<State> {
    if !s.daemon.spawned then None
    else Some(s.(daemon := s.daemon.(spawned := false, canceled := true), toHost := Post(s.open, s.toHost, Cancel)))
  }

  /** The daemon's loop takes a frame: a cancel frame, one for the handler's queue, or one without a route, which is
      answered as an unsupported request. The three effects of a cancel frame are one: a handler that sees the first of
      them only fails as well. */
  function ArrivedAtDaemon(s: State): Option<State> {
    if !s.open || s.toDaemon == [] || s.daemon.clearing then None
    else
      var message, d, rest := s.toDaemon[0], s.daemon, s.(toDaemon := s.toDaemon[1..]);
      if message == Cancel then Some(rest.(daemon := d.(canceled := true, told := true, routed := false)))
      else if !d.routed then
        Some(rest.(daemon := d.(clearing := true), toHost := if d.canceled then s.toHost else s.toHost + [Failure]))
      else if |d.inbox| >= ROUTE_CAPACITY then Some(rest.(daemon := d.(routed := false, spawned := true)))
      else Some(rest.(daemon := d.(inbox := d.inbox + [message])))
  }

  /** After such an answer the loop finishes the stream, which forgets its cancellation. */
  function StreamFinished(s: State): Option<State> {
    if s.daemon.clearing then Some(s.(daemon := s.daemon.(clearing := false, canceled := false))) else None
  }

  /** An error of the handler: before it is ready, or while it writes a chunk or the end. */
  function DaemonBroken(s: State): Option<State> {
    if s.daemon.phase == Starting then Some(DaemonFails(s))
    else if s.daemon.phase == Working && s.daemon.inbox != []
    then Some(DaemonFails(s.(daemon := s.daemon.(inbox := s.daemon.inbox[1..]))))
    else None
  }

  /** Both ends notice; what is queued stays. */
  function Disconnected(s: State): Option<State> {
    if !s.open then None
    else
      Some(State(s.host.(routed := false), s.daemon.(routed := false, canceled := true, told := true), [], [], false))
  }

  function Apply(s: State, action: Action): Option<State> {
    match action
    case HostStep => HostSteps(s)
    case Read(n) => ReadFile(s, n)
    case SendCancel => CancelSent(s)
    case ArriveAtHost => ArrivedAtHost(s)
    case DaemonStep => DaemonSteps(s)
    case SpawnedCancel => CancelSpawned(s)
    case ArriveAtDaemon => ArrivedAtDaemon(s)
    case HostBreaks => if s.host.phase == Sending then Some(HostFails(s, false)) else None
    case FinishStream => StreamFinished(s)
    case DaemonBreaks => DaemonBroken(s)
    case Disconnect => Disconnected(s)
  }

  function Exec(s: State, actions: seq<Action>): Option<State>
    decreases |actions|
  {
    if actions == [] then Some(s)
    else match Apply(s, actions[0])
      case None => None
      case Some(next) => Exec(next, actions[1..])
  }

  // ---- The file ----

  /** The handler has the end marker, or will have it without anything further from the wire. */
  predicate EndTaken(d: Daemon) { Carries(d.inbox, End) || d.phase == Complete }

  predicate DoneSending(phase: HostPhase) {
    phase == Ended || phase == Waiting || phase == Succeeded || phase == HostFailed
  }

  /** What was received, and what is queued for a handler at work, is the beginning of the file; while that is routed
      nothing is missing between it and what the host still has. The end marker stands for the end of the file. */
  ghost predicate BytesInv(file: seq<Byte>, unsent: seq<Byte>, d: Daemon, toDaemon: seq<Message>, open: bool) {
    && d.received <= file
    && (d.routed ==> open)
    && (Serving(d.phase) ==> d.received + Payload(d.inbox) <= file)
    && (Serving(d.phase) && d.routed ==> d.received + Payload(d.inbox) + Payload(toDaemon) + unsent == file)
    && (d.phase == Complete || (Serving(d.phase) && Carries(d.inbox, End))
        ==> d.received + Payload(d.inbox) == file)
  }

  ghost predicate MarksInv(h: Host, d: Daemon, toDaemon: seq<Message>) {
    && Shaped(toDaemon) && Shaped(d.inbox)
    && Plain(d.inbox)
    && (forall m :: m in toDaemon ==> m.Chunk? || m.End? || m.Cancel?)
    && (EndTaken(d) ==> Spent(toDaemon))
    && (d.phase == Complete ==> d.inbox == [] && !d.routed)
    && (Carries(toDaemon, End) || EndTaken(d) ==> DoneSending(h.phase) && h.unsent == [])
    && (h.phase.Holding? ==> 1 <= h.phase.n <= FILE_BUFFER_SIZE && h.phase.n <= |h.unsent|)
  }

  /** A reply comes from a daemon that is done. */
  ghost predicate RolesInv(h: Host, phase: DaemonPhase, toHost: seq<Message>) {
    h.phase == Succeeded || Carries(h.inbox, End) || Carries(toHost, End) ==> phase == Complete
  }

  // ---- The window ----

  function InFlight(s: State): nat {
    s.host.credit + |Payload(s.toDaemon)| + |Payload(s.daemon.inbox)| + s.daemon.held + Granted(s.toHost)
  }

  /** The window never grows, and while both ends are routed and nothing failed it does not shrink. The host has been
      granted at least a window in all. */
  ghost predicate CreditInv(file: seq<Byte>, s: State) {
    var window := if s.daemon.granted then FILE_FLOW_WINDOW else 0;
    && InFlight(s) <= window
    && (s.daemon.routed && s.daemon.phase == Working && s.host.routed ==> InFlight(s) == window)
    && (s.host.routed ==> s.host.credit + Granted(s.toHost) + |file| - |s.host.unsent| >= window)
    && s.daemon.held < FILE_FLOW_UPDATE_THRESHOLD
    && RealGrants(s.toHost)
    && (s.daemon.phase == Working || s.daemon.phase == Complete ==> s.daemon.granted)
    && (s.daemon.phase == Starting || s.daemon.phase == Granting ==> !s.daemon.granted)
    && !s.host.broken
  }

  // ---- Who knows of whose end ----

  /** The host has ended or will notice by itself that it is over, asleep or not. */
  predicate HostKnows(s: State) {
    !s.open || HostEnded(s) || s.host.canceled || Carries(s.toHost, Cancel) || s.daemon.spawned
  }

  /** The metadata is under way or has come. */
  predicate MetaSeen(s: State) {
    Carries(s.toHost, Meta) || Carries(s.host.inbox, Meta) || !(s.host.phase == Opening || HostEnded(s))
  }

  ghost predicate RoutesInv(s: State) {
    && (!s.open ==> !s.host.routed && !s.daemon.routed && s.daemon.told && s.toDaemon == [] && s.toHost == [])
    && (!s.host.routed ==> HostEnded(s) || s.host.canceled || !s.open)
    && (Carries(s.toDaemon, Cancel) || s.host.cancels > 0 ==> HostEnded(s) || s.host.canceled)
    && (s.daemon.spawned || Carries(s.toHost, Cancel) || Carries(s.toHost, Failure) || Carries(s.host.inbox, Failure)
        ==> !s.daemon.routed)
    && ((HostEnded(s) || s.host.canceled) && s.daemon.routed ==> Carries(s.toDaemon, Cancel) || s.host.cancels > 0)
    && (s.daemon.phase == Reporting || s.daemon.phase == Finishing || s.daemon.phase == DaemonFailed
        ==> !s.daemon.routed)
  }

  ghost predicate ToldInv(s: State) {
    && (s.daemon.told || s.daemon.canceled || (Serving(s.daemon.phase) && !s.daemon.routed) ==> HostKnows(s))
    && (s.daemon.phase == Finishing || s.daemon.phase == DaemonFailed
        ==> HostKnows(s) || Carries(s.toHost, Failure) || Carries(s.host.inbox, Failure))
    && (MetaSeen(s) && !s.daemon.granted && s.daemon.phase != Granting ==> HostKnows(s))
  }

  ghost predicate RepliesInv(s: State) {
    && (s.host.phase == Opening
        && (s.daemon.phase == Granting || s.daemon.phase == Working || s.daemon.phase == Complete)
        ==> !s.open || s.host.canceled || Carries(s.toHost, Meta) || Carries(s.host.inbox, Meta))
    && ((s.host.phase == Ended || s.host.phase == Waiting) && s.daemon.phase == Complete
        ==> !s.open || s.host.canceled || Carries(s.toHost, End) || Carries(s.host.inbox, End))
    && ((s.host.phase == Ended || s.host.phase == Waiting) && s.daemon.routed && Serving(s.daemon.phase)
        ==> Carries(s.toDaemon, End) || Carries(s.daemon.inbox, End))
  }

  ghost predicate DataInv(file: seq<Byte>, s: State) {
    && BytesInv(file, s.host.unsent, s.daemon, s.toDaemon, s.open)
    && MarksInv(s.host, s.daemon, s.toDaemon)
    && RolesInv(s.host, s.daemon.phase, s.toHost)
  }

  ghost predicate KnowledgeInv(s: State) { RoutesInv(s) && ToldInv(s) && RepliesInv(s) }

  ghost predicate Inv(file: seq<Byte>, s: State) {
    DataInv(file, s) && CreditInv(file, s) && KnowledgeInv(s)
  }

  // ---- Every step keeps the invariant: the host ----

  lemma HostFailingKeepsInv(file: seq<Byte>, s: State, completed: bool)
    requires Inv(file, s) && !HostEnded(s)
    requires completed ==> s.host.canceled || (s.daemon.routed ==> Carries(s.toDaemon, Cancel) || s.host.cancels > 0)
    ensures Inv(file, HostFails(s, completed))
  {
    hide Carries, Payload, Plain, Shaped, Spent, Granted, RealGrants;
  }

  function Popped(s: State): State
    requires s.host.inbox != []
  {
    s.(host := s.host.(inbox := s.host.inbox[1..]))
  }

  /** A queue that nobody reads any more does not matter. */
  lemma PoppingKeepsInv(file: seq<Byte>, s: State)
    requires Inv(file, s) && s.host.inbox != [] && s.host.phase == HostFailed
    ensures Inv(file, Popped(s))
  {
    CarriesFirst(s.host.inbox);
    hide Carries, Payload, Plain, Shaped, Spent, Granted, RealGrants;
  }

  lemma OpeningKeepsInv(file: seq<Byte>, s: State)
    requires Inv(file, s) && s.host.inbox != [] && s.host.inbox[0] == Meta && s.host.phase == Opening
    requires !s.host.canceled
    ensures Inv(file, Popped(s).(host := Popped(s).host.(phase := Sending)))
  {
    CarriesFirst(s.host.inbox);
    hide Carries, Payload, Plain, Shaped, Spent, Granted, RealGrants;
  }

  lemma SucceedingKeepsInv(file: seq<Byte>, s: State)
    requires Inv(file, s) && s.host.inbox != [] && s.host.inbox[0] == End && s.host.phase == Waiting
    ensures Inv(file, Popped(s).(host := Popped(s).host.(phase := Succeeded, routed := false)))
  {
    CarriesFirst(s.host.inbox);
    hide Carries, Payload, Plain, Shaped, Spent, Granted, RealGrants;
  }

  lemma RefusingKeepsInv(file: seq<Byte>, s: State, completed: bool)
    requires Inv(file, s) && s.host.inbox != [] && !HostEnded(s)
    requires completed ==> s.host.inbox[0] == End || s.host.inbox[0] == Failure
    ensures Inv(file, HostFails(Popped(s), completed))
  {
    assert completed ==> !s.daemon.routed by {
      CarriesFirst(s.host.inbox);
      hide Carries, BytesInv, CreditInv, ToldInv, RepliesInv;
    }
    HostFailingKeepsInv(file, s, completed);
    PoppingKeepsInv(file, HostFails(s, completed));
    hide Inv;
    assert Popped(HostFails(s, completed)) == HostFails(Popped(s), completed);
  }

  lemma TakingKeepsInv(file: seq<Byte>, s: State)
    requires Inv(file, s) && s.host.inbox != [] && !s.host.canceled
    requires s.host.phase == Opening || s.host.phase == Waiting || s.host.phase == Checking
    ensures Inv(file, Taken(s))
  {
    hide Inv, HostFails;
    var message := s.host.inbox[0];
    if message.Meta? && s.host.phase == Opening {
      OpeningKeepsInv(file, s);
    } else if message.End? && s.host.phase == Waiting {
      SucceedingKeepsInv(file, s);
    } else {
      RefusingKeepsInv(file, s, message.End? || message.Failure?);
    }
  }

  lemma ReceivingKeepsInv(file: seq<Byte>, s: State)
    requires Inv(file, s) && HostReceives(s).Some? && (s.host.phase == Opening || s.host.phase == Waiting)
    ensures Inv(file, HostReceives(s).value)
  {
    hide Inv, HostFails, Taken;
    if s.host.canceled {
      HostFailingKeepsInv(file, s, true);
    } else if s.host.inbox != [] {
      TakingKeepsInv(file, s);
    } else {
      HostFailingKeepsInv(file, s, false);
    }
  }

  lemma CheckingKeepsInv(file: seq<Byte>, s: State)
    requires Inv(file, s) && s.host.phase == Checking
    ensures Inv(file, HostChecks(s))
  {
    hide Carries, Payload, Plain, Shaped, Spent, Granted, RealGrants;
    if s.host.canceled {
      HostFailingKeepsInv(file, s, true);
      hide Inv, HostFails;
    } else if s.host.inbox != [] {
      TakingKeepsInv(file, s);
      hide Inv, Taken;
    } else if s.host.routed {
    } else {
      HostFailingKeepsInv(file, s, false);
      hide Inv, HostFails;
    }
  }

  predicate Covered(s: State, n: nat) {
    s.host.phase == Holding(n) && HostActive(s) && n <= s.host.credit && n <= |s.host.unsent|
  }

  lemma ChunkKeepsBytes(file: seq<Byte>, s: State, n: nat)
    requires BytesInv(file, s.host.unsent, s.daemon, s.toDaemon, s.open) && Covered(s, n)
    ensures BytesInv(file, s.host.unsent[n..], s.daemon, s.toDaemon + [Chunk(s.host.unsent[..n])], s.open)
  {
    PayloadSnoc(s.toDaemon, Chunk(s.host.unsent[..n]));
    assert s.host.unsent == s.host.unsent[..n] + s.host.unsent[n..];
    hide Carries, Payload;
  }

  lemma ChunkKeepsData(file: seq<Byte>, s: State, n: nat)
    requires DataInv(file, s) && Covered(s, n)
    ensures DataInv(file, ChunkSent(s, n).value)
  {
    var chunk := Chunk(s.host.unsent[..n]);
    CarriesSnoc(s.toDaemon, chunk);
    ShapedSnoc(s.toDaemon, chunk);
    ChunkKeepsBytes(file, s, n);
    hide Carries, BytesInv, Plain, Shaped, Spent;
  }

  lemma ChunkKeepsCredit(file: seq<Byte>, s: State, n: nat)
    requires CreditInv(file, s) && Covered(s, n)
    ensures CreditInv(file, ChunkSent(s, n).value)
  {
    PayloadSnoc(s.toDaemon, Chunk(s.host.unsent[..n]));
    hide Carries, Payload, Granted, RealGrants;
  }

  lemma ChunkKeepsInv(file: seq<Byte>, s: State, n: nat)
    requires Inv(file, s) && Covered(s, n)
    ensures Inv(file, ChunkSent(s, n).value)
  {
    ChunkKeepsData(file, s, n);
    ChunkKeepsCredit(file, s, n);
    hide DataInv, CreditInv;
  }

  lemma EndKeepsInv(file: seq<Byte>, s: State)
    requires Inv(file, s) && s.host.phase == Sending && s.host.unsent == [] && HostActive(s)
    ensures Inv(file, HostSteps(s).value)
  {
    CarriesSnoc(s.toDaemon, End);
    PayloadSnoc(s.toDaemon, End);
    ShapedSnoc(s.toDaemon, End);
    hide Carries, Payload, Plain, Shaped, Spent, Granted, RealGrants;
  }

  lemma GoingOnKeepsInv(file: seq<Byte>, s: State, phase: HostPhase)
    requires Inv(file, s) && HostActive(s)
    requires (s.host.phase == Sent && phase == Checking) || (s.host.phase == Ended && phase == Waiting)
    ensures Inv(file, s.(host := s.host.(phase := phase)))
  {
    hide Carries, Payload, Plain, Shaped, Spent, Granted, RealGrants;
  }

  lemma ReadingKeepsInv(file: seq<Byte>, s: State, n: nat)
    requires Inv(file, s) && ReadFile(s, n).Some?
    ensures Inv(file, ReadFile(s, n).value)
  {
    hide Carries, Payload, Plain, Shaped, Spent, Granted, RealGrants;
  }

  lemma SendingCancelKeepsData(file: seq<Byte>, s: State)
    requires DataInv(file, s) && CancelSent(s).Some?
    ensures DataInv(file, CancelSent(s).value)
    ensures CreditInv(file, s) ==> CreditInv(file, CancelSent(s).value)
  {
    CarriesSnoc(s.toDaemon, Cancel);
    PayloadSnoc(s.toDaemon, Cancel);
    ShapedSnoc(s.toDaemon, Cancel);
    assert Spent(s.toDaemon) ==> Spent(s.toDaemon + [Cancel]);
    hide Carries, Payload, Plain, Shaped, Spent, Granted, RealGrants;
  }

  lemma SendingCancelKeepsKnowledge(s: State)
    requires KnowledgeInv(s) && CancelSent(s).Some?
    ensures KnowledgeInv(CancelSent(s).value)
  {
    CarriesSnoc(s.toDaemon, Cancel);
    hide Carries;
    if s.open {
    } else {
    }
  }

  lemma SendingCancelKeepsInv(file: seq<Byte>, s: State)
    requires Inv(file, s) && CancelSent(s).Some?
    ensures Inv(file, CancelSent(s).value)
  {
    hide DataInv, CreditInv, KnowledgeInv, CancelSent;
    SendingCancelKeepsData(file, s);
    SendingCancelKeepsKnowledge(s);
  }

  // ---- The host's reader ----

  lemma GrantKeepsInv(file: seq<Byte>, s: State, window: nat)
    requires Inv(file, s) && s.open && s.toHost != [] && s.toHost[0] == Grant(window) && s.host.routed
    ensures Inv(file, s.(host := Credited(s.host, window), toHost := s.toHost[1..]))
  {
    FirstOf(s.toHost);
    hide Carries, Payload, Plain, Shaped, Spent, Granted, RealGrants;
  }

  lemma DroppingKeepsInv(file: seq<Byte>, s: State)
    requires Inv(file, s) && s.open && s.toHost != [] && !s.host.routed
    ensures Inv(file, s.(toHost := s.toHost[1..]))
  {
    FirstOf(s.toHost);
    hide Carries, Payload, Plain, Shaped, Spent, Granted, RealGrants;
    var next := s.(toHost := s.toHost[1..]);
    assert DataInv(file, next) && CreditInv(file, next) by { hide KnowledgeInv; }
    assert KnowledgeInv(next) by { hide DataInv, CreditInv; }
    hide DataInv, CreditInv, KnowledgeInv;
  }

  lemma CanceledKeepsInv(file: seq<Byte>, s: State)
    requires Inv(file, s) && s.open && s.toHost != [] && s.toHost[0] == Cancel && s.host.routed
    ensures Inv(file, s.(host := s.host.(routed := false, canceled := true), toHost := s.toHost[1..]))
  {
    FirstOf(s.toHost);
    hide Carries, Payload, Plain, Shaped, Spent, Granted, RealGrants;
    var next := s.(host := s.host.(routed := false, canceled := true), toHost := s.toHost[1..]);
    assert DataInv(file, next) && CreditInv(file, next) by { hide KnowledgeInv; }
    assert KnowledgeInv(next) by { hide DataInv, CreditInv; }
    hide DataInv, CreditInv, KnowledgeInv;
  }

  lemma HostOverflowKeepsInv(file: seq<Byte>, s: State)
    requires Inv(file, s) && s.open && s.toHost != [] && s.toHost[0] != Cancel && s.host.routed
    ensures Inv(file, s.(host := s.host.(routed := false, canceled := true, cancels := s.host.cancels + 1),
                         toHost := s.toHost[1..]))
  {
    FirstOf(s.toHost);
    hide Carries, Payload, Plain, Shaped, Spent, Granted, RealGrants;
    var next := s.(host := s.host.(routed := false, canceled := true, cancels := s.host.cancels + 1),
                       toHost := s.toHost[1..]);
    assert DataInv(file, next) && CreditInv(file, next) by { hide KnowledgeInv; }
    assert KnowledgeInv(next) by { hide DataInv, CreditInv; }
    hide DataInv, CreditInv, KnowledgeInv;
  }

  function HostQueued(s: State): State
    requires s.toHost != []
  {
    s.(host := s.host.(inbox := s.host.inbox + [s.toHost[0]]), toHost := s.toHost[1..])
  }

  lemma HostQueueingKeepsData(file: seq<Byte>, s: State)
    requires DataInv(file, s) && s.toHost != []
    ensures DataInv(file, HostQueued(s))
  {
    CarriesFirst(s.toHost);
    CarriesSnoc(s.host.inbox, s.toHost[0]);
    hide Carries, Payload, Plain, Shaped, Spent;
  }

  lemma HostQueueingKeepsCredit(file: seq<Byte>, s: State)
    requires CreditInv(file, s) && s.toHost != [] && !s.toHost[0].Grant?
    ensures CreditInv(file, HostQueued(s))
  {
    FirstOf(s.toHost);
    hide Carries, Payload, Granted, RealGrants;
  }

  lemma HostQueueingKeepsKnowledge(s: State)
    requires KnowledgeInv(s) && s.toHost != [] && s.toHost[0] != Cancel && s.open && s.host.routed
    ensures KnowledgeInv(HostQueued(s))
  {
    CarriesFirst(s.toHost);
    CarriesSnoc(s.host.inbox, s.toHost[0]);
    hide Carries;
  }

  lemma HostQueueingKeepsInv(file: seq<Byte>, s: State)
    requires Inv(file, s) && s.open && s.toHost != [] && !s.toHost[0].Grant? && s.toHost[0] != Cancel && s.host.routed
    ensures Inv(file, HostQueued(s))
  {
    hide DataInv, CreditInv, KnowledgeInv, HostQueued;
    HostQueueingKeepsData(file, s);
    HostQueueingKeepsCredit(file, s);
    HostQueueingKeepsKnowledge(s);
  }

  lemma ArrivalAtHostKeepsInv(file: seq<Byte>, s: State)
    requires Inv(file, s) && ArrivedAtHost(s).Some?
    ensures Inv(file, ArrivedAtHost(s).value)
  {
    hide Inv, Credited;
    if !s.host.routed {
      DroppingKeepsInv(file, s);
    } else {
      match s.toHost[0]
      case Grant(window) => GrantKeepsInv(file, s, window);
      case Cancel => CanceledKeepsInv(file, s);
      case _ =>
        if |s.host.inbox| >= ROUTE_CAPACITY {
          HostOverflowKeepsInv(file, s);
        } else {
          HostQueueingKeepsInv(file, s);
        }
    }
  }

  // ---- The daemon ----

  lemma DaemonFailingKeepsInv(file: seq<Byte>, s: State)
    requires Inv(file, s) && Serving(s.daemon.phase) && (s.daemon.phase == Granting ==> HostKnows(s))
    ensures Inv(file, DaemonFails(s))
  {
    hide Carries, Payload, Plain, Shaped, Spent, Granted, RealGrants;
  }

  lemma InactiveHostKnows(file: seq<Byte>, s: State)
    requires Inv(file, s) && !DaemonActive(s)
    ensures HostKnows(s)
  {
    hide Carries, DataInv, CreditInv;
  }

  lemma StartingKeepsInv(file: seq<Byte>, s: State)
    requires Inv(file, s) && s.daemon.phase == Starting && DaemonActive(s)
    ensures Inv(file, DaemonSteps(s).value)
  {
    CarriesSnoc(s.toHost, Meta);
    GrantedSnoc(s.toHost, Meta);
    hide Carries, Payload, Plain, Shaped, Spent, Granted, RealGrants;
  }

  lemma GrantingKeepsCredit(file: seq<Byte>, s: State)
    requires CreditInv(file, s) && s.daemon.phase == Granting && DaemonActive(s)
    ensures CreditInv(file, DaemonSteps(s).value)
  {
    GrantedSnoc(s.toHost, Grant(FILE_FLOW_WINDOW));
    hide Carries, Payload, Granted, RealGrants;
  }

  lemma GrantingKeepsInv(file: seq<Byte>, s: State)
    requires Inv(file, s) && s.daemon.phase == Granting && DaemonActive(s)
    ensures Inv(file, DaemonSteps(s).value)
  {
    GrantingKeepsCredit(file, s);
    CarriesSnoc(s.toHost, Grant(FILE_FLOW_WINDOW));
    hide CreditInv, Carries, Payload, Plain, Shaped, Spent;
  }

  /** What writing a chunk may change. */
  predicate Writes(s: State, chunk: seq<Byte>, next: State) {
    && s.daemon.phase == Working && s.daemon.inbox != [] && s.daemon.inbox[0] == Chunk(chunk)
    && (next.daemon.phase == Working || next.daemon.phase == Failing)
    && next == s.(daemon := s.daemon.(inbox := s.daemon.inbox[1..], received := s.daemon.received + chunk,
                                      held := next.daemon.held, phase := next.daemon.phase),
                  toHost := next.toHost)
  }

  lemma WritingKeepsData(file: seq<Byte>, s: State, chunk: seq<Byte>, next: State)
    requires DataInv(file, s) && Writes(s, chunk, next)
    requires Carries(next.toHost, End) ==> Carries(s.toHost, End)
    ensures DataInv(file, next)
  {
    var d, rest := s.daemon, s.daemon.inbox[1..];
    FirstOf(d.inbox);
    ShapedTail(d.inbox);
    PlainTail(d.inbox);
    hide Carries, Payload, Plain, Shaped, Spent, Granted, RealGrants;
    assert d.received + Payload(d.inbox) == d.received + chunk + Payload(rest);
    assert BytesInv(file, next.host.unsent, next.daemon, next.toDaemon, next.open) by { hide MarksInv, RolesInv; }
    hide BytesInv;
  }

  lemma WritingKeepsKnowledge(file: seq<Byte>, s: State, chunk: seq<Byte>, next: State)
    requires DataInv(file, s) && KnowledgeInv(s) && Writes(s, chunk, next)
    requires forall m: Message :: !m.Grant? ==> (Carries(next.toHost, m) <==> Carries(s.toHost, m))
    requires next.toHost == s.toHost || s.open
    ensures KnowledgeInv(next)
  {
    CarriesFirst(s.daemon.inbox);
    hide BytesInv, MarksInv, RolesInv, Carries;
  }

  lemma HoldingBackKeepsCredit(file: seq<Byte>, s: State, chunk: seq<Byte>, next: State)
    requires CreditInv(file, s) && Writes(s, chunk, next) && next.toHost == s.toHost
    requires next.daemon.held == s.daemon.held + |chunk| < FILE_FLOW_UPDATE_THRESHOLD
             || (next.daemon.phase == Failing && next.daemon.held == s.daemon.held)
    ensures CreditInv(file, next)
  {
    FirstOf(s.daemon.inbox);
    hide Payload, Granted, RealGrants, Carries;
  }

  lemma ReturningKeepsCredit(file: seq<Byte>, s: State, chunk: seq<Byte>, next: State)
    requires CreditInv(file, s) && Writes(s, chunk, next) && next.daemon.phase == Working && next.daemon.held == 0
    requires next.toHost == s.toHost + [Grant(s.daemon.held + |chunk|)] && s.daemon.held + |chunk| > 0
    ensures CreditInv(file, next)
  {
    FirstOf(s.daemon.inbox);
    GrantedSnoc(s.toHost, Grant(s.daemon.held + |chunk|));
    hide Payload, Granted, RealGrants, Carries;
  }

  lemma WritingKeepsCredit(file: seq<Byte>, s: State, chunk: seq<Byte>)
    requires CreditInv(file, s)
    requires s.daemon.phase == Working && s.daemon.inbox != [] && s.daemon.inbox[0] == Chunk(chunk)
    ensures CreditInv(file, Written(s, chunk))
  {
    var next := Written(s, chunk);
    hide CreditInv;
    if FileTransfer.Consume(s.daemon.held, |chunk|).1 == 0 || !DaemonActive(s) {
      HoldingBackKeepsCredit(file, s, chunk, next);
    } else {
      ReturningKeepsCredit(file, s, chunk, next);
    }
  }

  lemma WritingKeepsInv(file: seq<Byte>, s: State, chunk: seq<Byte>)
    requires Inv(file, s) && s.daemon.phase == Working && s.daemon.inbox != [] && s.daemon.inbox[0] == Chunk(chunk)
    ensures Inv(file, Written(s, chunk))
  {
    var next, grant := Written(s, chunk), FileTransfer.Consume(s.daemon.held, |chunk|).1;
    assert Writes(s, chunk, next) && (next.toHost == s.toHost || (s.open && next.toHost == s.toHost + [Grant(grant)]));
    CarriesSnoc(s.toHost, Grant(grant));
    WritingKeepsCredit(file, s, chunk);
    hide DataInv, KnowledgeInv, CreditInv, Carries, Written, Writes;
    WritingKeepsData(file, s, chunk, next);
    WritingKeepsKnowledge(file, s, chunk, next);
  }

  /** The end marker is taken; the reply is sent or the handler fails. */
  lemma EndingKeepsData(file: seq<Byte>, s: State, next: State)
    requires DataInv(file, s) && s.daemon.phase == Working && s.daemon.inbox != [] && s.daemon.inbox[0] == End
    requires next == s.(daemon := s.daemon.(inbox := s.daemon.inbox[1..], phase := next.daemon.phase,
                                            routed := next.daemon.routed), toHost := next.toHost)
    requires if next.daemon.phase == Complete then !next.daemon.routed
             else next.daemon.phase == Failing && next.toHost == s.toHost && next.daemon.routed == s.daemon.routed
    ensures DataInv(file, next)
  {
    var d, rest := s.daemon, s.daemon.inbox[1..];
    FirstOf(d.inbox);
    ShapedTail(d.inbox);
    PlainTail(d.inbox);
    NothingIsLeft(rest);
    assert Payload(d.inbox) == [] && Payload(rest) == [] && !Carries(rest, End);
    hide Carries, Payload, Plain, Shaped, Spent, Granted, RealGrants;
  }

  function TakenEnd(s: State): State
    requires s.daemon.inbox != []
  {
    var rest := s.(daemon := s.daemon.(inbox := s.daemon.inbox[1..]));
    Replied(rest, End, rest.daemon.(phase := Complete, routed := false))
  }

  lemma EndingKeepsCredit(file: seq<Byte>, s: State)
    requires CreditInv(file, s) && s.daemon.phase == Working && s.daemon.inbox != [] && s.daemon.inbox[0] == End
    ensures CreditInv(file, TakenEnd(s))
  {
    FirstOf(s.daemon.inbox);
    GrantedSnoc(s.toHost, End);
    hide Carries, Payload, Granted, RealGrants;
    if DaemonActive(s) {
    } else {
    }
  }

  lemma DoneKeepsKnowledge(s: State, rest: seq<Message>)
    requires KnowledgeInv(s) && s.daemon.phase == Working && s.open && DoneSending(s.host.phase)
    ensures KnowledgeInv(s.(daemon := s.daemon.(inbox := rest, phase := Complete, routed := false),
                            toHost := s.toHost + [End]))
  {
    CarriesSnoc(s.toHost, End);
    hide Carries;
  }

  lemma EndingKeepsKnowledge(file: seq<Byte>, s: State)
    requires DataInv(file, s) && KnowledgeInv(s)
    requires s.daemon.phase == Working && s.daemon.inbox != [] && s.daemon.inbox[0] == End
    ensures KnowledgeInv(TakenEnd(s))
  {
    CarriesFirst(s.daemon.inbox);
    assert DoneSending(s.host.phase) by { hide BytesInv, RolesInv, KnowledgeInv, Carries; }
    hide DataInv;
    if DaemonActive(s) {
      DoneKeepsKnowledge(s, s.daemon.inbox[1..]);
      hide KnowledgeInv;
    } else {
      LosingFrameKeepsKnowledge(s);
      hide KnowledgeInv;
    }
  }

  lemma EndingKeepsInv(file: seq<Byte>, s: State)
    requires Inv(file, s) && s.daemon.phase == Working && s.daemon.inbox != [] && s.daemon.inbox[0] == End
    ensures Inv(file, TakenEnd(s))
  {
    EndingKeepsData(file, s, TakenEnd(s));
    hide DataInv, KnowledgeInv, CreditInv, TakenEnd;
    EndingKeepsCredit(file, s);
    EndingKeepsKnowledge(file, s);
  }

  function FrameLost(s: State): State
    requires s.daemon.inbox != []
  {
    DaemonFails(s.(daemon := s.daemon.(inbox := s.daemon.inbox[1..])))
  }

  lemma LosingFrameKeepsData(file: seq<Byte>, s: State)
    requires DataInv(file, s) && s.daemon.phase == Working && s.daemon.inbox != []
    ensures DataInv(file, FrameLost(s))
  {
    CarriesFirst(s.daemon.inbox);
    ShapedTail(s.daemon.inbox);
    PlainTail(s.daemon.inbox);
    hide Carries, Payload, Plain, Shaped, Spent;
  }

  lemma LosingFrameKeepsCredit(file: seq<Byte>, s: State)
    requires CreditInv(file, s) && s.daemon.phase == Working && s.daemon.inbox != []
    ensures CreditInv(file, FrameLost(s))
  {
    FirstOf(s.daemon.inbox);
    hide Carries, Payload, Granted, RealGrants;
  }

  lemma LosingFrameKeepsKnowledge(s: State)
    requires KnowledgeInv(s) && s.daemon.phase == Working && s.daemon.inbox != []
    ensures KnowledgeInv(FrameLost(s))
  {
    hide Carries;
  }

  /** The frame whose writing failed is lost. */
  lemma LosingFrameKeepsInv(file: seq<Byte>, s: State)
    requires Inv(file, s) && s.daemon.phase == Working && s.daemon.inbox != []
    ensures Inv(file, FrameLost(s))
  {
    hide DataInv, CreditInv, KnowledgeInv, FrameLost;
    LosingFrameKeepsData(file, s);
    LosingFrameKeepsCredit(file, s);
    LosingFrameKeepsKnowledge(s);
  }

  lemma DaemonBreakingKeepsInv(file: seq<Byte>, s: State)
    requires Inv(file, s) && DaemonBroken(s).Some?
    ensures Inv(file, DaemonBroken(s).value)
  {
    if s.daemon.phase == Starting {
      DaemonFailingKeepsInv(file, s);
      hide Inv, DaemonFails;
    } else {
      LosingFrameKeepsInv(file, s);
      hide Inv, DaemonFails;
    }
  }

  lemma StreamFinishingKeepsInv(file: seq<Byte>, s: State)
    requires Inv(file, s) && StreamFinished(s).Some?
    ensures Inv(file, StreamFinished(s).value)
  {
    hide Carries, Payload, Plain, Shaped, Spent, Granted, RealGrants;
  }

  lemma UnregisteringKeepsInv(file: seq<Byte>, s: State)
    requires Inv(file, s) && (s.daemon.phase == Failing || s.daemon.phase == Finishing)
    ensures Inv(file, DaemonSteps(s).value)
  {
    hide Carries, Payload, Plain, Shaped, Spent, Granted, RealGrants;
  }

  lemma ReportingKeepsInv(file: seq<Byte>, s: State)
    requires Inv(file, s) && s.daemon.phase == Reporting
    ensures Inv(file, DaemonSteps(s).value)
  {
    CarriesSnoc(s.toHost, Failure);
    GrantedSnoc(s.toHost, Failure);
    hide Carries, Payload, Plain, Shaped, Spent, Granted, RealGrants;
  }

  lemma SpawnedCancelKeepsInv(file: seq<Byte>, s: State)
    requires Inv(file, s) && CancelSpawned(s).Some?
    ensures Inv(file, CancelSpawned(s).value)
  {
    CarriesSnoc(s.toHost, Cancel);
    GrantedSnoc(s.toHost, Cancel);
    hide Carries, Payload, Plain, Shaped, Spent, Granted, RealGrants;
  }

  // ---- The daemon's loop ----

  /** The daemon's loop has taken a frame from the wire. */
  predicate Reaches(s: State, message: Message, rest: seq<Message>) {
    s.open && s.toDaemon != [] && message == s.toDaemon[0] && rest == s.toDaemon[1..]
  }

  /** What is lost or says that the host gave up leaves the handler without a route. */
  lemma LosingKeepsData(file: seq<Byte>, s: State, message: Message, rest: seq<Message>, next: State)
    requires DataInv(file, s) && Reaches(s, message, rest)
    requires next == s.(toDaemon := rest, daemon := next.daemon, toHost := next.toHost) && !next.daemon.routed
    requires next.daemon == s.daemon.(routed := false, canceled := next.daemon.canceled, told := next.daemon.told,
                                      spawned := next.daemon.spawned, clearing := next.daemon.clearing)
    requires Carries(next.toHost, End) ==> Carries(s.toHost, End)
    ensures DataInv(file, next)
  {
    FirstOf(s.toDaemon);
    ShapedTail(s.toDaemon);
    assert forall m :: m in rest ==> m in s.toDaemon;
    hide Carries, Payload, Plain, Shaped, Spent;
    assert EndTaken(next.daemon) == EndTaken(s.daemon);
    assert BytesInv(file, next.host.unsent, next.daemon, next.toDaemon, next.open) by { hide MarksInv, RolesInv; }
    hide BytesInv;
  }

  lemma LosingKeepsCredit(file: seq<Byte>, s: State, message: Message, rest: seq<Message>, next: State)
    requires CreditInv(file, s) && Reaches(s, message, rest)
    requires next == s.(toDaemon := rest, daemon := next.daemon, toHost := next.toHost) && !next.daemon.routed
    requires next.daemon == s.daemon.(routed := false, canceled := next.daemon.canceled, told := next.daemon.told,
                                      spawned := next.daemon.spawned, clearing := next.daemon.clearing)
    requires next.toHost == s.toHost || next.toHost == s.toHost + [Failure]
    ensures CreditInv(file, next)
  {
    FirstOf(s.toDaemon);
    GrantedSnoc(s.toHost, Failure);
    hide Payload, Granted, RealGrants, Carries;
  }

  lemma LosingKeepsKnowledge(file: seq<Byte>, s: State)
    requires DataInv(file, s) && KnowledgeInv(s) && ArrivedAtDaemon(s).Some?
    requires s.toDaemon[0] == Cancel || !s.daemon.routed || |s.daemon.inbox| >= ROUTE_CAPACITY
    ensures KnowledgeInv(ArrivedAtDaemon(s).value)
  {
    CarriesFirst(s.toDaemon);
    CarriesSnoc(s.toHost, Failure);
    hide DataInv, Carries;
    if s.toDaemon[0] == Cancel {
    } else if !s.daemon.routed {
    } else {
    }
  }

  lemma LosingKeepsInv(file: seq<Byte>, s: State)
    requires Inv(file, s) && ArrivedAtDaemon(s).Some?
    requires s.toDaemon[0] == Cancel || !s.daemon.routed || |s.daemon.inbox| >= ROUTE_CAPACITY
    ensures Inv(file, ArrivedAtDaemon(s).value)
  {
    var next := ArrivedAtDaemon(s).value;
    CarriesSnoc(s.toHost, Failure);
    hide DataInv, CreditInv, KnowledgeInv, Carries;
    LosingKeepsData(file, s, s.toDaemon[0], s.toDaemon[1..], next);
    LosingKeepsCredit(file, s, s.toDaemon[0], s.toDaemon[1..], next);
    LosingKeepsKnowledge(file, s);
  }

  function Queued(s: State): State
    requires s.toDaemon != []
  {
    s.(toDaemon := s.toDaemon[1..], daemon := s.daemon.(inbox := s.daemon.inbox + [s.toDaemon[0]]))
  }

  lemma QueueingChunkKeepsBytes(file: seq<Byte>, s: State, chunk: seq<Byte>, rest: seq<Message>)
    requires Reaches(s, Chunk(chunk), rest) && s.daemon.routed
    requires BytesInv(file, s.host.unsent, s.daemon, s.toDaemon, s.open)
    requires !EndTaken(s.daemon)
    ensures BytesInv(file, s.host.unsent, Queued(s).daemon, rest, s.open)
  {
    var d := s.daemon;
    FirstOf(s.toDaemon);
    CarriesSnoc(d.inbox, Chunk(chunk));
    PayloadSnoc(d.inbox, Chunk(chunk));
    hide Carries, Payload;
    assert d.received + (Payload(d.inbox) + chunk) + Payload(rest) + s.host.unsent
        == d.received + Payload(d.inbox) + (chunk + Payload(rest)) + s.host.unsent;
  }

  lemma QueueingChunkKeepsData(file: seq<Byte>, s: State, chunk: seq<Byte>, rest: seq<Message>)
    requires DataInv(file, s) && Reaches(s, Chunk(chunk), rest) && s.daemon.routed
    ensures DataInv(file, Queued(s))
  {
    var d := s.daemon;
    CarriesFirst(s.toDaemon);
    ShapedTail(s.toDaemon);
    assert forall m :: m in rest ==> m in s.toDaemon;
    CarriesSnoc(d.inbox, Chunk(chunk));
    assert !EndTaken(d);
    QueueingChunkKeepsBytes(file, s, chunk, rest);
    ShapedSnoc(d.inbox, Chunk(chunk));
    PlainSnoc(d.inbox, Chunk(chunk));
    hide Carries, BytesInv, Plain, Shaped, Spent;
  }

  lemma QueueingEndKeepsData(file: seq<Byte>, s: State, rest: seq<Message>)
    requires DataInv(file, s) && Reaches(s, End, rest) && s.daemon.routed
    ensures DataInv(file, Queued(s))
  {
    var d := s.daemon;
    FirstOf(s.toDaemon);
    ShapedTail(s.toDaemon);
    assert forall m :: m in rest ==> m in s.toDaemon;
    CarriesSnoc(d.inbox, End);
    PayloadSnoc(d.inbox, End);
    assert !EndTaken(d);
    ShapedSnoc(d.inbox, End);
    PlainSnoc(d.inbox, End);
    SpentCarriesNothing(rest);
    hide Carries, Payload, Plain, Shaped, Spent;
  }

  lemma QueueingKeepsCredit(file: seq<Byte>, s: State)
    requires CreditInv(file, s) && s.toDaemon != []
    ensures CreditInv(file, Queued(s))
  {
    FirstOf(s.toDaemon);
    PayloadSnoc(s.daemon.inbox, s.toDaemon[0]);
    hide Payload, Granted, RealGrants, Carries;
  }

  lemma QueueingKeepsKnowledge(file: seq<Byte>, s: State)
    requires KnowledgeInv(s) && s.toDaemon != [] && s.toDaemon[0] != Cancel && s.open
    ensures KnowledgeInv(Queued(s))
  {
    CarriesFirst(s.toDaemon);
    CarriesSnoc(s.daemon.inbox, s.toDaemon[0]);
    hide Carries;
  }

  lemma ArrivalAtDaemonKeepsInv(file: seq<Byte>, s: State)
    requires Inv(file, s) && ArrivedAtDaemon(s).Some?
    ensures Inv(file, ArrivedAtDaemon(s).value)
  {
    var message, rest := s.toDaemon[0], s.toDaemon[1..];
    if message == Cancel || !s.daemon.routed || |s.daemon.inbox| >= ROUTE_CAPACITY {
      hide Inv, ArrivedAtDaemon;
      LosingKeepsInv(file, s);
    } else {
      assert message.Chunk? || message.End? by {
        assert message in s.toDaemon;
        hide BytesInv, CreditInv, KnowledgeInv;
      }
      assert ArrivedAtDaemon(s).value == Queued(s);
      hide DataInv, CreditInv, KnowledgeInv, ArrivedAtDaemon;
      QueueingKeepsCredit(file, s);
      QueueingKeepsKnowledge(file, s);
      match message {
        case Chunk(chunk) => QueueingChunkKeepsData(file, s, chunk, rest);
        case End => QueueingEndKeepsData(file, s, rest);
      }
    }
  }

  lemma DisconnectKeepsData(file: seq<Byte>, s: State)
    requires DataInv(file, s) && s.open
    ensures DataInv(file, Disconnected(s).value)
  {
    assert !Carries([], End) && !Carries([], Cancel) && Shaped([]) && Spent([]);
    hide Carries, Payload, Plain, Shaped, Spent;
  }

  lemma DisconnectKeepsCredit(file: seq<Byte>, s: State)
    requires CreditInv(file, s) && s.open
    ensures CreditInv(file, Disconnected(s).value)
  {
    assert Payload([]) == [] && Granted([]) == 0 && RealGrants([]);
    hide Payload, Granted, RealGrants;
  }

  lemma DisconnectKeepsKnowledge(s: State)
    requires KnowledgeInv(s) && s.open
    ensures KnowledgeInv(Disconnected(s).value)
  {
    assert forall m :: !Carries([], m);
    hide Carries;
  }

  lemma DisconnectKeepsInv(file: seq<Byte>, s: State)
    requires Inv(file, s) && s.open
    ensures Inv(file, Disconnected(s).value)
  {
    hide DataInv, CreditInv, KnowledgeInv, Disconnected;
    DisconnectKeepsData(file, s);
    DisconnectKeepsCredit(file, s);
    DisconnectKeepsKnowledge(s);
  }

  lemma HostStepKeepsInv(file: seq<Byte>, s: State)
    requires Inv(file, s) && HostSteps(s).Some?
    ensures Inv(file, HostSteps(s).value)
  {
    hide Inv, HostReceives, HostChecks, HostFails;
    match s.host.phase
    case Opening => ReceivingKeepsInv(file, s);
    case Waiting => ReceivingKeepsInv(file, s);
    case Checking => CheckingKeepsInv(file, s);
    case Sending =>
      if HostActive(s) {
        EndKeepsInv(file, s);
      } else {
        HostFailingKeepsInv(file, s, false);
      }
    case Holding(n) =>
      if HostActive(s) {
        ChunkKeepsInv(file, s, n);
      } else {
        HostFailingKeepsInv(file, s, false);
      }
    case _ =>
      if HostActive(s) {
        GoingOnKeepsInv(file, s, if s.host.phase == Sent then Checking else Waiting);
      } else {
        HostFailingKeepsInv(file, s, false);
      }
  }

  lemma DaemonReceivingKeepsInv(file: seq<Byte>, s: State)
    requires Inv(file, s) && s.daemon.phase == Working && DaemonReceives(s).Some?
    ensures Inv(file, DaemonReceives(s).value)
  {
    if s.daemon.told || s.daemon.inbox == [] {
      DaemonFailingKeepsInv(file, s);
      hide Inv, DaemonFails;
    } else {
      PlainTail(s.daemon.inbox);
      hide Inv, Written, Replied;
      match s.daemon.inbox[0] {
        case Chunk(bytes) => WritingKeepsInv(file, s, bytes);
        case End => EndingKeepsInv(file, s);
      }
    }
  }

  lemma DaemonStepKeepsInv(file: seq<Byte>, s: State)
    requires Inv(file, s) && DaemonSteps(s).Some?
    ensures Inv(file, DaemonSteps(s).value)
  {
    hide Inv, DaemonReceives, DaemonFails, HostKnows;
    match s.daemon.phase
    case Starting =>
      if DaemonActive(s) {
        StartingKeepsInv(file, s);
      } else {
        DaemonFailingKeepsInv(file, s);
      }
    case Granting =>
      if DaemonActive(s) {
        GrantingKeepsInv(file, s);
      } else {
        InactiveHostKnows(file, s);
        DaemonFailingKeepsInv(file, s);
      }
    case Working => DaemonReceivingKeepsInv(file, s);
    case Reporting => ReportingKeepsInv(file, s);
    case _ => UnregisteringKeepsInv(file, s);
  }

  lemma StepKeepsInv(file: seq<Byte>, s: State, action: Action)
    requires Inv(file, s) && Apply(s, action).Some?
    ensures Inv(file, Apply(s, action).value)
  {
    hide Inv, HostSteps, ReadFile, CancelSent, ArrivedAtHost, DaemonSteps, CancelSpawned, ArrivedAtDaemon, Disconnected;
    hide HostFails, DaemonBroken, StreamFinished;
    match action
    case HostStep => HostStepKeepsInv(file, s);
    case Read(n) => ReadingKeepsInv(file, s, n);
    case SendCancel => SendingCancelKeepsInv(file, s);
    case ArriveAtHost => ArrivalAtHostKeepsInv(file, s);
    case DaemonStep => DaemonStepKeepsInv(file, s);
    case SpawnedCancel => SpawnedCancelKeepsInv(file, s);
    case ArriveAtDaemon => ArrivalAtDaemonKeepsInv(file, s);
    case HostBreaks => HostFailingKeepsInv(file, s, false);
    case FinishStream => StreamFinishingKeepsInv(file, s);
    case DaemonBreaks => DaemonBreakingKeepsInv(file, s);
    case Disconnect => ClosedBefore(s); DisconnectKeepsInv(file, s);
  }

  lemma ClosedBefore(s: State)
    requires Disconnected(s).Some?
    ensures s.open
  {
  }

  lemma {:induction false} RunKeepsInv(file: seq<Byte>, s: State, actions: seq<Action>)
    requires Inv(file, s) && Exec(s, actions).Some?
    ensures Inv(file, Exec(s, actions).value)
    decreases |actions|
  {
    hide Apply, Inv;
    if actions != [] {
      StepKeepsInv(file, s, actions[0]);
      RunKeepsInv(file, Apply(s, actions[0]).value, actions[1..]);
    }
  }

  ghost predicate Reachable(file: seq<Byte>, s: State, actions: seq<Action>) {
    Exec(Initial(file), actions) == Some(s)
  }

  lemma StartKeepsData(file: seq<Byte>)
    ensures DataInv(file, Initial(file))
  {
    assert Payload([]) == [] && Plain([]) && Shaped([]) && Spent([]) && !Carries([], End);
    hide Payload, Carries, Plain, Shaped, Spent;
  }

  lemma StartKeepsInv(file: seq<Byte>)
    ensures Inv(file, Initial(file))
  {
    StartKeepsData(file);
    assert Payload([]) == [] && Granted([]) == 0 && RealGrants([]) && forall m :: !Carries([], m);
    hide DataInv, Payload, Granted, RealGrants, Carries;
  }

  lemma ReachableKeepsInv(file: seq<Byte>, s: State, actions: seq<Action>)
    requires Reachable(file, s, actions)
    ensures Inv(file, s)
  {
    hide Exec, Inv;
    StartKeepsInv(file);
    RunKeepsInv(file, Initial(file), actions);
  }

  // ---- What a push guarantees ----

  /** However a push is disturbed, what the daemon has written is the beginning of the file, with no gap and nothing
      foreign, it is the whole file when the daemon is done, and no window update is rejected. */
  lemma ReceivedIsAPrefix(file: seq<Byte>, s: State, actions: seq<Action>)
    requires Reachable(file, s, actions)
    ensures s.daemon.received <= file && !s.host.broken && |Payload(s.daemon.inbox)| <= FILE_FLOW_WINDOW
    ensures s.daemon.phase == Complete ==> s.daemon.received == file
  {
    ReachableKeepsInv(file, s, actions);
    assert Payload([]) == [];
    hide Exec, Payload, KnowledgeInv;
    assert s.daemon.received <= s.daemon.received + Payload(s.daemon.inbox);
  }

  /** When the host reports success, both ends are done and the whole file has been written. */
  lemma HostSuccessMeansDelivered(file: seq<Byte>, s: State, actions: seq<Action>)
    requires Reachable(file, s, actions) && s.host.phase == Succeeded
    ensures s.daemon.received == file && s.daemon.phase == Complete && s.host.unsent == []
  {
    ReachableKeepsInv(file, s, actions);
    ReceivedIsAPrefix(file, s, actions);
    hide Exec, Payload, KnowledgeInv, CreditInv, Shaped, Plain, Spent, Reachable;
  }

  /** The host's send sleeps: its credit does not cover the chunk and nothing has canceled the stream, although the
      daemon has failed. */
  predicate Asleep(s: State) {
    && s.open && s.host.phase.Holding? && s.host.phase.n > s.host.credit && !s.host.canceled
    && s.daemon.phase == DaemonFailed
  }

  predicate HostWaits(s: State) {
    match s.host.phase
    case Holding(n) => HostActive(s) && n > s.host.credit
    case _ =>
      (s.host.phase == Opening || s.host.phase == Waiting) && !s.host.canceled && s.host.inbox == [] && s.host.routed
  }

  predicate DaemonWaits(s: State) {
    s.daemon.phase == Working && !s.daemon.told && s.daemon.inbox == [] && s.daemon.routed
  }

  predicate NothingPending(s: State) {
    (s.open ==> s.toHost == [] && s.toDaemon == []) && s.host.cancels == 0 && !s.daemon.spawned
    && !s.daemon.clearing
  }

  /** With nothing under way, a handler at work has returned all but half a window. */
  lemma QuietHostHasCredit(file: seq<Byte>, s: State)
    requires CreditInv(file, s) && s.toDaemon == [] && s.toHost == []
    ensures DaemonWaits(s) && s.host.routed ==> s.host.credit > FILE_FLOW_WINDOW - FILE_FLOW_UPDATE_THRESHOLD
  {
    assert Payload([]) == [] && Granted([]) == 0;
  }

  lemma ClosedIsQuiet(s: State)
    requires RoutesInv(s) && !s.open
    ensures !s.daemon.routed && s.toDaemon == [] && s.toHost == []
  {
  }

  lemma DaemonIsOver(file: seq<Byte>, s: State)
    requires Inv(file, s) && NothingPending(s) && (HostEnded(s) || HostWaits(s))
    ensures !DaemonWaits(s)
  {
    assert forall m :: !Carries([], m);
    if !s.open {
      ClosedIsQuiet(s);
    }
    QuietHostHasCredit(file, s);
    hide Carries, CreditInv, BytesInv, Plain, Shaped, Spent;
  }

  lemma HostIsOver(file: seq<Byte>, s: State)
    requires Inv(file, s) && NothingPending(s) && HostWaits(s) && DaemonEnded(s)
    ensures Asleep(s)
  {
    assert forall m :: !Carries([], m);
    hide Carries, CreditInv, BytesInv, Plain, Shaped, Spent;
  }

  lemma HeldChunkFits(file: seq<Byte>, s: State)
    requires Inv(file, s)
    ensures s.host.phase.Holding? ==> 1 <= s.host.phase.n <= |s.host.unsent|
  {
    hide BytesInv, CreditInv, KnowledgeInv, Carries, Plain, Shaped, Spent;
  }

  /** As long as an end has not finished, something is due, unless the host's send sleeps. */
  lemma SomethingIsDue(file: seq<Byte>, s: State) returns (action: Action)
    requires Inv(file, s) && !(DaemonEnded(s) && (HostEnded(s) || Asleep(s)))
    ensures Due(action) && Apply(s, action).Some?
  {
    hide Inv, Asleep, Taken, HostFails, Delivered, Replied, Written, DaemonFails;
    if s.open && s.toHost != [] {
      action := ArriveAtHost;
    } else if s.daemon.clearing {
      action := FinishStream;
    } else if s.open && s.toDaemon != [] {
      action := ArriveAtDaemon;
    } else if s.host.cancels > 0 {
      action := SendCancel;
    } else if s.daemon.spawned {
      action := SpawnedCancel;
    } else if !DaemonEnded(s) && !DaemonWaits(s) {
      action := DaemonStep;
    } else if !HostEnded(s) && !HostWaits(s) {
      HeldChunkFits(file, s);
      action := if s.host.phase == Sending && s.host.unsent != [] then Read(1) else HostStep;
    } else if DaemonWaits(s) {
      DaemonIsOver(file, s);
    } else {
      HostIsOver(file, s);
    }
  }

  // ---- Runs are bounded ----

  function HostWork(h: Host): nat {
    10 * |h.unsent| + |h.inbox| + (if h.routed then 6 else 0) + 5 * h.cancels
    + (match h.phase
       case Opening => 23
       case Sent => 22
       case Checking => 21
       case Sending => 20
       case Holding(_) => 19
       case Ended => 15
       case Waiting => 14
       case _ => 0)
  }

  function DaemonWork(d: Daemon): nat {
    3 * |d.inbox| + (if d.spawned then 3 else 0) + (if d.clearing then 1 else 0)
    + (match d.phase
       case Starting => 12
       case Granting => 9
       case Working => 6
       case Failing => 5
       case Reporting => 4
       case Finishing => 1
       case _ => 0)
  }

  /** A bound on the steps still to come. */
  function Work(s: State): nat {
    HostWork(s.host) + DaemonWork(s.daemon) + 4 * |s.toDaemon| + 2 * |s.toHost| + if s.open then 1 else 0
  }

  lemma HostFailingReducesWork(s: State, completed: bool)
    requires !HostEnded(s)
    ensures Work(HostFails(s, completed)) < Work(s)
  {
  }

  lemma TakingReducesWork(s: State)
    requires s.host.inbox != [] && !HostEnded(s)
    ensures Work(Taken(s)) < Work(s)
  {
    hide DaemonWork;
    if s.host.inbox[0].Meta? && s.host.phase == Opening {
    } else if s.host.inbox[0].End? && s.host.phase == Waiting {
    } else {
    }
  }

  lemma ChunkReducesWork(s: State, n: nat)
    requires s.host.phase == Holding(n) && n > 0 && ChunkSent(s, n).Some?
    ensures Work(ChunkSent(s, n).value) < Work(s)
  {
    HostFailingReducesWork(s, false);
    hide HostFails;
  }

  lemma HostStepReducesWork(s: State)
    requires HostSteps(s).Some? && (s.host.phase.Holding? ==> s.host.phase.n > 0)
    ensures Work(HostSteps(s).value) < Work(s)
  {
    if !HostEnded(s) {
      HostFailingReducesWork(s, true);
      HostFailingReducesWork(s, false);
      if s.host.inbox != [] {
        TakingReducesWork(s);
      }
    }
    hide HostFails, Taken, ChunkSent;
    match s.host.phase
    case Holding(n) => ChunkReducesWork(s, n);
    case _ =>
  }

  lemma ArrivalAtHostReducesWork(s: State)
    requires ArrivedAtHost(s).Some?
    ensures Work(ArrivedAtHost(s).value) < Work(s)
  {
    hide Credited;
  }

  lemma ReplyingCosts(s: State, message: Message, daemon: Daemon)
    requires s.daemon.phase == Working && DaemonWork(daemon) <= DaemonWork(s.daemon)
    ensures Work(Replied(s, message, daemon)) <= Work(s) + 2
  {
    hide HostWork;
  }

  lemma ReplyingReducesWork(s: State, message: Message, daemon: Daemon)
    requires DaemonWork(daemon) + 2 < DaemonWork(s.daemon)
    requires DaemonWork(s.daemon.(phase := Failing)) < DaemonWork(s.daemon)
    ensures Work(Replied(s, message, daemon)) < Work(s)
  {
    hide HostWork, DaemonWork;
  }

  lemma TakingFrameReducesWork(s: State, received: seq<Byte>)
    requires s.daemon.inbox != []
    ensures Work(s.(daemon := s.daemon.(inbox := s.daemon.inbox[1..], received := received))) == Work(s) - 3
  {
    hide HostWork;
  }

  lemma WritingReducesWork(s: State, bytes: seq<Byte>)
    requires s.daemon.phase == Working && s.daemon.inbox != []
    ensures Work(Written(s, bytes)) < Work(s)
  {
    var (held, grant) := FileTransfer.Consume(s.daemon.held, |bytes|);
    var rest := s.(daemon := s.daemon.(inbox := s.daemon.inbox[1..], received := s.daemon.received + bytes));
    TakingFrameReducesWork(s, s.daemon.received + bytes);
    assert DaemonWork(rest.daemon.(held := held)) == DaemonWork(rest.daemon);
    ReplyingCosts(rest, Grant(grant), rest.daemon.(held := held));
    hide DaemonWork, HostWork, Replied, FileTransfer.Consume;
  }

  lemma DaemonReceivingReducesWork(s: State)
    requires s.daemon.phase == Working && DaemonReceives(s).Some?
    ensures Work(DaemonReceives(s).value) < Work(s)
  {
    if !s.daemon.told && s.daemon.inbox != [] {
      var rest := s.(daemon := s.daemon.(inbox := s.daemon.inbox[1..]));
      TakingFrameReducesWork(s, s.daemon.received);
      assert rest == s.(daemon := s.daemon.(inbox := s.daemon.inbox[1..], received := s.daemon.received));
      ReplyingCosts(rest, End, rest.daemon.(phase := Complete, routed := false));
      hide HostWork, Replied, Written;
      match s.daemon.inbox[0] {
        case Chunk(bytes) => WritingReducesWork(s, bytes);
        case End =>
        case _ =>
      }
    } else {
      hide HostWork;
    }
  }

  lemma StartingReducesWork(s: State)
    requires s.daemon.phase == Starting || s.daemon.phase == Granting
    ensures Work(DaemonSteps(s).value) < Work(s)
  {
    var d := s.daemon;
    if d.phase == Starting {
      ReplyingReducesWork(s, Meta, d.(phase := Granting));
      hide HostWork, DaemonWork, Replied;
    } else {
      ReplyingReducesWork(s, Grant(FILE_FLOW_WINDOW), d.(phase := Working, granted := true));
      hide HostWork, DaemonWork, Replied;
    }
  }

  lemma FailingReducesWork(s: State)
    requires s.daemon.phase == Failing || s.daemon.phase == Reporting || s.daemon.phase == Finishing
    ensures Work(DaemonSteps(s).value) < Work(s)
  {
    hide HostWork;
    if s.daemon.phase != Reporting {
    } else if s.daemon.canceled {
    } else {
    }
  }

  lemma DaemonStepReducesWork(s: State)
    requires DaemonSteps(s).Some?
    ensures Work(DaemonSteps(s).value) < Work(s)
  {
    if s.daemon.phase == Working {
      DaemonReceivingReducesWork(s);
      hide Work, DaemonReceives;
    } else if s.daemon.phase == Starting || s.daemon.phase == Granting {
      StartingReducesWork(s);
      hide Work;
    } else {
      FailingReducesWork(s);
      hide Work;
    }
  }

  lemma ArrivalAtDaemonReducesWork(s: State)
    requires ArrivedAtDaemon(s).Some?
    ensures Work(ArrivedAtDaemon(s).value) < Work(s)
  {
    hide HostWork;
  }

  lemma DaemonBreakingReducesWork(s: State)
    requires DaemonBroken(s).Some?
    ensures Work(DaemonBroken(s).value) < Work(s)
  {
    hide HostWork;
  }

  lemma StepReducesWork(s: State, action: Action)
    requires Apply(s, action).Some? && (s.host.phase.Holding? ==> s.host.phase.n > 0)
    ensures Work(Apply(s, action).value) < Work(s)
  {
    hide HostSteps, ArrivedAtHost, DaemonSteps, ArrivedAtDaemon, DaemonBroken, HostFails;
    match action
    case HostStep => HostStepReducesWork(s);
    case ArriveAtHost => ArrivalAtHostReducesWork(s);
    case DaemonStep => DaemonStepReducesWork(s);
    case ArriveAtDaemon => ArrivalAtDaemonReducesWork(s);
    case HostBreaks => HostFailingReducesWork(s, false);
    case DaemonBreaks => DaemonBreakingReducesWork(s);
    case _ =>
  }

  lemma {:induction false} RunsAreBounded(file: seq<Byte>, s: State, actions: seq<Action>)
    requires Inv(file, s) && Exec(s, actions).Some?
    ensures |actions| + Work(Exec(s, actions).value) <= Work(s)
    decreases |actions|
  {
    hide Apply, Work, Inv;
    if actions != [] {
      HeldChunkFits(file, s);
      StepReducesWork(s, actions[0]);
      StepKeepsInv(file, s, actions[0]);
      RunsAreBounded(file, Apply(s, actions[0]).value, actions[1..]);
    }
  }

  // ---- Without an error at the daemon ----

  /** The handler has not failed, or the host knows. */
  predicate Blameless(s: State) { Serving(s.daemon.phase) || s.daemon.phase == Complete || HostKnows(s) }

  lemma HostKnowsAfterHost(s: State, action: Action)
    requires HostKnows(s) && Apply(s, action).Some?
    requires action == HostStep || action.Read? || action == SendCancel || action == HostBreaks
    ensures HostKnows(Apply(s, action).value)
  {
    hide Carries;
  }

  lemma HostKnowsAfterArrival(file: seq<Byte>, s: State)
    requires Inv(file, s) && HostKnows(s) && ArrivedAtHost(s).Some?
    ensures HostKnows(ArrivedAtHost(s).value)
  {
    CarriesFirst(s.toHost);
    hide Carries, DataInv, CreditInv, Credited, ToldInv, RepliesInv;
  }

  /** The daemon leaves the host alone and only adds to what is on the wire. */
  predicate Extends(s: State, next: State) {
    && next.open == s.open && next.host == s.host && (s.daemon.spawned ==> next.daemon.spawned)
    && s.toHost <= next.toHost
  }

  lemma HostKnowsOfMore(s: State, next: State)
    requires HostKnows(s) && Extends(s, next)
    ensures HostKnows(next)
  {
    assert Carries(s.toHost, Cancel) ==> Carries(next.toHost, Cancel);
  }

  lemma WritingExtends(s: State, bytes: seq<Byte>)
    requires s.daemon.inbox != []
    ensures Extends(s, Written(s, bytes))
  {
    hide FileTransfer.Consume;
    if FileTransfer.Consume(s.daemon.held, |bytes|).1 == 0 {
    } else if DaemonActive(s) {
    } else {
    }
  }

  lemma ReceiptExtends(s: State)
    requires DaemonReceives(s).Some?
    ensures Extends(s, DaemonReceives(s).value)
  {
    if !s.daemon.told && s.daemon.inbox != [] {
      hide Written;
      match s.daemon.inbox[0] {
        case Chunk(bytes) =>
          WritingExtends(s, bytes);
          hide Extends;
        case End => if DaemonActive(s) {} else {}
        case _ =>
      }
    }
  }

  lemma StepExtends(s: State)
    requires DaemonSteps(s).Some?
    ensures Extends(s, DaemonSteps(s).value)
  {
    hide DaemonReceives;
    match s.daemon.phase
    case Working =>
      ReceiptExtends(s);
      hide Extends;
    case _ =>
  }

  lemma HostKnowsAfterStep(s: State)
    requires HostKnows(s) && DaemonSteps(s).Some?
    ensures HostKnows(DaemonSteps(s).value)
  {
    hide HostKnows, DaemonSteps, Extends;
    StepExtends(s);
    HostKnowsOfMore(s, DaemonSteps(s).value);
  }

  lemma HostKnowsAfterAnswer(s: State)
    requires HostKnows(s) && ArrivedAtDaemon(s).Some?
    ensures HostKnows(ArrivedAtDaemon(s).value)
  {
    HostKnowsOfMore(s, ArrivedAtDaemon(s).value);
    hide HostKnows;
  }

  lemma HostKnowsAfterCancel(s: State)
    requires CancelSpawned(s).Some?
    ensures HostKnows(CancelSpawned(s).value)
  {
    CarriesSnoc(s.toHost, Cancel);
    hide Carries;
  }

  lemma HostKnowsForever(file: seq<Byte>, s: State, action: Action)
    requires Inv(file, s) && HostKnows(s) && Apply(s, action).Some?
    ensures HostKnows(Apply(s, action).value)
  {
    hide Inv, HostKnows, HostSteps, ReadFile, CancelSent, ArrivedAtHost, DaemonSteps, CancelSpawned, ArrivedAtDaemon;
    hide DaemonBroken, StreamFinished;
    match action
    case ArriveAtHost => HostKnowsAfterArrival(file, s);
    case DaemonStep => HostKnowsAfterStep(s);
    case ArriveAtDaemon => HostKnowsAfterAnswer(s);
    case SpawnedCancel => HostKnowsAfterCancel(s);
    case Disconnect => ClosingIsKnown(s);
    case FinishStream => BreakingHidesNothing(s);
    case DaemonBreaks => BreakingHidesNothing(s);
    case _ => HostKnowsAfterHost(s, action);
  }

  lemma ClosingIsKnown(s: State)
    requires Disconnected(s).Some?
    ensures HostKnows(Disconnected(s).value)
  {
  }

  lemma BreakingHidesNothing(s: State)
    requires HostKnows(s)
    ensures DaemonBroken(s).Some? ==> HostKnows(DaemonBroken(s).value)
    ensures StreamFinished(s).Some? ==> HostKnows(StreamFinished(s).value)
  {
  }

  lemma GivingUpIsKnown(file: seq<Byte>, s: State)
    requires Inv(file, s) && DaemonSteps(s).Some? && Serving(s.daemon.phase)
    ensures var phase := DaemonSteps(s).value.daemon.phase;
            Serving(phase) || phase == Complete || HostKnows(s)
  {
    if s.daemon.inbox != [] {
      PlainTail(s.daemon.inbox) by { hide BytesInv; }
    }
    hide Carries, DataInv, CreditInv;
  }

  lemma StepKeepsBlameless(file: seq<Byte>, s: State, action: Action)
    requires Inv(file, s) && Blameless(s) && Apply(s, action).Some? && action != DaemonBreaks
    ensures Blameless(Apply(s, action).value)
  {
    if HostKnows(s) {
      hide Inv, Apply, HostKnows;
      HostKnowsForever(file, s, action);
    } else if action == DaemonStep {
      hide Inv, DaemonSteps, HostKnows;
      GivingUpIsKnown(file, s);
    } else {
      hide Inv, HostKnows;
    }
  }

  lemma {:induction false} RunKeepsBlameless(file: seq<Byte>, s: State, actions: seq<Action>)
    requires Inv(file, s) && Blameless(s) && Exec(s, actions).Some? && DaemonBreaks !in actions
    ensures Blameless(Exec(s, actions).value)
    decreases |actions|
  {
    hide Apply, Blameless, Inv;
    if actions != [] {
      StepKeepsInv(file, s, actions[0]);
      StepKeepsBlameless(file, s, actions[0]);
      RunKeepsBlameless(file, Apply(s, actions[0]).value, actions[1..]);
    }
  }

  // ---- When a push hangs ----

  /** Only an error at either end or loss of the connection can go on. */
  ghost predicate Quiet(s: State) { forall action :: Due(action) ==> Apply(s, action).None? }

  ghost predicate Leads(s: State, t: State) { exists actions :: Exec(s, actions) == Some(t) }

  lemma Follow(s: State, action: Action, t: State, u: State)
    requires Apply(s, action) == Some(t) && Leads(t, u)
    ensures Leads(s, u)
  {
    var actions :| Exec(t, actions) == Some(u);
    hide Apply;
    assert ([action] + actions)[1..] == actions;
    assert Exec(s, [action] + actions) == Some(u);
  }

  lemma Stay(s: State)
    ensures Leads(s, s)
  {
    assert Exec(s, []) == Some(s);
  }

  function Failures(n: nat): seq<Message> { if n == 0 then [] else [Failure] + Failures(n - 1) }

  /** What the host sends after the daemon has failed is answered by errors. */
  lemma {:induction false} StraysAreAnswered(s: State, t: State, u: State)
    requires s.open && !s.daemon.routed && !s.daemon.canceled && !s.daemon.clearing && Cancel !in s.toDaemon
    requires t == s.(toDaemon := [], toHost := s.toHost + Failures(|s.toDaemon|)) && Leads(t, u)
    ensures Leads(s, u)
    decreases |s.toDaemon|
  {
    hide Leads;
    if s.toDaemon == [] {
      assert s == t;
    } else {
      var next := s.(toDaemon := s.toDaemon[1..], toHost := s.toHost + [Failure]);
      var clearing := next.(daemon := s.daemon.(clearing := true));
      assert s.toHost + Failures(|s.toDaemon|) == next.toHost + Failures(|next.toDaemon|);
      assert Apply(s, ArriveAtDaemon) == Some(clearing) && Apply(clearing, FinishStream) == Some(next);
      StraysAreAnswered(next, t, u);
      Follow(clearing, FinishStream, next, u);
      Follow(s, ArriveAtDaemon, clearing, u);
    }
  }

  lemma {:induction false} FailuresAreQueued(s: State, n: nat, t: State, u: State)
    requires s.open && s.host.routed && s.toHost == Failures(n) && |s.host.inbox| + n <= ROUTE_CAPACITY
    requires t == s.(toHost := [], host := s.host.(inbox := s.host.inbox + Failures(n))) && Leads(t, u)
    ensures Leads(s, u)
    decreases n
  {
    hide Leads;
    if n == 0 {
      assert s.host.inbox + [] == s.host.inbox;
      assert s == t;
    } else {
      var next := s.(toHost := s.toHost[1..], host := s.host.(inbox := s.host.inbox + [Failure]));
      assert s.host.inbox + Failures(n) == next.host.inbox + Failures(n - 1);
      assert Apply(s, ArriveAtHost) == Some(next);
      FailuresAreQueued(next, n - 1, t, u);
      Follow(s, ArriveAtHost, next, u);
    }
  }

  /** The buffer at index `k` of the file. */
  function Buffer(file: seq<Byte>, k: nat): Message
    requires (k + 1) * FILE_BUFFER_SIZE <= |file|
  {
    Chunk(file[k * FILE_BUFFER_SIZE..(k + 1) * FILE_BUFFER_SIZE])
  }

  /** The buffers from the second on. */
  function Buffers(file: seq<Byte>, k: nat): (buffers: seq<Message>)
    requires (k + 1) * FILE_BUFFER_SIZE <= |file|
    ensures |buffers| == k && Cancel !in buffers
  {
    if k == 0 then [] else Buffers(file, k - 1) + [Buffer(file, k)]
  }

  const FAILED := Daemon(DaemonFailed, false, [], false, false, false, false, [], 0, true)

  /** The host has sent `k` full buffers; writing the first has failed, and the error is on the wire. */
  function Midway(file: seq<Byte>, k: nat): State
    requires 1 <= k <= 4 && |file| > FILE_FLOW_WINDOW
  {
    var sent := k * FILE_BUFFER_SIZE;
    State(Host(Sending, file[sent..], FILE_FLOW_WINDOW - sent, true, [], false, 0, false), FAILED, Buffers(file, k - 1),
          [Failure], true)
  }

  /** The host's send sleeps on an open connection, with four errors in its queue. */
  function Hanging(file: seq<Byte>): State
    requires |file| > FILE_FLOW_WINDOW
  {
    State(Host(Holding(1), file[FILE_FLOW_WINDOW..], 0, true, Failures(4), false, 0, false), FAILED, [], [], true)
  }

  lemma BufferIsSent(file: seq<Byte>, k: nat, u: State)
    requires 1 <= k < 4 && |file| > FILE_FLOW_WINDOW && Leads(Midway(file, k + 1), u)
    ensures Leads(Midway(file, k), u)
  {
    var s0, s4 := Midway(file, k), Midway(file, k + 1);
    var s1 := s0.(host := s0.host.(phase := Holding(FILE_BUFFER_SIZE)));
    var s2 := s4.(host := s4.host.(phase := Sent));
    var s3 := s4.(host := s4.host.(phase := Checking));
    assert s0.host.unsent[FILE_BUFFER_SIZE..] == s4.host.unsent;
    assert s0.host.unsent[..FILE_BUFFER_SIZE] == file[k * FILE_BUFFER_SIZE..(k + 1) * FILE_BUFFER_SIZE];
    assert s0.toDaemon + [Chunk(s0.host.unsent[..FILE_BUFFER_SIZE])] == s4.toDaemon;
    assert Apply(s1, HostStep) == Some(s2);
    hide Leads, Buffers;
    Follow(s3, HostStep, s4, u);
    Follow(s2, HostStep, s3, u);
    Follow(s1, HostStep, s2, u);
    Follow(s0, Read(FILE_BUFFER_SIZE), s1, u);
  }

  lemma SenderFallsAsleep(file: seq<Byte>, u: State)
    requires |file| > FILE_FLOW_WINDOW && Leads(Hanging(file), u)
    ensures Leads(Midway(file, 4), u)
  {
    var s0 := Midway(file, 4);
    var s1 := s0.(host := s0.host.(phase := Holding(1)));
    var s2 := s1.(toDaemon := [], toHost := Failures(4));
    assert [Failure] + Failures(3) == Failures(4) && [] + Failures(4) == Failures(4);
    hide Leads, Failures, Buffers;
    FailuresAreQueued(s2, 4, Hanging(file), u);
    StraysAreAnswered(s1, s2, u);
    Follow(s0, Read(1), s1, u);
  }

  /** The first buffer is on its way to a handler that has granted the window. */
  function Underway(file: seq<Byte>): State
    requires |file| > FILE_FLOW_WINDOW
  {
    State(Host(Sent, file[FILE_BUFFER_SIZE..], FILE_FLOW_WINDOW - FILE_BUFFER_SIZE, true, [], false, 0, false),
          Initial(file).daemon.(phase := Working, granted := true), [Buffer(file, 0)], [], true)
  }

  /** The handler fails and reports it. */
  lemma FailureIsReported(s: State, d: Daemon, t: State, u: State)
    requires s.open && s.toHost == [] && s.daemon == d.(phase := Failing) && !d.canceled && d.inbox == []
    requires t == s.(daemon := d.(phase := DaemonFailed, routed := false), toHost := [Failure]) && Leads(t, u)
    ensures Leads(s, u)
  {
    var s1 := s.(daemon := d.(phase := Reporting, routed := false));
    var s2 := s.(daemon := d.(phase := Finishing, routed := false), toHost := [Failure]);
    assert [] + [Failure] == [Failure];
    hide Leads;
    Follow(s2, DaemonStep, t, u);
    Follow(s1, DaemonStep, s2, u);
    Follow(s, DaemonStep, s1, u);
  }

  lemma WritingFails(file: seq<Byte>, u: State)
    requires |file| > FILE_FLOW_WINDOW && Leads(Midway(file, 1), u)
    ensures Leads(Underway(file), u)
  {
    var s0, d := Underway(file), Underway(file).daemon;
    var s1 := s0.(daemon := d.(inbox := [Buffer(file, 0)]), toDaemon := []);
    var s2 := s1.(daemon := d.(phase := Failing));
    var s3 := s1.(daemon := FAILED, toHost := [Failure]);
    var s4 := s3.(host := s0.host.(phase := Checking));
    assert [Buffer(file, 0)][1..] == [] && [] + [Buffer(file, 0)] == [Buffer(file, 0)];
    hide Leads;
    Follow(s4, HostStep, Midway(file, 1), u);
    Follow(s3, HostStep, s4, u);
    FailureIsReported(s2, d, s3, u);
    Follow(s1, DaemonBreaks, s2, u);
    Follow(s0, ArriveAtDaemon, s1, u);
  }

  lemma FirstBufferIsSent(file: seq<Byte>, u: State)
    requires |file| > FILE_FLOW_WINDOW && Leads(Underway(file), u)
    ensures Leads(Ready(file), u)
  {
    var s0, s1 := Ready(file), Underway(file);
    var grant := [Grant(FILE_FLOW_WINDOW)];
    var s2 := s0.(host := s0.host.(credit := FILE_FLOW_WINDOW), toHost := []);
    var s3 := s2.(host := s2.host.(phase := Holding(FILE_BUFFER_SIZE)));
    assert grant[1..] == [] && [] + [Buffer(file, 0)] == [Buffer(file, 0)];
    hide Leads;
    Follow(s3, HostStep, s1, u);
    Follow(s2, Read(FILE_BUFFER_SIZE), s3, u);
    Follow(s0, ArriveAtHost, s2, u);
  }

  /** The host has the metadata, and the window is on its way. */
  function Ready(file: seq<Byte>): State {
    State(Initial(file).host.(phase := Sending), Initial(file).daemon.(phase := Working, granted := true), [],
          [Grant(FILE_FLOW_WINDOW)], true)
  }

  lemma ReadyIsReached(file: seq<Byte>, u: State)
    requires Leads(Ready(file), u)
    ensures Leads(Initial(file), u)
  {
    var h, d, window := Initial(file).host, Initial(file).daemon, Grant(FILE_FLOW_WINDOW);
    var s1 := State(h, d.(phase := Granting), [], [Meta], true);
    var s2 := State(h, d.(phase := Working, granted := true), [], [Meta, window], true);
    var s3 := s2.(host := h.(inbox := [Meta]), toHost := [window]);
    assert [] + [Meta] == [Meta] && [Meta] + [window] == [Meta, window] && [Meta, window][1..] == [window];
    assert [Meta][1..] == [];
    hide Leads;
    Follow(s3, HostStep, Ready(file), u);
    Follow(s2, ArriveAtHost, s3, u);
    Follow(s1, DaemonStep, s2, u);
    Follow(Initial(file), DaemonStep, s1, u);
  }

  lemma HangIsReached(file: seq<Byte>)
    requires |file| > FILE_FLOW_WINDOW
    ensures Leads(Initial(file), Hanging(file))
  {
    var u := Hanging(file);
    Stay(u);
    hide Leads, Hanging;
    SenderFallsAsleep(file, u);
    BufferIsSent(file, 3, u);
    BufferIsSent(file, 2, u);
    BufferIsSent(file, 1, u);
    WritingFails(file, u);
    FirstBufferIsSent(file, u);
    ReadyIsReached(file, u);
  }

  /** In a quiet state that a run reaches the daemon has ended, and so has the host unless its send sleeps. */
  lemma QuietMeansOver(file: seq<Byte>, s: State, actions: seq<Action>)
    requires Reachable(file, s, actions) && Quiet(s)
    ensures DaemonEnded(s) && (HostEnded(s) || Asleep(s))
  {
    ReachableKeepsInv(file, s, actions);
    hide Apply, Inv, Reachable;
    if !(DaemonEnded(s) && (HostEnded(s) || Asleep(s))) {
      var action := SomethingIsDue(file, s);
    }
  }

  /** A sleeping host has been granted a window and used it up. */
  lemma SleepNeedsALargeFile(file: seq<Byte>, s: State)
    requires Inv(file, s) && Asleep(s) && NothingPending(s)
    ensures |file| > FILE_FLOW_WINDOW && Carries(s.host.inbox, Failure)
  {
    assert Granted([]) == 0 && forall m :: !Carries([], m);
    HeldChunkFits(file, s);
    hide Carries, Granted, RealGrants, BytesInv, RolesInv, MarksInv;
  }

  lemma QuietLeavesNothingPending(s: State)
    requires Quiet(s)
    ensures NothingPending(s)
  {
    assert Due(ArriveAtHost) && Due(ArriveAtDaemon) && Due(SendCancel) && Due(SpawnedCancel);
    assert Due(FinishStream) && StreamFinished(s) == Apply(s, FinishStream);
    assert ArrivedAtHost(s) == Apply(s, ArriveAtHost) && ArrivedAtDaemon(s) == Apply(s, ArriveAtDaemon);
    assert CancelSent(s) == Apply(s, SendCancel) && CancelSpawned(s) == Apply(s, SpawnedCancel);
    hide Apply;
  }

  /** Overflow, cancellation, errors and loss of the connection end a push, with one exception: a run has at most
      `10 * |file| + 42` steps, and when nothing is due any more the daemon has finished, and the host has finished
      exactly unless its send sleeps on an open connection after the daemon failed. */
  lemma EveryPushEndsOrSleeps(file: seq<Byte>, s: State, actions: seq<Action>)
    requires Reachable(file, s, actions)
    ensures |actions| <= 10 * |file| + 42
    ensures Quiet(s) ==> DaemonEnded(s) && (HostEnded(s) <==> !Asleep(s))
  {
    StartKeepsInv(file);
    hide Inv, Apply, Quiet;
    RunsAreBounded(file, Initial(file), actions);
    hide Exec;
    if Quiet(s) {
      QuietMeansOver(file, s, actions);
    }
  }

  /** A push can hang if and only if the file is longer than the window. */
  lemma HangsExactly(file: seq<Byte>)
    ensures (exists s, actions :: Reachable(file, s, actions) && Quiet(s) && !HostEnded(s))
            <==> |file| > 1048576
  {
    hide Inv, Reachable, NothingPending, Quiet;
    if s, actions :| Reachable(file, s, actions) && Quiet(s) && !HostEnded(s) {
      QuietMeansOver(file, s, actions);
      QuietLeavesNothingPending(s);
      ReachableKeepsInv(file, s, actions);
      SleepNeedsALargeFile(file, s);
    }
    if |file| > FILE_FLOW_WINDOW {
      var s, actions := HangingRun(file);
    }
  }

  lemma HangingRun(file: seq<Byte>) returns (s: State, actions: seq<Action>)
    requires |file| > FILE_FLOW_WINDOW
    ensures Reachable(file, s, actions) && Quiet(s) && !HostEnded(s)
  {
    HangIsReached(file);
    s := Hanging(file);
    actions := Run(Initial(file), s);
  }

  /** A host that hangs has the daemon's error unread in its queue, and only the loss of the connection can wake it. No
      push hangs unless the daemon had an error of its own: overflow, cancellation, the host's errors and disconnection
      always end both. */
  lemma OnlyADaemonErrorHangs(file: seq<Byte>, s: State, actions: seq<Action>, action: Action)
    requires Reachable(file, s, actions) && Quiet(s) && !HostEnded(s)
    ensures DaemonBreaks in actions && Carries(s.host.inbox, Failure)
    ensures Apply(s, action).Some? ==> action == Disconnect
  {
    QuietMeansOver(file, s, actions);
    QuietLeavesNothingPending(s);
    ReachableKeepsInv(file, s, actions);
    SleepNeedsALargeFile(file, s);
    NothingTellsTheHost(s);
    assert action == DaemonBreaks || action == HostBreaks ==> Apply(s, action).None?;
    hide Apply;
    if DaemonBreaks !in actions {
      StartKeepsInv(file);
      hide Inv;
      RunKeepsBlameless(file, Initial(file), actions);
    }
  }

  lemma NothingTellsTheHost(s: State)
    requires Asleep(s) && NothingPending(s)
    ensures !HostKnows(s)
  {
  }

  const DONE := Daemon(Complete, false, [], false, false, false, false, [], 0, true)

  lemma ReplyIsLost(s2: State, u: State)
    requires s2 == Ready([]).(host := Ready([]).host.(phase := Ended), daemon := Ready([]).daemon.(inbox := [End]))
    requires Leads(u, u) && u.host.phase == HostFailed
    requires u == HostFails(Disconnected(s2.(daemon := DONE)).value, false)
    ensures Leads(s2, u)
  {
    var s3 := s2.(daemon := DONE, toHost := [Grant(FILE_FLOW_WINDOW), End]);
    var s4 := Disconnected(s3).value;
    assert s2.toHost + [End] == s3.toHost && [End][1..] == [];
    hide Leads, Written, ReadFile, CancelSent;
    Follow(s4, HostStep, u, u);
    Follow(s3, Disconnect, s4, u);
    Follow(s2, DaemonStep, s3, u);
  }

  /** The two ends need not agree: if the connection is lost with the reply, the daemon is done, with the file written,
      and the host reports an error. */
  lemma DaemonMaySucceedAlone() returns (s: State, actions: seq<Action>)
    ensures Reachable([], s, actions) && s.daemon.phase == Complete && s.host.phase == HostFailed
  {
    var s0 := Ready([]);
    var s1 := s0.(host := s0.host.(phase := Ended), toDaemon := [End]);
    var s2 := s1.(toDaemon := [], daemon := s0.daemon.(inbox := [End]));
    s := HostFails(Disconnected(s2.(daemon := DONE)).value, false);
    Stay(s);
    assert [] + [End] == [End] && [End][1..] == [];
    hide Leads, DaemonSteps;
    ReplyIsLost(s2, s);
    Follow(s1, ArriveAtDaemon, s2, s);
    Follow(s0, HostStep, s1, s);
    ReadyIsReached([], s);
    actions := Run(Initial([]), s);
  }

  lemma Run(s: State, t: State) returns (actions: seq<Action>)
    requires Leads(s, t)
    ensures Exec(s, actions) == Some(t)
  {
    actions :| Exec(s, actions) == Some(t);
  }
}
