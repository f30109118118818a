# SideWire protocol verification

SideWire connects a desktop host to a rooted Android device over one TCP connection. This project models the parts of
it where a mistake is hard to see: the multiplexed connection on both ends, the record framing under it, the file
transfers and their flow control on top of it, the session table, and the stateful algorithms around them (console
decoding, pairing, the clipboard helper, directory batching, shell quoting, the completion listing). Dafny 4.11 checks
it with `dafny verify dfyconfig.toml`.

## How the model follows the program

Where the program updates objects in place, the model has classes and loops with the same fields, branches, limits and
error cases, each proved against a specification function. Where several tasks interleave, the model has a `State`, an
`Action` for every step between two points at which other tasks can run, a partial function `Apply` and its iteration
`Exec`; the theorems then speak about every run. A step joins two critical sections only where no other task can tell
the difference, and says so. The methods of the class forms are tied to those steps by their contracts.

| module | models |
| --- | --- |
| `Bytes` | big-endian integers of the wire formats |
| `Frames` | the frame codec: crates/sidewire-protocol/src/frame.rs |
| `Sinks` | short vectored writes: crates/sidewire-protocol/src/frame.rs:190-222, crates/sidewire-protocol/src/security.rs:88-117 |
| `WireFormat` | frames and packets byte by byte, and which error a byte string is |
| `Records` | cutting a frame into flagged records and accumulating them again: crates/sidewire-protocol/src/security.rs:291-330, 376-404 |
| `SecureFrames` | `SecureFrameWriter`, `SecureFrameReader`, plain and over Noise: crates/sidewire-protocol/src/security.rs:201-405 |
| `WriterTask` | the background writer that owns the write half of a connection, on host and device |
| `FlowCredits` | the credit counter |
| `CreditWaiting` | senders asleep for credit, against grants, cancellations and closing, on host and device |
| `FileTransfer` | the push and pull loops under flow control |
| `TransferWires` | the frames of a transfer on the wire and in the queues |
| `PushEnds`, `PullEnds` | a push and a pull step by step at both ends, between bounded queues, with overflow, cancel and error frames, errors at either end and loss of the connection |
| `PushDelivery`, `PullDelivery` | transfers that nothing disturbs, and what each end makes of cancellations, errors and credit |
| `StreamRouting` | the host's route table, reader task, `open_stream` and `close` as interleaved steps |
| `DeviceTransports` | the host's connection object, one critical section per method |
| `StreamAccounts` | credit, data, cancellation and closing on the host, accounted for by what the reader has read |
| `DaemonSteps` | the daemon's serve loop, its handlers and their inboxes, `MuxWriter`'s tables and the teardown, as interleaved steps; delivery for any host |
| `DaemonTables` | what the daemon's tables hold when the host keeps to its side, whom cancellation reaches, how long it lasts |
| `DaemonIsolation` | leaving one stream out of a run of the daemon |
| `Daemons` | the daemon's objects: one turn of the serve loop, the writer's methods, the teardown |
| `DaemonRequests` | what the daemon does with each kind of frame; its credit and data, accounted for by what the loop has read |
| `DeviceRegistry` | device session replacement and heartbeat |
| `Utf8`, `ConsoleDecoder` | Table 3-7 of the Unicode Standard, and the console decoder that keeps cut-off characters |
| `RateLimit`, `PairingCommit` | pairing attempts per address; the PIN file, the commit section, failed guesses |
| `ClipboardHelper` | the helper process and its two pipes, byte by byte |
| `MkdirBatches`, `ShellQuoting`, `CandidateGrid` | greedy batching, quoting for `su -c`, the candidate listing |

Some promises turned out to hold only under a condition, which is proved with a run that shows the failure:

- A queue overflow is possible although flow control is on. A transfer whose reads fill the buffer never has more than
  6 messages outstanding (`FileTransfer.FullReadsNeverOverflow`). If reads may be short, only a file of fewer than 16
  bytes is safe (`FileTransfer.OnlyShortFilesNeverOverflow`). An overflow ends the transfer at both ends, as a cancel
  frame wakes a sender that waits for credit.
- A push can hang on a healthy connection. If the daemon cannot write, it answers with an error frame, and that waits in
  the host's queue until the host has sent its next chunk; a host that waits for credit never does. It can happen exactly
  for files longer than the window of 1 MiB (`PushEnds.HangsExactly`), only after an error of the daemon, and only the
  loss of the connection ends it (`PushEnds.OnlyADaemonErrorHangs`). Everything else ends a push at both ends
  (`PushEnds.EveryPushEndsOrSleeps`). A pull always ends (`PullEnds.EveryPullEnds`).
- The two ends of a transfer need not agree. What the host reports can be relied on
  (`PushEnds.HostSuccessMeansDelivered`, `PullEnds.HostSuccessMeansDelivered`); the daemon can be done although the host
  reports an error (`PushEnds.DaemonMaySucceedAlone`, `PullEnds.DaemonMaySucceedAlone`).
- The daemon can forget that it canceled a stream. A data frame for a stream without a route is answered as an
  unsupported request, and that path finishes the stream, which clears its cancellation while its handler still runs:
  sixteen chunks that a slow push has not received yet, one that overflows its queue, and one more
  (`DaemonTables.OverflowedPushForgetsItsCancellation`). `DaemonTables.CancellationLasts` says exactly when.
- "One-time PIN pairing" (README.md:22 of the program) depends on removing the PIN file after the host is stored. The
  result of the removal is ignored, and an error from setting the stored file's permissions leaves before it. Two
  pairings on one generated PIN happen only after one of the two (`PairingCommit.OnePairingPerPin`), and after either
  they can (`PairingCommit.UnspentPinPairsAgain`).
- A PIN is given up after five failed attempts only if its file can be removed at the fifth: that result is ignored
  too, and the count starts over (`PairingCommit.FifthFailureDecides`, `PairingCommit.PinOutlivesFiveGuessesExactly`).
- The completion listing keeps to the terminal width exactly if the longest candidate alone does
  (`CandidateGrid.RowsFitExactly`).
- The decoder of frames ignores the minor version (`Frames.DecodeIgnoresMinorVersion`), so it is injective only up to
  that byte (`Frames.DecodeIsInjective`).

## Model

| member | source | states |
|---|---|---|
| `Frames.FrameHeader` | crates/sidewire-protocol/src/frame.rs:132-147 | filling the zeroed array field by field yields the header that `HeaderRoundTrip` reads back; fails exactly above 16 MiB |
| `Frames.HeaderRoundTrip` | crates/sidewire-protocol/src/frame.rs:149-164 | kind, stream id and length of every header survive the trip |
| `Frames.FrameRoundTrip` | crates/sidewire-protocol/src/frame.rs:166-188 | decoding undoes encoding for every frame of legal size |
| `Frames.DecodeIsInjective` | crates/sidewire-protocol/src/frame.rs:174-188 | encoding undoes decoding up to the minor version byte, and decoded payloads are within the limit |
| `Frames.DecodeIgnoresMinorVersion` | crates/sidewire-protocol/src/frame.rs:149-164 | two different byte strings that differ in the minor version alone decode alike |
| `Frames.PrefixDoesNotDecode` | crates/sidewire-protocol/src/frame.rs:174-188 | no proper prefix of an encoded frame decodes |
| `WireFormat.FrameLayout` | crates/sidewire-protocol/src/frame.rs:132-172 | an encoded frame is SIDE, 1, 2, kind, stream and length by their values in base 256, and the payload |
| `WireFormat.DecodeByTheBytes` | crates/sidewire-protocol/src/frame.rs:149-188 | which of the errors a byte string of 16 bytes or more is, in order of precedence, and otherwise what frame, stated on the numbers its bytes spell |
| `WireFormat.CodesAreExact` | crates/sidewire-protocol/src/frame.rs:76-115 | a code stands for at most one kind, and reading a code finds that kind or there is none |
| `WireFormat.PacketIsTakenExactly` | crates/sidewire-protocol/src/security.rs:119-132 | an input yields a packet if and only if it begins with that packet's length in four bytes, at most 128 KiB, and its bytes |
| `Sinks.Sink.WriteHeaderThenBody` | crates/sidewire-protocol/src/frame.rs:190-222 | for every sequence of short writes: success means exactly header and body were added, failure a prefix of them, and failure happens only when the sink failed, took nothing or the write was dropped |
| `Sinks.Sink.WriteRawFrame` | crates/sidewire-protocol/src/frame.rs:190-222 | on success the wire gains exactly the encoded frame, on failure a prefix of it, and nothing when the payload is too large |
| `Sinks.Sink.WriteRawPacket` | crates/sidewire-protocol/src/security.rs:88-117 | the same for a length-prefixed packet and its 128 KiB limit |
| `Sinks.PacketRoundTrip` | crates/sidewire-protocol/src/security.rs:119-132 | a packet reads back whole, whatever follows it |
| `Records.FeedTracksBytes` | crates/sidewire-protocol/src/security.rs:291-330 | one record keeps the accumulator equal to the bytes seen; a final record succeeds exactly if those decode, a non-final one fails exactly if the frame is already complete or bad |
| `Records.RunRefinesDecode` | crates/sidewire-protocol/src/security.rs:291-330 | the same over a list of records from any accumulator state, by induction |
| `Records.StreamingRefinesWholeBuffer` | crates/sidewire-protocol/src/security.rs:291-330 | on records ending at their first final flag the reader returns a frame if and only if the flags are valid, the joined bodies decode to it and no earlier record completed a frame |
| `Records.CutIsFlagged` | crates/sidewire-protocol/src/security.rs:376-404 | for every chunk size only the last record is final, none is empty, and all but the last fill the chunk |
| `Records.CutBodies` | crates/sidewire-protocol/src/security.rs:376-404 | the first k bodies join to a prefix of the frame, proper for all but the whole list |
| `Records.RecordsRoundTrip` | crates/sidewire-protocol/src/security.rs:275-405 | accumulating what was cut returns the frame and consumes exactly its records, for every chunk size |
| `SecureFrames.SecureFrameWriter.WriteNoiseRecord` | crates/sidewire-protocol/src/security.rs:201-219 | refuses exactly oversized plaintext; otherwise one packet under the next counter, a prefix of it if the sink fails |
| `SecureFrames.SecureFrameWriter.PlainRecord` | crates/sidewire-protocol/src/security.rs:376-400 | the scratch buffer filled from header and payload is the flagged stretch of the encoded frame, also where a chunk straddles both |
| `SecureFrames.SecureFrameWriter.WriteRecords` | crates/sidewire-protocol/src/security.rs:376-405 | the offset loop sends exactly the sealed records of the frame in order, or a prefix of those bytes |
| `SecureFrames.SecureFrameWriter.WriteFrame` | crates/sidewire-protocol/src/security.rs:363-405 | plain or over Noise: success adds exactly the frame's wire bytes, failure a prefix, refusal nothing, and failure needs a failing sink or a dropped write |
| `SecureFrames.SecureFrameReader.ReadRawPacket` | crates/sidewire-protocol/src/security.rs:119-132 | returns the first packet and leaves what follows it, or fails on end of file and oversized lengths |
| `SecureFrames.SecureFrameReader.FeedRecord` | crates/sidewire-protocol/src/security.rs:291-330 | the in-place loop body does what the accumulator specification says, in every branch |
| `SecureFrames.SecureFrameReader.ReadFrame` | crates/sidewire-protocol/src/security.rs:275-332 | returns the frame, counter and rest of input that the specification of one read prescribes |
| `SecureFrames.SecureFrameReader.ReadPlainFrame` | crates/sidewire-protocol/src/frame.rs:227-238 | the same for an unencrypted connection |
| `SecureFrames.ReadRecordsRuns` | crates/sidewire-protocol/src/security.rs:230-332 | records sealed under consecutive counters and packed feed the accumulator the very same records |
| `SecureFrames.FrameOnWireRoundTrip` | crates/sidewire-protocol/src/security.rs:275-405 | one frame on the wire, whatever follows it, reads back as that frame and leaves what follows |
| `SecureFrames.WireRoundTrip` | crates/sidewire-protocol/src/security.rs:275-405 | back-to-back frames read back as exactly that list and then whatever the rest reads as, for every chunk size |
| `SecureFrames.RecordLimits` | crates/sidewire-protocol/src/security.rs:13-15 | at the real chunk size of 60 KiB all records but the last are 61441 bytes, and every one respects the plaintext, Noise message and packet limits of both ends |
| `SecureFrames.TruncatedFrameReadsNothing` | crates/sidewire-protocol/src/security.rs:275-332 | a frame cut anywhere before its last byte reads as nothing |
| `SecureFrames.ReadNextExtends` | crates/sidewire-protocol/src/security.rs:275-332 | what a read returned does not depend on bytes that arrive later |
| `SecureFrames.ReadingIsExact` | crates/sidewire-protocol/src/security.rs:275-332 | a frame is returned only for packets at the front of the input that open in turn to records which accumulate to it, and exactly those are consumed |
| `SecureFrames.OpenPacketsAreRead` | crates/sidewire-protocol/src/security.rs:275-332 | and for every such input it is |
| `SecureFrames.PlainReadingIsExact` | crates/sidewire-protocol/src/frame.rs:227-238 | the plain reader returns a frame if and only if the input begins with bytes that decode to it |
| `WriterTask.StepKeepsInv` | apps/sidewire/src/transport.rs:186-223 | every step keeps: the wire is the whole frames in queue order and then one cut frame, answers tell which are whole, and every waiter still listening to a whole frame has its answer |
| `WriterTask.PeerReadsQueuedPrefix` | apps/sidewired/src/transport.rs:78-156 | over every run the peer reads exactly a prefix of the queued frames, in order, and it contains everything acknowledged |
| `WriterTask.FailuresAreFinal` | apps/sidewire/src/transport.rs:186-223 | after a failed answer, however the run goes on, the wire stays as it is, the peer reads nothing past that frame, and no further answer is given |
| `WriterTask.EveryWaiterIsTold` | apps/sidewire/src/transport.rs:121-143 | over every run a waiter still listening is told of success exactly if its frame is whole on the wire and was seen to be, of failure exactly if the task stopped before |
| `WriterTask.DroppingWaitersChangesNothing` | apps/sidewire/src/transport.rs:205-215 | a run stays a run without its waiter drops, with the same queue, wire and task, and every waiter still listening learns the same, although answers reach only those that listen |
| `WriterTask.QueueTakesSixteen` | apps/sidewire/src/transport.rs:121-135 | a frame is queued exactly while the task runs and fewer than sixteen wait |
| `WriterTask.TaskCanDrain` | apps/sidewire/src/transport.rs:186-223 | from every reachable state of a running task there is a run that writes everything queued, if no frame is too large, and gives every waiter a positive answer |
| `WriterTask.ClosingIsExact` | apps/sidewire/src/transport.rs:186-223 | over every run the connection is closed if and only if it was, its task stopped, or somebody closed it |
| `WriterTask.WriterLoop` | apps/sidewire/src/transport.rs:186-223 | all answers but the last are positive, the wire is the acknowledged frames plus a prefix of the failed one, and a failure needs a failing sink, an oversized frame or a connection closed before or during the write |
| `FlowCredits.FlowCredit.Add` | apps/sidewire/src/transport.rs:42-57 | rejects empty grants and more than 16 MiB without any change; otherwise adds and notifies once |
| `FlowCredits.FlowCredit.TryTake` | apps/sidewired/src/transport.rs:55-62 | takes all of the bytes or none, exactly if the credit covers them |
| `CreditWaiting.RunKeepsInv` | apps/sidewired/src/transport.rs:158-252 | every interleaving of waiters, grants, cancellations, closing and notifications keeps waiters informed: what one found false may have become true only with news delivered or pending |
| `CreditWaiting.NoLostWakeup` | apps/sidewire/src/transport.rs:417-448 | over every run, with no notification pending, a sleeper that nothing will wake lacks credit and is neither canceled nor disconnected; for host and device |
| `CreditWaiting.GrantsAreAccounted` | apps/sidewire/src/transport.rs:42-64 | over every run the credit plus the needs of all sends that went through equals what it was plus the accepted grants, by a ledger of points and grants that does not look into the steps |
| `CreditWaiting.LastCheckDecides` | apps/sidewire/src/transport.rs:432-436 | at its last check a waiter passes and pays its need if the credit covers it, and falls asleep otherwise |
| `CreditWaiting.TurnDecides` | apps/sidewired/src/transport.rs:215-229 | an undisturbed turn of the loop ends in an error if canceled or closed, else passes or sleeps by the credit, and leaves all other waiters alone |
| `CreditWaiting.EndsAreRecorded` | apps/sidewired/src/transport.rs:247-252 | over every run the stream is canceled, and the connection closed, if and only if that happened |
| `CreditWaiting.OnlyNotificationsWake` | apps/sidewire/src/transport.rs:428-446 | a sleeper that has seen every notification stays asleep over every run that delivers none |
| `CreditWaiting.NotificationsWakeEveryone` | apps/sidewire/src/transport.rs:42-57 | a notification of credit, of closing, or on the host of cancellation lets every sleeper return to the top of its loop |
| `CreditWaiting.CheckingFirstLosesWakeup` | apps/sidewired/src/transport.rs:215-229 | with the checks before the subscriptions there is a run that sleeps forever on available credit, so the order is needed |
| `FileTransfer.FileReceiver.AcceptChunk` | apps/sidewired/src/main.rs:1083-1097 | the file grows by the chunk, and its window is kept back until 512 KiB are, then returned whole |
| `FileTransfer.StepKeepsInv` | apps/sidewire/src/server.rs:1443-1528 | every step keeps the window conserved, the messages well shaped and received, transit and unsent bytes equal to the file |
| `FileTransfer.CreditIsConserved` | apps/sidewire/src/server.rs:1506-1520 | over every run credit, transit, kept-back bytes and grants sum to 1048576 bytes, less than half of it kept back, and no window update is ever rejected |
| `FileTransfer.QuietSenderHasCredit` | apps/sidewired/src/main.rs:1083-1146 | with nothing in transit the sender holds more than 512 KiB and may send a chunk of n bytes exactly if 1 <= n <= 262144 |
| `FileTransfer.EveryTransferCompletes` | apps/sidewire/src/server.rs:1443-1528 | runs are at most four steps per byte plus six long, and a run that cannot go on has delivered exactly the file |
| `FileTransfer.FullReadsNeverOverflow` | apps/sidewired/src/main.rs:1312-1332 | with reads that fill the buffer at most 6 messages are outstanding |
| `FileTransfer.ShortReadsCanOverflow` | apps/sidewired/src/main.rs:1312-1332 | for every n up to the window there is a run with n one-byte chunks outstanding |
| `FileTransfer.OnlyShortFilesNeverOverflow` | apps/sidewire/src/transport.rs:18 | the outstanding messages fit the queue over all runs if and only if the file is shorter than 16 bytes |
| `PushEnds.StepKeepsInv` | apps/sidewire/src/server.rs:1413-1471 | every step of a push, also overflow at either end, cancel frames sent late, failure and loss of the connection, keeps what was written a beginning of the file, the window from growing, and each end's failure known or on its way to the other |
| `PushEnds.ReceivedIsAPrefix` | apps/sidewired/src/main.rs:1099-1244 | however a push is disturbed, what the daemon has written is the beginning of the file, and all of it when the daemon is done |
| `PushEnds.HostSuccessMeansDelivered` | apps/sidewire/src/server.rs:1461-1470 | when the host reports success the daemon is done and has written the whole file |
| `PushEnds.EveryPushEndsOrSleeps` | apps/sidewire/src/transport.rs:417-448 | runs are bounded, and when nothing is due any more the daemon has ended, and the host has if and only if its send is not asleep: open connection, no cancel arrived, daemon failed, credit below the next chunk |
| `PushEnds.HangsExactly` | apps/sidewire/src/server.rs:1442-1460 | some run of a push ends with nothing due and the host unfinished if and only if the file is longer than 1 MiB |
| `PushEnds.OnlyADaemonErrorHangs` | apps/sidewired/src/main.rs:689-706 | a host that hangs has the error frame unread in its queue, the daemon had an error of its own, and no step but loss of the connection is possible |
| `PushEnds.DaemonMaySucceedAlone` | apps/sidewired/src/main.rs:1248-1249 | there is a run in which the daemon is done with the file and the host reports an error |
| `PushDelivery.UndisturbedPushDelivers` | apps/sidewire/src/server.rs:1413-1471 | a run of a push without errors from outside and without overflow that has nothing left to do has succeeded at both ends with the whole file written |
| `PushDelivery.CanceledStreamsAreSilent` | apps/sidewired/src/transport.rs:258-330 | on a canceled stream the daemon sends nothing but the cancel frame of its own overflow |
| `PushDelivery.FailingDaemonsReport` | apps/sidewired/src/main.rs:689-706 | a failed handler takes its route away, reports the error unless the stream is canceled, and forgets the cancellation |
| `PushDelivery.StrayFramesForgetTheCancellation` | apps/sidewired/src/main.rs:879-884 | answering a frame without a route forgets the stream's cancellation, and answers only if there was none |
| `PullEnds.StepKeepsInv` | apps/sidewire/src/server.rs:1473-1538 | the same for every step of a pull, with error frames that wait in the queue behind the data |
| `PullEnds.ReceivedIsAPrefix` | apps/sidewire/src/server.rs:1506-1527 | however a pull is disturbed, what the host has written is the beginning of the file |
| `PullEnds.HostSuccessMeansDelivered` | apps/sidewire/src/server.rs:1521-1538 | when the host reports success it has written the whole file and the daemon is done |
| `PullEnds.EveryPullEnds` | apps/sidewired/src/main.rs:1252-1345 | whatever happens no pull hangs: runs are bounded, and when nothing is due any more both ends have finished |
| `PullEnds.DaemonMaySucceedAlone` | apps/sidewired/src/main.rs:1342-1344 | there is a run in which the daemon is done and the host reports an error |
| `PullDelivery.UndisturbedPullDelivers` | apps/sidewire/src/server.rs:1473-1538 | the same for a pull: without errors from outside and without overflow both ends succeed and the host has the whole file |
| `StreamRouting.StepKeepsInv` | apps/sidewire/src/transport.rs:225-384 | every step keeps ids fresh, delivery in order and the table consistent with closing |
| `StreamRouting.OpenedIdsAreNew` | apps/sidewire/src/transport.rs:346-384 | below 2^32 draws each id handed out is nonzero and never used before, no draw is repeated, and a closed connection hands out none |
| `StreamRouting.StreamsReceiveInOrder` | apps/sidewire/src/transport.rs:225-312 | over every run a stream has received, and has queued, an in-order prefix of the data frames that arrived for it; all of them while it is routed |
| `StreamRouting.ClosedForever` | apps/sidewire/src/transport.rs:346-384 | after closing no run opens a stream, and a cleared table stays empty in every interleaving |
| `StreamRouting.ClosingDropsEverySender` | apps/sidewire/src/transport.rs:313-331 | when the reader is gone the connection is closed and no stream has a sender left, in the table or in the reader's hand |
| `StreamRouting.ReaderCanAlwaysClear` | apps/sidewire/src/transport.rs:225-318 | from every reachable state at most five steps of the reader alone end with the connection closed and the table empty |
| `StreamRouting.StepIsIsolated` | apps/sidewire/src/transport.rs:225-312 | a step about one stream changes no other stream and does not close the connection, forbidden window updates apart |
| `StreamRouting.StreamsDoNotInterfere` | apps/sidewire/src/transport.rs:225-312 | erasing every step of one stream that does not itself end the connection by a forbidden window update leaves a run in which all other streams end up the same |
| `StreamAccounts.UpdatesAreAccounted` | apps/sidewire/src/transport.rs:243-276 | over every run, while the reader is at work, a stream's credit plus all that its holder took equals the byte counts of the window updates that arrived for it while routed |
| `StreamAccounts.ForbiddenUpdates` | apps/sidewire/src/transport.rs:255-276 | a window update ends the connection if and only if updates were not negotiated, it does not decode, or it is for a routed stream and empty or beyond 16 MiB |
| `StreamAccounts.DataIsAccounted` | apps/sidewire/src/transport.rs:292-312 | what counts as arrived for a stream is exactly the frames the reader read for it since it was opened |
| `StreamAccounts.QueueHoldsSixteen` | apps/sidewire/src/transport.rs:293-305 | a frame in hand is queued below sixteen, cancels the stream at sixteen, and is dropped without a holder |
| `StreamAccounts.CancellationsAreExact` | apps/sidewire/src/transport.rs:278-305 | over every run a stream is canceled if and only if a cancel frame came while it was routed or its queue overflowed |
| `StreamAccounts.ClosingIsExact` | apps/sidewire/src/transport.rs:114-119 | over every run the connection is closed if and only if its reader ended, it was closed, or its writer stopped |
| `StreamAccounts.OpeningIsExact` | apps/sidewire/src/transport.rs:346-384 | the next number opens an empty routed stream if and only if it is not zero, not routed, and the connection not closed |
| `DeviceTransports.HandlingIsARun` | apps/sidewire/src/transport.rs:243-312 | handling one frame, with the stream dropped between lookup and send or not, is a run of the interleaved steps, so it keeps their invariants |
| `DeviceTransports.DeviceTransport.HandleFrame` | apps/sidewire/src/transport.rs:243-312 | the loop body ends in the state those steps lead to, for every kind of frame, also when it finds the receiver closed; `StreamAccounts` says what they do to credit, queues and cancellations |
| `DeviceTransports.DeviceTransport.OpenStream` | apps/sidewire/src/transport.rs:346-384 | the redraw loop ends as long as any id is free, with a nonzero untaken id and one fresh routed stream, or without an effect if the connection is closed before either look; below 2^32 draws the first draw is it |
| `DeviceTransports.DeviceTransport.Close` | apps/sidewire/src/transport.rs:328-331 | afterwards the flag is set and the table empty, queues are untouched, the invariant holds |
| `DeviceTransports.DeviceTransport.TryRecv` | apps/sidewire/src/transport.rs:496-515 | cancellation wins over queued frames, frames come in order, empty means nothing yet only while routed, and the stream counts as completed exactly after a completing frame or the cancellation |
| `DeviceTransports.DeviceTransport.DropStream` | apps/sidewire/src/transport.rs:541-558 | dropping removes the route before anything else and touches no other stream; the peer is told exactly if the holder has not seen the end |
| `DaemonSteps.StepKeepsInv` | apps/sidewired/src/main.rs:609-905 | every step, whatever the host sends, keeps deliveries in order, inboxes within 16 frames, and channels ending at handlers of their own stream |
| `DaemonSteps.HandlersReceiveInOrder` | apps/sidewired/src/main.rs:650-671 | over every run with any host a handler has received, and has in its inbox, an in-order prefix of the frames that arrived for its stream; all of them while it is routed |
| `DaemonTables.NewRequestStaysLive` | apps/sidewired/src/main.rs:433-460 | a request on an id the host has not used keeps every table to handlers that are at work |
| `DaemonTables.StepStaysLive` | apps/sidewired/src/main.rs:609-905 | every step under an orderly host keeps routes, cancel channels and flow control state to live handlers of their stream, and whoever listens for a cancellation able to be told or told |
| `DaemonTables.TablesHoldLiveHandlers` | apps/sidewired/src/main.rs:676-871 | over every run under an orderly host, which may also cancel ids it never requested, routes and cancel channels belong to live handlers, flow state to exactly the unfinished pulls, and nothing outlasts the last handler |
| `DaemonTables.RequestsNeverCollide` | apps/sidewired/src/main.rs:433-460 | a request on an unused id never ends the connection: its handler starts with an empty inbox, registered where its kind needs it |
| `DaemonTables.CancelReachesTheHandler` | apps/sidewired/src/main.rs:637-648 | when the loop is done with a cancel frame, whatever others did meanwhile, the handler has no route and, if it listens, was told |
| `DaemonTables.TeardownReachesEveryHandler` | apps/sidewired/src/main.rs:890-900 | once the loop has ended every handler that still runs was reached |
| `DaemonTables.TeardownWakesSenders` | apps/sidewired/src/transport.rs:247-252 | the teardown notifies every pull that may be asleep for credit, with its stream canceled |
| `DaemonTables.CancellationLasts` | apps/sidewired/src/transport.rs:247-257 | over every run a cancellation lasts if and only if the handler does not finish and no frame is read for the stream |
| `DaemonTables.StrayCancelsStay` | apps/sidewired/src/main.rs:637-648 | over every run a cancel frame for an id that was never requested is remembered for good |
| `DaemonTables.OverflowedPushForgetsItsCancellation` | apps/sidewired/src/main.rs:650-671 | from every serving state a push can be sent sixteen frames that fill its inbox, one that overflows it and cancels the stream, and one that makes the daemon forget it, with the sixteen still to be received |
| `DaemonIsolation.StepIsIsolated` | apps/sidewired/src/main.rs:630-871 | a step about one stream changes no table entry, credit, handler or inbox of another |
| `DaemonIsolation.OnlyWindowsEndTheLoop` | apps/sidewired/src/main.rs:630-671 | with an orderly host no stream ends the connection except by a forbidden window update |
| `DaemonIsolation.StreamsDoNotInterfere` | apps/sidewired/src/main.rs:609-905 | for any host, erasing every step of one stream that does not itself end the connection leaves a run in which all other streams end with the same tables, credits, handlers and inboxes |
| `DaemonRequests.RequestsStart` | apps/sidewired/src/main.rs:672-871 | each of the eight request frames on an unused id starts a running handler: a push and a terminal with a route, all but a terminal with a cancel channel, a pull with flow control state |
| `DaemonRequests.OthersAreAnswered` | apps/sidewired/src/main.rs:873-886 | every other frame without a route starts nothing: a ping is answered unless canceled, the rest as unsupported |
| `DaemonRequests.CollisionsEndTheConnection` | apps/sidewired/src/main.rs:433-460 | a request ends the connection exactly if its id still has a cancel channel or, for a pull, flow control state; the new ends have replaced the old by then and nothing is started |
| `DaemonRequests.RoutesComeFirst` | apps/sidewired/src/main.rs:650-671 | a frame with a route goes there whatever its kind |
| `DaemonRequests.AnswersFinishTheStream` | apps/sidewired/src/main.rs:873-886 | an answer to a frame without a route forgets the stream's cancellation and credit; a pong on a canceled stream ends the connection |
| `DaemonRequests.CancelFramesAreHandled` | apps/sidewired/src/main.rs:637-648 | a cancel frame marks the stream, notifies its senders, takes its route and tells exactly whoever is in the cancel table |
| `DaemonRequests.InboxHoldsSixteen` | apps/sidewired/src/main.rs:650-671 | a frame in hand is delivered below sixteen; at sixteen the route goes and one cancellation is spawned |
| `DaemonRequests.HandlersFinish` | apps/sidewired/src/main.rs:676-871 | a handler that ends takes everything of its stream out of the tables, by kind |
| `DaemonRequests.TeardownIsExact` | apps/sidewired/src/main.rs:890-905 | the end of the loop empties both tables, cancels all that was in them, notifies its senders and tells everyone in the cancel table |
| `DaemonRequests.UpdatesAreAccounted` | apps/sidewired/src/transport.rs:189-199 | for any host, while the loop is at work, a stream's credit plus all that its handler took equals the window updates that arrived for it |
| `DaemonRequests.ForbiddenUpdates` | apps/sidewired/src/main.rs:630-636 | a window update ends the connection if and only if it does not decode, was not negotiated, or is empty or beyond 16 MiB for a stream with flow control state |
| `DaemonRequests.GrantsAndCancellationsNotify` | apps/sidewired/src/transport.rs:247-252 | no step adds credit or cancels a stream without notifying the senders asleep for it |
| `DaemonRequests.DataIsAccounted` | apps/sidewired/src/main.rs:650-671 | what counts as arrived for a handler is exactly the frames the loop read for its stream while it was there |
| `Daemons.HandlingIsARun` | apps/sidewired/src/main.rs:611-887 | handling one frame undisturbed is a run of the loop's own steps |
| `Daemons.MuxWriter.RegisterFlowStream` | apps/sidewired/src/transport.rs:175-187 | a second registration is reported but has already replaced the credit |
| `Daemons.MuxWriter.AddFlowCredit` | apps/sidewired/src/transport.rs:189-199 | adds to a registered stream only and wakes its waiters; without negotiation or above the limit it is an error without effect |
| `Daemons.Daemon.HandleFrame` | apps/sidewired/src/main.rs:611-887 | one turn of the loop ends where the loop's steps lead, for any frame in any state of the tables, also requests on used or routed ids |
| `Daemons.Daemon.HandlePlain` | apps/sidewired/src/main.rs:650-886 | a routed frame goes to the inbox whatever its kind, an unrouted request starts a handler, anything else is answered and its stream finished; `DaemonRequests` says which frame is what |
| `Daemons.Daemon.Start` | apps/sidewired/src/main.rs:676-736 | registrations happen in the program's order, and a collision leaves behind what was registered before it |
| `Daemons.Daemon.InsertProxy` | apps/sidewired/src/main.rs:860-862 | a proxy that takes the place of another aborts exactly that one |
| `Daemons.Daemon.TearDown` | apps/sidewired/src/main.rs:890-905 | what follows the loop is the two teardown steps, every proxy aborted and the writer closed with one notification |
| `DeviceRegistry.InsertKeepsInv` | apps/sidewire/src/server.rs:513-519 | registering keeps entries newest, absences closed and every older session closed or about to be |
| `DeviceRegistry.OtherStepsKeepInv` | apps/sidewire/src/server.rs:519-545 | so do the spawned close, any other close, and every monitor |
| `DeviceRegistry.EntryIsLatestOrClosed` | apps/sidewire/src/server.rs:513-545 | over every run a device's entry is its newest session, or absent with the newest one closed |
| `DeviceRegistry.StaleMonitorsChangeNothing` | apps/sidewire/src/server.rs:1270-1281 | a monitor removes the entry if and only if its session is the newest; a stale one changes nothing |
| `DeviceRegistry.ReplacingSparesTheNewest` | apps/sidewire/src/server.rs:520-534 | closing a replaced session never closes the newest of a device |
| `DeviceRegistry.QuietTableIsExact` | apps/sidewire/src/server.rs:513-545 | with no clean-up pending the table holds exactly the open sessions, at most one for each device |
| `DeviceRegistry.ClosingIsExact` | apps/sidewire/src/server.rs:519-545 | over every run a session is closed if and only if it was, was closed by itself, or was the entry that a later registration replaced and settled |
| `DeviceRegistry.InternalStepsRunOut` | apps/sidewire/src/server.rs:519-545 | every clean-up step uses up work, so a quiet state is reached |
| `DeviceRegistry.Heartbeat` | apps/sidewire/src/server.rs:547-606 | closes at the first round that completes three misses in a row, and not if the connection is found closed before |
| `DeviceRegistry.DeviceMap.RegisterDevice` | apps/sidewire/src/server.rs:513-534 | the in-place update is the two registration steps of the model; only an open, different predecessor is to be closed |
| `DeviceRegistry.DeviceMap.RemoveDeviceIfSame` | apps/sidewire/src/server.rs:1270-1281 | the in-place update is the monitor step of the model, and tells whether the entry was this session |
| `Utf8.ClassifyFindsMaximalSubpart` | apps/sidewire/src/console_output.rs:89-121 | the automaton finds whole sequences, cut ones, and maximal ill-formed subparts as the Unicode Standard defines them |
| `Utf8.EncodeIsWellFormed` | apps/sidewire/src/console_output.rs:95-110 | every character encodes to a row of Table 3-7 that stands for it |
| `Utf8.ScalarIsEncoded` | apps/sidewire/src/console_output.rs:95-110 | every row of Table 3-7 is the encoding of the character it stands for |
| `Utf8.LossyOfEncoded` | apps/sidewire/src/console_output.rs:123-133 | lossy decoding returns encoded text unchanged |
| `Utf8.AsciiStandsForItself` | apps/sidewire/src/console_output.rs:95-108 | a byte below 0x80 stands for the character with that number |
| `Utf8.OrderIsKept` | apps/sidewire/src/console_output.rs:95-108 | well-formed sequences are in byte order exactly as the characters they stand for; with the bijection this leaves one decoder |
| `Utf8.LossySpells` | apps/sidewire/src/console_output.rs:95-133 | lossy decoding splits the bytes into well-formed sequences and maximal ill-formed parts, shows the characters of the former and U+FFFD once for each of the latter |
| `ConsoleDecoder.DrainConcat` | apps/sidewire/src/console_output.rs:89-121 | decoding what is decidable, keeping the tail and going on equals decoding everything at once |
| `ConsoleDecoder.LossyIsDrain` | apps/sidewire/src/console_output.rs:123-133 | whole-input lossy decoding is that, with one replacement for an unfinished tail |
| `ConsoleDecoder.FromUtf8Meaning` | apps/sidewire/src/console_output.rs:95-118 | the validation result names the longest valid prefix and what stops it |
| `ConsoleDecoder.Utf8ConsoleDecoder.Push` | apps/sidewire/src/console_output.rs:89-121 | shows exactly what all bytes so far decide and keeps at most three, a proper prefix of a well-formed sequence; if the console fails nothing is lost or repeated; the loop ends |
| `ConsoleDecoder.Utf8ConsoleDecoder.Finish` | apps/sidewire/src/console_output.rs:123-133 | afterwards the console shows the one-shot lossy decoding of everything pushed |
| `ConsoleDecoder.DecodeChunks` | apps/sidewire/src/console_output.rs:36-56 | pushing any chunks and finishing adds the lossy decoding of their concatenation to what the console shows |
| `ConsoleDecoder.CutsDoNotMatter` | apps/sidewire/src/console_output.rs:89-121 | shown text and kept tail depend on the bytes, not on where they were cut |
| `ConsoleDecoder.PendingIsProperPrefix` | apps/sidewire/src/console_output.rs:83-86 | for every list of chunks the tail that is kept is a proper prefix of a well-formed sequence, of at most three bytes |
| `RateLimit.PairingGuard.AllowIp` | apps/sidewired/src/security.rs:37-51 | the pruned queue gives the verdict of the full history and leaves other addresses alone |
| `RateLimit.AddressesAreIndependent` | apps/sidewired/src/security.rs:37-51 | what an address is allowed depends on its own attempts only |
| `RateLimit.NoWindowHoldsMore` | apps/sidewired/src/security.rs:37-51 | no closed 60 s interval holds more than 5 allowed attempts, in any history |
| `RateLimit.RateIsBounded` | apps/sidewired/src/security.rs:37-51 | the same for each address among all attempts at the listener |
| `RateLimit.RecentCountMeaning` | apps/sidewired/src/security.rs:37-51 | the count that decides is the number of places in the history at most 60 s old |
| `PairingCommit.RunKeepsInv` | apps/sidewired/src/security.rs:345-355 | over every run, with storing and removing failing at any point, the lock has one holder, generations never go back, and a pairing whose removal succeeded has used up its PIN |
| `PairingCommit.OnePairingPerPin` | apps/sidewired/src/security.rs:345-355 | two pairings on one generated PIN need one that left the file behind, by a failed removal or by storing that failed half-way, in every interleaving |
| `PairingCommit.PairingsAreBounded` | apps/sidewired/src/security.rs:345-355 | pairings never exceed generated PINs plus pairings that left the file behind |
| `PairingCommit.PairingsUseALivePin` | apps/sidewired/src/security.rs:255-291 | over every run each stored pairing passed its second look no later than the end of the PIN whose generation it carries, and that PIN has six digits |
| `PairingCommit.LooksAreExact` | apps/sidewired/src/security.rs:293-355 | both looks succeed if and only if the file is there, not expired and six digits, and the second only for the PIN that the first one saw |
| `PairingCommit.FileIsExact` | apps/sidewired/src/security.rs:255-291 | the PIN file is changed by its generation, its disappearance, a pairing's removal and a fifth failure's removal, and by nothing else |
| `PairingCommit.FailuresNeedALivePin` | apps/sidewired/src/security.rs:274-291 | a failure counts only against a live PIN, anew for another PIN, and the fifth resets the count |
| `PairingCommit.PairingSpendsThePin` | apps/sidewired/src/security.rs:293-363 | a pairing from an active PIN stores the host against that generation and takes the file away exactly if storing and removing work |
| `PairingCommit.UnspentPinPairsAgain` | apps/sidewired/src/security.rs:94-105 | wherever a PIN is active, either way of leaving the file behind lets the same PIN pair again, so both terms of the bound are needed |
| `PairingCommit.GuessesAreAccounted` | apps/sidewired/src/security.rs:274-291 | every failure recorded against a file still there is held against it or was forgotten, five at a time, at a failed removal |
| `PairingCommit.PinOutlivesFiveGuessesExactly` | apps/sidewired/src/security.rs:284-288 | a file still there has seen five failures if and only if a removal at a fifth failure has failed |
| `PairingCommit.FifthFailureDecides` | apps/sidewired/src/security.rs:274-291 | at the fifth failure the file goes if and only if it can be removed; if not, the failures are forgotten and it is all as before |
| `PairingCommit.PairingDaemon.RecordPairFailure` | apps/sidewired/src/security.rs:274-291 | the in-place counter follows the model's step, with a removal that may fail, and reports every fifth failure |
| `PairingCommit.PairingDaemon.StorePairedHost` | apps/sidewired/src/security.rs:82-105 | an error may come before the host is written or after |
| `PairingCommit.PairingDaemon.CommitSection` | apps/sidewired/src/security.rs:345-355 | whenever a host was written the file was there, its time not over and its PIN the six digits asked for, and the effect is that of a whole pairing with the fate that storing and removing had; otherwise nothing changed |
| `ClipboardHelper.StepKeepsTalking` | android/clipboard/ClipboardHelper.java:144-193 | whatever the helper does, request and answer stay in step |
| `ClipboardHelper.UndisturbedHelperAnswers` | android/clipboard/ClipboardHelper.java:144-193 | a request in the pipe is answered by exactly one message and the helper waits again |
| `ClipboardHelper.WriteAll` | apps/sidewired/src/clipboard.rs:50-52 | for every interleaving of partial writes and helper steps the pipe carries exactly what was sent |
| `ClipboardHelper.ReadExact` | apps/sidewired/src/clipboard.rs:54-63 | for every interleaving the bytes read are the next of this answer |
| `ClipboardHelper.AnswerComplete` | apps/sidewired/src/clipboard.rs:54-64 | after the announced length both pipes are empty and the bytes are the answer to this request |
| `ClipboardHelper.ExchangeIo` | apps/sidewired/src/clipboard.rs:35-65 | an answer leaves the helper idle and belongs to this request; too long, broken and oversized are told apart and mean what they say |
| `ClipboardHelper.ClipboardHelperManager.Request` | apps/sidewired/src/clipboard.rs:139-196 | a process is kept exactly after an answer with a known status, is then idle with empty pipes, and its newest exchange is this request with the returned payload |
| `MkdirBatches.GreedyIsASplit` | apps/sidewire/src/transfer.rs:114-139 | the batches concatenate to the input, and each has 1 to 64 paths and at most 32 KiB unless it is a single path |
| `MkdirBatches.BatchesAreWithinLimits` | apps/sidewire/src/transfer.rs:114-139 | the same in numbers, a batch weighing its bytes and a separator for each path |
| `MkdirBatches.GreedyIsOptimal` | apps/sidewire/src/transfer.rs:114-139 | no split into consecutive batches within the limits has fewer batches |
| `MkdirBatches.NextBatch` | apps/sidewire/src/transfer.rs:116-125 | the inner loop finds the longest batch allowed at the front |
| `MkdirBatches.EnsureRemoteDirs` | apps/sidewire/src/transfer.rs:108-141 | sends exactly those batches in order, stopping at the first that fails |
| `ShellQuoting.ShellQuote` | apps/sidewired/src/main.rs:934-946 | the pushing loop builds the quoting that `EscapedReadsBack` reads back |
| `ShellQuoting.EscapedReadsBack` | apps/sidewired/src/main.rs:934-946 | inside the quotes the shell adds exactly the value to the word, for arbitrary characters |
| `ShellQuoting.QuotingByParts` | apps/sidewired/src/main.rs:934-946 | text without quotes goes between single quotes unchanged, and each quote in it as a closing quote, an escaped one and an opening one |
| `ShellQuoting.BuildScript` | apps/sidewired/src/main.rs:964-970 | the loop builds the script of `ScriptRoundTrip` |
| `ShellQuoting.ScriptRoundTrip` | apps/sidewired/src/main.rs:964-970 | the shell's fields are exactly `exec`, the program and the arguments |
| `CandidateGrid.EveryCandidateHasOneCell` | apps/sidewire/src/pty.rs:77-83 | every candidate has exactly one cell, filled down the columns |
| `CandidateGrid.CellsInRow` | apps/sidewire/src/pty.rs:77-89 | in a row each cell starts one column width after the one before, and the last ends it |
| `CandidateGrid.CandidateStandsInItsCell` | apps/sidewire/src/pty.rs:70-94 | every candidate appears at its row and column offset, padded only if another follows |
| `CandidateGrid.RowsFitExactly` | apps/sidewire/src/pty.rs:70-94 | all rows fit the terminal if and only if the longest candidate does |
| `CandidateGrid.ColumnsAreMaximal` | apps/sidewire/src/pty.rs:70-76 | as many columns as fit at two blanks more than the longest candidate, one if none fits, and one more would not fit |
| `CandidateGrid.RowsAreLines` | apps/sidewire/src/pty.rs:77-94 | the rows are joined by line ends, in order |
| `CandidateGrid.DecimalReadsBack` | apps/sidewire/src/pty.rs:95-101 | the number of candidates not sent is its decimal notation without leading zeros |
| `CandidateGrid.FormatCompletionCandidates` | apps/sidewire/src/pty.rs:62-101 | the nested loops print those rows in order and, in full, the note on candidates not sent |

## Left out

- Noise, SPAKE2 and BLAKE3: a connection is an ideal ordered record channel in each direction; a pairing connection is
  the steps at which it touches the PIN file, the lock and the pair store.
- postcard payloads: opaque bytes, except that a window update decodes to a byte count or does not.
- Sockets, pipes, processes, files, consoles and the clock: nondeterministic short writes, reads, failures and exits;
  only the rate limiter sees times, which never go back.
- Time limits: events that may happen at any point.
- Peers without flow control or stream cancellation: modelled as far as rejecting window updates that were not
  negotiated.
- Stream id reuse after 2^32 draws: fewer opens for each connection are assumed, as the counter wraps then.
- StreamRouting.OpenedIdsAreNew: does not cover runs with 2^32 draws or more, as ids repeat there.
- DaemonTables.RequestsNeverCollide: speaks of hosts that keep to their side (a request or ping uses an id that was
  neither requested nor canceled, frames that are no requests follow only pushes and terminals, cancel frames come for
  any id); the host side proves that its ids are new.
- DaemonSteps.StepKeepsInv: registering a request in up to three tables is one step, as no other task touches an id the
  host has not used before; for a host that uses one again the order within the step is kept, not its interleavings.
- Daemons.Daemon.HandleFrame: the frames that replies and handlers send are not modelled.
- FileTransfer.EveryTransferCompletes: messages in transit are unbounded and nothing fails; `PushEnds` and `PullEnds`
  have the bounded queues, cancellation, errors and disconnection.
- PushEnds.ReceivedIsAPrefix: what a failing write has written of its chunk is not counted; the daemon's file helper
  processes are errors that may come at any chunk.
- PullEnds.HostSuccessMeansDelivered: the size announced for a pull is left out; a mismatch is an error after the end.
- FlowCredits.FlowCredit.Add: the check for overflow of the machine word is subsumed by the 16 MiB limit.
- MkdirBatches.NextBatch: additions do not saturate, as no path is near the size of the address space.
- PairingCommit.PairingDaemon.RecordPairFailure: reading the PIN and counting are one step, although the program takes
  its lock in between.
- ClipboardHelper.ClipboardHelperManager.Request: payloads are below 4 GiB; the text conversion around it is left out.
- ClipboardHelper.StepKeepsTalking: a helper that is sent an oversized request exits at once; the manager sends none.
- CandidateGrid.FormatCompletionCandidates: a character is one column wide, as the program counts them.
- DeviceRegistry.EntryIsLatestOrClosed: each connection is registered once, as the program does.
- Version negotiation, capability bits, discovery, CLI, configuration, web interface, build scripts: no deep property.
- Terminal input, recursive transfer scheduling and the proxy tunnel: not part of this model.
