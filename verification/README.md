# A verified model of chmux

chmux multiplexes many ports over one connection between two endpoints. This project models
its protocol and the algorithms around it in Dafny and proves what they keep in every run.
`dafny verify dfyconfig.toml` checks everything.

| files | subject |
|---|---|
| `PortMux`, `PortChannel`, `PortSystem` | the port table and its handlers, one channel cut out of it, two endpoints with queues, wires and applications |
| `PortInvariant`, `PortSafety`, `PortSteps`, `PortDelivery`, `PortOpening` | the system invariant and the proof that each step keeps it |
| `PortTheorems`, `PortContents`, `PortExamples`, `PortReports` | what follows for every run; what the two ends say to each other; concrete runs; report requests that outlive their sender |
| `Credits`, `CreditLaws`, `FlowControl` | credit counters of both sides; when they pay, return and switch; all ports and the shared pool together |
| `Sizer`, `Throttle`, `ThrottleWay` | the receive buffer sizer in a loop with the pool; the throttle per method and per atomic access; its requests on their way to the peer |
| `Frames`, `DataSender`, `SenderCredits`, `DataReceiver`, `Delivery`, `DeliveryTheorems`, `Connect` | messages in pieces, from send operations to received messages; what they cost; sending ports |
| `LittleEndian`, `Varint`, `Framing`, `Messages` | integers, length-prefixed frames and messages as bytes |
| `Allocator`, `AllocatorHandles` | port numbers with reservations and quarantine; the same seen by the holders of ports |
| `Requests`, `RequestSystem` | one connection request and its answer; all requests of a client, their credits and entries |

Code that changes state is modelled by classes and loops proved against functions on values;
the theorems are about those functions. A run is a sequence of steps in which an impossible
step changes nothing, so a statement about all runs covers all interleavings. Waits, schedules
of reads and writes, reports of the peer and cancellations are parameters.

## What the code does not promise

Where the code falls short of its documentation or of the obvious law, the code is kept, a
concrete run shows the case and the exact condition is proved.

- The documentation of `try_request` says that credits are obtained if the minimum is
  available, shared credits first. The code asks the port store first, and each store for the
  whole minimum: `MixedGrantServed`, `TotalIsNotEnough`.
- Shared credits used by a port whose receiver was dropped go back to the pool but stay in the
  port's own counter: `FailsExactlyOnOverflow`, `OverflowAfterDrop`. The sender may go on until
  the shutdown message is handled, and below the throttle nothing inhibits it.
- With one to three credits left `do_connect` sends empty groups for ever: `ConnectEndsIff`,
  `LeftoverSpins`.
- A cancelled send that already exceeded the receiver's limit is seen by a client of chunks,
  although `send` promises that the remote endpoint receives no data. The message after it
  arrives in chunks however small it is, and port requests after it are lost:
  `WholeExactlyIf`, `PortsExactlyIf`, `SmallAfterCut`.
- Between reading the use and acting on it the throttle can inhibit a port that is idle again
  (`IdleButInhibited`), until the next release (`NextReleaseRepairs`). It happens exactly by
  decisions on a use consumed in the meantime: `StaleExactly`, `ActiveExactlyIf`.
- The throttle's requests to stop and to resume can overtake each other on their way, and the
  peer goes by the one that arrives last: `OwnRequestOvertaken`, `NothingCorrects`,
  `StopOvertakesResume`. When it agrees is `AlwaysSettlesExactlyIf` and `PeerAgreesExactly`.
- Ports sent over a port hold no connection credit but count as outstanding, so a request with
  a credit can be refused: `RefusedDespiteCredit`.
- A pre-connected entry can be freed, with its credit and number, before the request is
  answered. Requests bought with that credit are refused, and the late answer is a protocol
  error: `RefusedAfterEarlyClosing`, `UnknownAfterEarlyClosing`. A rejection through an accept
  guard does the same once the port has been closed: `UnknownAfterLateRejection`,
  `LateRejectionMisleads`. When a request is refused or an answer fails is `RefusedExactly`,
  `StrayExactly`, `LearnFailsExactly` and `GuardLateExactly`; what it takes is
  `FailureNeedsCause`, `WithoutEarlyClosing` and `NeverEarlyWithoutPre`.
- `all_received` is not tied to the life of its sender: `LateReportExactly`,
  `LateReportPanics`, `LateReportRefused`.
- A buffer sizer with a minimum of zero trips the assertion on the return threshold:
  `ZeroMinimumFails`.
- A port list cut inside a port number reads as a shorter list: `PortDataBack`.

## Model

| member | source | states |
|---|---|---|
| `PortMux.ChMux.Handle` | remoc/src/chmux/mux.rs:964-1206 | the handler of local events, in place: panics exactly where the source does, otherwise sends one message and leaves the table that `HandleEvent` describes |
| `PortMux.ChMux.Receive` | remoc/src/chmux/mux.rs:1210-1667 | the handler of received messages, in place: a protocol error exactly where the source reports one, otherwise the table that `HandleReceived` describes; credit messages for unknown ports are ignored |
| `PortMux.ChMux.MaybeFreePort` | remoc/src/chmux/mux.rs:647-678 | the entry goes together with its allocated number exactly if the local sender and receiver are dropped, the peer's SendFinish and its ReceiveFinish have arrived |
| `PortMux.ChMux.CreatePort` | remoc/src/chmux/mux.rs:568-643 | inserts a fresh connected entry, refusing a key that already holds one |
| `PortChannel.EventStep` | remoc/src/chmux/mux.rs:1133-1175 | the first queued event of an established side never meets a panic, and the entry moves exactly as the message it sends will move the peer's record |
| `PortChannel.MsgStep` | remoc/src/chmux/mux.rs:1519-1605 | if the messages under way, replayed on what the entry has recorded, lead to the sender's state, the first of them is accepted and the rest still replay |
| `PortChannel.BothLeft` | remoc/src/chmux/mux.rs:647-678 | once the requester has released a channel and only ignorable notices are under way to the peer, the peer has released it too |
| `PortChannel.OverMeansNotes` | remoc/src/chmux/mux.rs:1493-1516 | towards an entry that has recorded the end of both directions only credit and report notices can still be under way |
| `PortOpening.StepKeeps` | remoc/src/chmux/mux.rs:964-1667 | every one of the seventeen kinds of step of two endpoints, their applications and both wires keeps the system invariant |
| `PortOpening.RunInv` | remoc/src/chmux/mux.rs:799-958 | the invariant holds after every run, whatever the interleaving of events, two send queues, wires and applications |
| `PortTheorems.NeverFails` | remoc/src/chmux/mux.rs:1133-1175 | no run reaches a panic of a handler or a protocol error |
| `PortTheorems.HandlersSucceed` | remoc/src/chmux/mux.rs:1337-1605 | in every reachable state the next event of either queue and the next message on the wire can be handled |
| `PortTheorems.MessagesFindTheirPort` | remoc/src/chmux/mux.rs:647-678 | a data or shutdown message under way is addressed to an entry of its own channel; once a port is released only ignorable messages are under way to it |
| `PortTheorems.ReuseNeverAliases` | remoc/src/chmux/mux.rs:1232-1276 | when an OpenPort for n is next on the wire, n is neither outstanding nor a key nor allocated as a remote number at its receiver |
| `PortTheorems.RemoteFree` | remoc/src/chmux/port_allocator.rs:597-603 | if every older channel of a number has left an endpoint, its remote number is free there |
| `PortTheorems.AcceptanceNeverFails` | remoc/src/chmux/port_allocator.rs:136-148 | accepting a waiting request under the requester's number never finds the number taken |
| `PortTheorems.AddressesAgree` | remoc/src/chmux/mux.rs:1279-1297 | for both ends of a connected channel, the remote port of one, flipped, is the key of the other |
| `PortTheorems.OneEntryPerChannel` | remoc/src/chmux/mux.rs:568-643 | no endpoint holds two entries for one channel |
| `PortContents.EventBecomes` | remoc/src/chmux/mux.rs:1102-1175 | a handled event becomes a message that says what the event meant, with its payload, credit count, permission or reason, on the same channel |
| `PortContents.SaidInOrder` | remoc/src/chmux/mux.rs:799-958 | in every run, for both endpoints, every channel and each of the two ways: what the peer has been given, followed by what is under way, is what the steps of the application, its receiver and its handles have queued; nothing is lost, repeated, reordered or changed |
| `PortContents.AllGiven` | remoc/src/chmux/mux.rs:799-958 | once nothing is under way the peer has been given exactly what was queued, in order |
| `PortContents.NoticesAddressed` | remoc/src/chmux/mux.rs:1114-1130 | in every run a credit, permission or report notice on the wire names its channel's key at the peer |
| `PortExamples.ChannelOpens` | remoc/src/chmux/mux.rs:974-1016 | a concrete run at whose end both endpoints hold a connected entry for the channel |
| `PortExamples.ChannelCloses` | remoc/src/chmux/mux.rs:1133-1175 | a concrete run in which a channel opens and closes and both endpoints end with no entry, no outstanding request and no used number |
| `PortReports.LateReportExactly` | remoc/src/chmux/mux.rs:1102-1110 | after any run, a report asked for when the drop of its sender is already queued fails nothing while it waits, whatever happens meanwhile; when its turn comes the connection ends exactly if no port is connected under its number, and otherwise the request goes to the peer of the port connected there |
| `PortReports.LateReportPanics` | remoc/src/chmux/sender.rs:632-649 | a run in which the future is first polled after the channel has closed at both ends, and ends the connection |
| `PortReports.LateReportRefused` | remoc/src/chmux/mux.rs:1470-1480 | a run in which it is polled after its sender is gone while the port is still connected: the request follows the end of the data and the peer reports a protocol error |
| `Types.FlippedTwice` | remoc/src/chmux/port_allocator.rs:666-677 | flipping a port side is its own inverse and identifies no two ports |
| `Credits.Drain` | remoc/src/chmux/credit.rs:122-150 | a payment takes exactly the requested number of credits from the oldest assignments, and what is left plus what was paid is what was there, for each pool |
| `Credits.MixedAssignedCredits.Take` | remoc/src/chmux/credit.rs:122-150 | the draining loop never runs out, leaves no empty assignment and labels the payment by the pools it used |
| `Credits.ChargeMatchesPayment` | remoc/src/chmux/mux.rs:1361-1375 | the receiver charges to each pool exactly what the sender took from it, reconstructed from the label and the data length alone |
| `Credits.SendableCreditStore.TryTake` | remoc/src/chmux/credit.rs:206-218 | takes the smaller of what is requested and what is there, but nothing below the minimum |
| `Credits.SendableCreditStore.Provide` | remoc/src/chmux/credit.rs:236-248 | succeeds exactly if the sum fits 32 bits, and then adds |
| `Credits.SendableCreditStore.GiveBack` | remoc/src/chmux/credit.rs:82-91 | a dropped assignment returns its rest to the store |
| `Credits.MixedCreditUser.TryRequest` | remoc/src/chmux/credit.rs:834-863 | errors exactly for a port closed by the peer (gracefully closed unless overridden) and for an ended multiplexer, found at the port or when shared credits are tried; otherwise credits exactly if one store alone holds the minimum, with both stores reduced by what the assignments hold; on any other outcome both stores are as before |
| `Credits.MixedGrantServed` | remoc/src/chmux/credit.rs:834-863 | a request is served exactly if one of the two stores alone holds the minimum; the port store gives first, the shared one fills up to the whole request |
| `Credits.TotalIsNotEnough` | remoc/src/chmux/credit.rs:830-834 | five credits in each store do not serve a request for ten, although ten are available |
| `Credits.PortCreditMonitor.Use` | remoc/src/chmux/credit.rs:446-479 | a protocol error exactly beyond the port limit or 32 bits; otherwise counts the data and starts inhibiting at the throttle |
| `Credits.PortCreditMonitor.Release` | remoc/src/chmux/credit.rs:536-571 | releases consumed data, returns credits once the threshold is reached and allows shared credits again below the release level |
| `Credits.PortCreditMonitor.SetGlobalAllowed` | remoc/src/chmux/credit.rs:582-612 | the application's switch, with the request to the peer that follows from it |
| `Credits.PortCreditMonitor.MarkInhibited` | remoc/src/chmux/credit.rs:484-499 | a pending request to stop becomes effective once |
| `CreditLaws.OldestPayFirst` | remoc/src/chmux/credit.rs:122-150 | a payment uses up the oldest assignments whole, takes part of the next at most and leaves the rest untouched |
| `CreditLaws.PortReturns` | remoc/src/chmux/credit.rs:536-555 | consumed data gives its credits back once a quarter of the limit has come together, then all of it; less than a quarter stays behind |
| `CreditLaws.SwitchesExactly` | remoc/src/chmux/credit.rs:468-612 | in every run of calls: inhibiting starts exactly with data that brings the use of an active port to the throttle, a port becomes active again exactly below three quarters of it, and requests are made exactly when it becomes inhibited or stops being it |
| `CreditLaws.AllowedAsAsked` | remoc/src/chmux/credit.rs:582-612 | in every run the port is allowed exactly what the application last asked for |
| `CreditLaws.UsedAsCounted` | remoc/src/chmux/credit.rs:446-479 | in every run the credits in use are those accepted and not yet released, counted from the outcomes, the port's never exceed its limit, and data is refused exactly if it would exceed the limit or 32 bits |
| `CreditLaws.PoolReturns` | remoc/src/chmux/credit.rs:743-811 | a query grows the pool at once and shrinks it by what is at hand; all credits at hand go back exactly if the pool changed, the target asks for it or the threshold is reached, fewer than the threshold stay behind, and the peer is told exactly of changes and returns |
| `CreditLaws.PoolUses` | remoc/src/chmux/credit.rs:708-735 | data is charged to the pool exactly if the pool has the credits, and frees them when it is dropped |
| `Credits.GlobalCreditMonitor.Use` | remoc/src/chmux/credit.rs:708-717 | a protocol error exactly if more shared credits are used than exist |
| `Credits.GlobalCreditMonitor.GiveBack` | remoc/src/chmux/credit.rs:720-735 | dropped data moves its shared credits to those to be returned; None is the overflow panic |
| `Credits.GlobalCreditMonitor.ReturnCredits` | remoc/src/chmux/credit.rs:743-811 | resizes towards the target, asserts the threshold and decides what is sent to the peer |
| `FlowControl.StepKeeps` | remoc/src/chmux/credit.rs:446-811 | each of eighteen kinds of step, over any number of ports, keeps both conservation laws and fails only by the one overflow described |
| `FlowControl.Conservation` | remoc/src/chmux/credit.rs:708-811 | in every run, for every port, store, assigned, abandoned, used, unreturned and under way add up to the limit; the same sum for shared credits is the total in force, under any growth and shrinking |
| `FlowControl.ArrivalFits` | remoc/src/chmux/mux.rs:1361-1375 | whatever arrives fits what the pool and the port have left, except for the counter of a port whose receiver is gone |
| `FlowControl.ConsumeAllowed` | remoc/src/chmux/credit.rs:536-555 | consumed data was counted on arrival, so no counter underflows and no return overflows |
| `FlowControl.FailsExactlyOnOverflow` | remoc/src/chmux/credit.rs:468-471 | of all checks on both sides exactly one can be missed: shared credits used by a port whose receiver was dropped are never subtracted from the port's counter, so it can exceed 32 bits |
| `FlowControl.NeverFailsWithReceivers` | remoc/src/chmux/credit.rs:446-479 | as long as no receiver is dropped no check fails in any run |
| `FlowControl.OverflowAfterDrop` | remoc/src/chmux/credit.rs:468-471 | a concrete run of ten steps that reaches this overflow although the sender obeys every notice: none is under way, as the port stays below its throttle and the drop of the receiver has not been handled yet |
| `FlowControl.NeverStarves` | remoc/src/chmux/credit.rs:536-555 | with everything consumed and returned and nothing abandoned the sender holds at least four credits, for every limit of at least four |
| `Sizer.MinimumFollows` | remoc/src/chmux/sizer.rs:24-27 | between two reports the minimum reported is the current number of credits |
| `Sizer.ThresholdReachable` | remoc/src/chmux/sizer.rs:64-66 | the default threshold lies between one and the size exactly if the size is at least one |
| `Sizer.DynamicBuffer.SetTo` | remoc/src/chmux/sizer.rs:202-219 | clamps the size and derives threshold and levels from it, for every level quotient |
| `Sizer.DynamicBuffer.Initial` | remoc/src/chmux/sizer.rs:226-229 | starts with the minimum size |
| `Sizer.DynamicBuffer.Size` | remoc/src/chmux/sizer.rs:231-247 | the buffer becomes what `Adjust` says; what that is in every run is `ReportSteers` |
| `Sizer.AdjustBounded` | remoc/src/chmux/sizer.rs:202-247 | a target stays within the limits, grows at most fourfold, falls by at most 64 KiB and moves only after the last one was reached |
| `Sizer.ReportSteers` | remoc/src/chmux/sizer.rs:231-247 | in every run: a report that is not current, or comes before the last target was reached, changes nothing; below the low level the target becomes four times the size, up to the maximum; above the high level it falls by half the excess, at most 64 KiB and not below the minimum; in between it stays |
| `Sizer.LoopLevelled` | remoc/src/chmux/sizer.rs:202-219 | in every run the low level is the stated fraction of the target within 1 KiB and 1 MiB, the high level four times that, and the threshold a tenth of the target within 1 and 1 MiB |
| `Sizer.StartsAtMinimum` | remoc/src/chmux/sizer.rs:226-229 | target, pool and peer start with the minimum |
| `Sizer.LoopSteered` | remoc/src/chmux/credit.rs:743-811 | sizer and pool together, whatever the peer reports: minimum, target, size in force and maximum stay ordered, the assertion never fails, no credit is lost |
| `Sizer.ShrinksOnlyTowardsTarget` | remoc/src/chmux/credit.rs:758-796 | growth takes effect at once; after a shrink the size only falls, never below the target, and the target stays put until it is reached |
| `Sizer.ShrinkCompletes` | remoc/src/chmux/credit.rs:768-785 | once enough credits are at hand one query completes the shrink |
| `Sizer.ZeroMinimumFails` | remoc/src/chmux/credit.rs:795-795 | with a minimum of zero the first query trips the assertion |
| `Throttle.RunThrottled` | remoc/src/chmux/credit.rs:468-612 | over every sequence of calls, requests to stop and resume alternate in the order in which they are made, the last one made agrees with the state, a disallowed port is inhibited and an allowed port below the release level is active; what the peer goes by is `ThrottleWay` |
| `ThrottleRace.AloneIsMethod` | remoc/src/chmux/credit.rs:446-612 | the accesses of one call, run without interruption, do what the method does |
| `ThrottleRace.EveryInterleaving` | remoc/src/chmux/credit.rs:468-612 | with every atomic access its own step, requests alternate in the order of the transitions, the last one agrees with the state and disallowed ports stay inhibited, in every interleaving |
| `ThrottleRace.StaleExactly` | remoc/src/chmux/credit.rs:468-476 | one access takes away that an allowed port below the release level is active (or its owner about to see to it) exactly if it is a decision to inhibit on a use that has been consumed since it was read, with nobody left to look again |
| `ThrottleRace.ActiveExactlyIf` | remoc/src/chmux/credit.rs:468-612 | over every interleaving this property holds throughout exactly if no decision was stale when it was made, and every stale decision, after any interleaving, breaks it |
| `ThrottleRace.ActiveWhenIdle` | remoc/src/chmux/credit.rs:468-612 | if no decision of an interleaving was stale, then whenever the owner of the receiver is between two calls an allowed port below the release level is active |
| `ThrottleRace.IdleButInhibited` | remoc/src/chmux/credit.rs:468-476 | a run with a stale decision, for every throttle and limit: data consumed before its arrival was judged leaves an idle, allowed port inhibited; when this happens is `ActiveExactlyIf` |
| `ThrottleRace.NextReleaseRepairs` | remoc/src/chmux/credit.rs:557-571 | the next consumed item that leaves the use below the release level makes the port active again |
| `ThrottleWay.AlwaysSettlesExactlyIf` | remoc/src/chmux/credit.rs:526-534 | over every interleaving of both sides' accesses with the way of the requests through task, channel, send queue and wire: throughout the run the requests under way would leave the peer in agreement with the port's state exactly if none ever overtakes an opposite one |
| `ThrottleWay.PeerAgreesExactly` | remoc/src/chmux/mux.rs:847-881 | in every run with nothing left under way each request made has arrived once, and the peer's flag agrees with the state exactly if requests have overtaken opposite ones an even number of times since one last went to the end of the line, that is, if an even number was made after the one that arrived last |
| `ThrottleWay.StepSettles` | remoc/src/chmux/mux.rs:847-881 | a single step turns the agreement around exactly if the multiplexer sends a stop while a request is behind it, or the owner finds room in the channel while an opposite request is parked; a request that goes to the end of the line restores it |
| `ThrottleWay.OwnRequestOvertaken` | remoc/src/chmux/credit.rs:582-612 | a run in which the application turns shared credits off, on while the channel is full, and off again: all three requests have arrived, and the peer uses shared credits of a port that disallows them |
| `ThrottleWay.NothingCorrects` | remoc/src/chmux/credit.rs:557-571 | no step corrects this before the application turns shared credits on again |
| `ThrottleWay.StopOvertakesResume` | remoc/src/chmux/mux.rs:847-858 | a run in which the multiplexer's stop overtakes a resume in its own channel: the port is at its throttle and inhibited, and the peer uses shared credits |
| `DataSender.Sender.Send` | remoc/src/chmux/sender.rs:381-419 | for every sequence of waits, the frames queued are the pieces of a prefix of the data, of all of it exactly if the call completes; what they cost is `OpPays` |
| `DataSender.Sender.TrySend` | remoc/src/chmux/sender.rs:449-492 | without waiting: nothing without credits, otherwise as many pieces as the queue takes |
| `DataSender.ChunkSender.SendPart` | remoc/src/chmux/sender.rs:745-785 | one part of a streamed message, with credits carried over from the part before |
| `DataSender.EmitOp` | remoc/src/chmux/sender.rs:376-492 | the pieces of any operation concatenate to a prefix of its content, to all of it exactly when it completes, and then there is at least one |
| `SenderCredits.OpPays` | remoc/src/chmux/credit.rs:206-218 | for every operation, chunk size and waits: the charges of all frames, the credits left over and those of a piece given up add up to the credits obtained, which are what arrived, wait by wait, up to what the part still lacked; a completed operation has paid exactly what its parts cost |
| `SenderCredits.GivenAtMost` | remoc/src/chmux/credit.rs:206-218 | no wait gives more than has arrived and no part gets more than it needs |
| `SenderCredits.OpFew` | remoc/src/chmux/sender.rs:393-417 | pieces are as large as they can be: no more frames than the full chunks paid for and one for each wait that has ended |
| `SenderCredits.CompletesExactlyIf` | remoc/src/chmux/sender.rs:381-419 | an operation that nobody gives up, with room in the queue, completes exactly if the waits give what its parts cost |
| `SenderCredits.TryExactly` | remoc/src/chmux/sender.rs:449-492 | without waiting, data is sent exactly if the credits are there and the queue has room for all its chunks; otherwise as many full chunks leave as there is room for |
| `DeliveryTheorems.Perform` | remoc/src/chmux/sender.rs:425-427 | every operation, performed through the sender's methods, queues the frames of `EmitOp` |
| `DeliveryTheorems.PerformAll` | remoc/src/chmux/sender.rs:376-492 | a list of operations puts exactly the frames of its messages on the wire |
| `DataReceiver.TryPush` | remoc/src/chmux/receiver.rs:226-236 | a piece is taken exactly if the whole stays within the limit, and then it is appended |
| `DataReceiver.Advance` | remoc/src/chmux/receiver.rs:256-274 | dropping bytes from the front across pieces leaves the content from that byte on |
| `DataReceiver.Join` | remoc/src/chmux/receiver.rs:277-285 | the pieces joined in a loop are the content |
| `DataReceiver.Receiver.ReceiveAny` | remoc/src/chmux/receiver.rs:654-749 | the receive loop on the object is `RecvAny`; a wait keeps what has been put together so far |
| `DataReceiver.Receiver.ReceiveChunk` | remoc/src/chmux/receiver.rs:539-631 | the chunk loop on the object is `RecvChunk` |
| `DataReceiver.Receiver.DiscardChunks` | remoc/src/chmux/receiver.rs:639-643 | forgets an announced chunked reception and nothing else |
| `DataReceiver.DiscardsOnlyAnnounced` | remoc/src/chmux/receiver.rs:632-643 | discarding forgets the message that is being received in chunks and never the one whose start has cut it off |
| `DataReceiver.Receiver.Receive` | remoc/src/chmux/receiver.rs:512-526 | whole messages only, passing over port requests and dropping what is too large |
| `Delivery.OneDelivered` | remoc/src/chmux/receiver.rs:539-749 | each single message, complete or cut, has the stated outcome and leaves the client as stated, whatever follows |
| `Delivery.Delivered` | remoc/src/chmux/receiver.rs:539-749 | for every list of data and port messages the outcome of the draining client is the independently defined `Expect` |
| `DeliveryTheorems.EndToEnd` | remoc/src/chmux/sender.rs:381-492 | the same for everything that sequences of operations under any waits can put on the wire |
| `DeliveryTheorems.CompletedArrive` | remoc/src/chmux/receiver.rs:654-749 | when no message exceeds the limit, exactly the completed ones arrive, in order and unchanged |
| `DeliveryTheorems.WholeExactlyIf` | remoc/src/chmux/receiver.rs:575-594 | a complete message arrives whole exactly if it fits and no cut long message precedes it; otherwise it arrives in chunks that concatenate to it |
| `DeliveryTheorems.PortsExactlyIf` | remoc/src/chmux/receiver.rs:601-607 | complete port requests arrive exactly if within the limit and no cut long message precedes them |
| `DeliveryTheorems.SmallAfterCut` | remoc/src/chmux/receiver.rs:575-585 | one byte sent after a cut message of two bytes is announced as chunks under a limit of one |
| `DeliveryTheorems.HeardDelivered` | remoc/src/chmux/receiver.rs:512-526 | the client of whole messages hears every completed message that fits, whatever was cut in between |
| `DeliveryTheorems.ArrivalsDoNotMatter` | remoc/src/chmux/receiver.rs:654-749 | the outcome is the same for every schedule of arrivals, with the client resuming after each wait |
| `DeliveryTheorems.ReportsInvisible` | remoc/src/chmux/receiver.rs:733-735 | requests to report progress change nothing wherever they appear |
| `DeliveryTheorems.DeliveredWithReports` | remoc/src/chmux/receiver.rs:610-612 | the delivery theorem with such requests mixed in anywhere |
| `Connect.DoConnect` | remoc/src/chmux/sender.rs:566-596 | the loop, given up after any number of turns, queues the groups of `Turns` and has finished exactly if no port is left |
| `Connect.Turns` | remoc/src/chmux/sender.rs:570-596 | after any number of turns the groups sent and the ports left are the ports to send, in order |
| `Connect.TurnSends` | remoc/src/chmux/sender.rs:578-586 | a turn sends as many ports as the chunk and the credits at hand allow, and waits for credits only when none are left |
| `Connect.PaidByWaits` | remoc/src/chmux/sender.rs:570-586 | after any number of turns four credits have been paid for each port sent, out of those the waits brought; none is lost unless a wait brought more than the rest of the ports cost |
| `Connect.ConnectEndsIff` | remoc/src/chmux/sender.rs:570-596 | all ports are sent exactly if every wait ended with a multiple of four credits or with enough for the rest; then one turn per port suffices |
| `Connect.LeftoverSpins` | remoc/src/chmux/sender.rs:581-593 | with one to three credits left every further turn sends an empty group and nothing else happens |
| `Connect.SixCreditsSpin` | remoc/src/chmux/sender.rs:570-596 | two ports and a store of six credits: the second port is never sent |
| `Connect.ConnectDelivers` | remoc/src/chmux/sender.rs:570-596 | a loop that ends has sent a complete message that the receiver hands out as all ports in order, or refuses for their number |
| `Varint.VarintU32` | remoc/src/varint.rs:109-122 | the encoder uses one to five bytes of the buffer, and they are `Encode(n)` |
| `Varint.VarintDecoder.Decode` | remoc/src/varint.rs:69-88 | one byte: more, a value with the decoder idle again, or invalid, with the bits above 32 cut off |
| `Varint.DecodesExactly` | remoc/src/varint.rs:69-88 | the decoder accepts exactly the terminated strings of at most five bytes whose fifth byte is at most 15, and yields their base-128 meaning |
| `Varint.EncodesMinimally` | remoc/src/varint.rs:109-122 | every 32-bit value is encoded to an accepted string with its meaning, and none that is shorter means the same |
| `Varint.PrefixFree` | remoc/src/varint.rs:109-122 | no encoding begins another |
| `Varint.StreamRoundTrip` | remoc/src/varint.rs:69-88 | any concatenation of encodings decodes to the same list and leaves the decoder idle |
| `Varint.PaddedZero` | remoc/src/varint.rs:69-88 | padded forms are accepted as well |
| `Framing.HeaderRoundTrip` | remoc/src/connect/io_transport.rs:40-80 | in both modes a header reads back as the length, whatever follows |
| `Framing.FrameSink.StartSend` | remoc/src/connect/io_transport.rs:174-187 | everything accepted equals what is written, queued and buffered, in this order; the pending count grows by the encoded frame; a long frame is queued as it is, exactly with vectored writes, and all others only reach the buffer |
| `Framing.FrameSink.PollWritePending` | remoc/src/connect/io_transport.rs:128-160 | for every sequence of partial writes nothing is lost or reordered; ready means all is written, and it is pending only if the writer was not ready and failed only if the writer failed or took nothing, after all its earlier answers were used |
| `Framing.FrameSink.PollReady` | remoc/src/connect/io_transport.rs:166-172 | below the limit it is ready without a write; otherwise all is written, or the writer was not ready or failed |
| `Framing.FrameSink.Drop` | remoc/src/connect/io_transport.rs:146-156 | written bytes leave the front of the queue, across buffers |
| `Framing.FrameStream.DecodeHeader` | remoc/src/connect/io_transport.rs:40-63 | a complete header is removed, an incomplete one leaves the decoder in between and nothing is lost |
| `Framing.FrameStream.PollNext` | remoc/src/connect/io_transport.rs:230-270 | returns the item determined by all bytes to come, or has lost nothing and is not ready, for every schedule of reads; the latter only if what was read settles no item and the stream had nothing to read |
| `Framing.FramesRoundTrip` | remoc/src/connect/io_transport.rs:230-270 | what was sent is read, followed by a clean end |
| `Framing.TooLongRefused` | remoc/src/connect/io_transport.rs:58-60 | a length beyond the limit is refused and nothing after it is read |
| `Framing.CutStream` | remoc/src/connect/io_transport.rs:258-268 | cut anywhere, the stream yields the whole frames before the cut, then a clean end or a truncation |
| `Framing.CleanExactlyBetweenFrames` | remoc/src/connect/io_transport.rs:258-268 | the end is clean exactly if the bytes are whole frames |
| `Framing.WrittenIsRead` | remoc/src/connect/io_transport.rs:128-270 | whatever part of the output has been written, the reader gets the first of the accepted frames, and all of them once all is written |
| `Messages.RoundTrip` | remoc/src/chmux/msg.rs:236-627 | in both integer modes every message reads back as itself, a Hello with the configuration as the peer is meant to see it; appended bytes are ignored |
| `Messages.PortDataBack` | remoc/src/chmux/msg.rs:306-350 | a port list with any mix of ids and pre-connect flags reads back unchanged; input that ends inside a further port number reads as the shorter list |
| `Messages.WritePorts` | remoc/src/chmux/msg.rs:337-349 | the writing loop appends one item per port |
| `Messages.ReadPorts` | remoc/src/chmux/msg.rs:512-526 | the reading loop takes items up to the end of input |
| `Messages.WithoutFlag` | remoc/src/chmux/msg.rs:466-478 | without the optional last byte the default port side is read |
| `Messages.CfgBack` | remoc/src/chmux/msg.rs:706-806 | the exchanged configuration reads back with the timeout in milliseconds as it was set, none for zero, and without disabled global credits |
| `Messages.KnownIntegers` | remoc/src/chmux/msg.rs:706-720 | integers stand on the wire with the lowest byte, or the lowest seven bits, first |
| `Messages.OlderCfg` | remoc/src/chmux/msg.rs:767-806 | from a peer that stops after any of the optional fields the others keep their defaults |
| `Messages.OldestCfg` | remoc/src/chmux/msg.rs:733-767 | the oldest form has no global credits, and port ids exactly in version 3 |
| `Messages.SmallSizesRefused` | remoc/src/chmux/msg.rs:739-750 | a configuration is refused exactly if a size is below its minimum |
| `Messages.AddressedCorrectly` | remoc/src/chmux/mux.rs:979-1015 | in the port-side, legacy and pre-connected modes, a message written by either end, read and flipped by the other, names that end's key |
| `Allocator.SearchNearest` | remoc/src/chmux/port_allocator.rs:102-111 | the search finds the nearest number after the cursor that is not blocked |
| `Allocator.BlockedFew` | remoc/src/chmux/port_allocator.rs:81-83 | used, pre-allocated and quarantined numbers together are fewer than all 32-bit numbers, so the search ends |
| `Allocator.PortAllocatorInner.Advance` | remoc/src/chmux/port_allocator.rs:102-111 | the wrapping loop terminates and returns the nearest free number |
| `Allocator.PortAllocatorInner.TryAllocateLocal` | remoc/src/chmux/port_allocator.rs:97-115 | fails exactly without available ports; otherwise a number that was not blocked is used |
| `Allocator.PortAllocatorInner.TryPreAllocateLocal` | remoc/src/chmux/port_allocator.rs:117-134 | fails exactly at the pre-allocation limit; otherwise a number that was not blocked is set aside |
| `Allocator.PortAllocatorInner.TryAllocatePreAllocated` | remoc/src/chmux/port_allocator.rs:85-95 | the number set aside becomes used; the assertion on its removal holds |
| `Allocator.PortAllocatorInner.TryAllocateRemote` | remoc/src/chmux/port_allocator.rs:136-148 | none available, already allocated, or allocated |
| `Allocator.PortAllocatorInner.TryReserve` | remoc/src/chmux/port_allocator.rs:150-157 | reserves exactly if a port is available |
| `Allocator.PortAllocatorInner.IntoLocal` | remoc/src/chmux/port_allocator.rs:321-326 | a reservation always becomes a local port |
| `Allocator.PortAllocatorInner.IntoRemote` | remoc/src/chmux/port_allocator.rs:329-334 | a reservation becomes a remote port exactly if its number is not taken |
| `Allocator.PortAllocatorInner.DropReserved` | remoc/src/chmux/port_allocator.rs:337-347 | an unused reservation is given up |
| `Allocator.PortAllocatorInner.DropLocal` | remoc/src/chmux/port_allocator.rs:409-424 | a released number enters the quarantine, which keeps the last `limit + 1` of them |
| `Allocator.PortAllocatorInner.DropPreAllocated` | remoc/src/chmux/port_allocator.rs:530-535 | a dropped pre-allocation frees its number |
| `Allocator.PortAllocatorInner.DropRemote` | remoc/src/chmux/port_allocator.rs:597-603 | a dropped remote number is free |
| `Allocator.ReservationHonoured` | remoc/src/chmux/port_allocator.rs:321-334 | with a reservation at hand allocation cannot find the ports exhausted |
| `Allocator.AllocatePreAllocatedKeeps` | remoc/src/chmux/port_allocator.rs:85-95 | a pre-allocated number is turned down only for want of ports |
| `Allocator.ReleaseLocalKeeps` | remoc/src/chmux/port_allocator.rs:409-424 | releasing keeps the three sets disjoint and the quarantine free of duplicates |
| `Allocator.History` | remoc/src/chmux/port_allocator.rs:81-157 | the invariant and the limit hold in every history of the eleven operations |
| `Allocator.QuarantineDistance` | remoc/src/chmux/port_allocator.rs:409-424 | in every history a released number is not handed out again before `limit + 1` further releases |
| `AllocatorHandles.AgreesAlways` | remoc/src/chmux/port_allocator.rs:81-157 | in every history, with the handles recorded from the results alone: used, pre-allocated and remote numbers are exactly those of live handles, the reservations are counted, and the quarantine is the last `limit + 1` numbers released |
| `AllocatorHandles.WithinLimit` | remoc/src/chmux/port_allocator.rs:81-157 | live handles and reservations never exceed the limit; a local port, a remote one, a reservation or a number set aside is turned down exactly when they reach it, and a remote number also exactly while its handle lives |
| `AllocatorHandles.HandsOutNearest` | remoc/src/chmux/port_allocator.rs:97-134 | in every history a local number handed out has no live handle and is not among those released last, and it is the nearest such number after the one handed out before |
| `AllocatorHandles.ReservationsHonoured` | remoc/src/chmux/port_allocator.rs:321-334 | in every history with a live reservation it becomes a local port, and a remote one exactly if no handle of that number lives |
| `Requests.Request.Accept` | remoc/src/chmux/listener.rs:276-294 | on every path exactly one answer, with a reservation exactly if the request was pre-connected; success and acceptance exactly if all waits met proceed and the request is pre-connected, or a port can be had and the number is not taken; "no ports" exactly if it is not pre-connected, may not wait and no port is left |
| `Requests.Request.AcceptReserved` | remoc/src/chmux/listener.rs:297-313 | the same with a port already reserved: success exactly if both waits proceed and the request is pre-connected or the number is not taken; never "no ports" |
| `Requests.Request.AcceptTentatively` | remoc/src/chmux/listener.rs:258-269 | accepts exactly a pre-connected request whose waits proceed |
| `Requests.Request.Reject` | remoc/src/chmux/listener.rs:319-324 | one negative answer; "no ports" as asked, unless the answer is abandoned |
| `Requests.Request.Drop` | remoc/src/chmux/listener.rs:327-343 | rejects unless an answer was given |
| `RequestSystem.AnsweredOnce` | remoc/src/chmux/mux.rs:1006-1042 | in every run, whatever is freed early, each answer finds its request outstanding, a request is in one place at a time, reserved ports plus pre-connected requests at the server number the connection queue, and so do the credits at hand with those held for requests |
| `RequestSystem.RefusedExactly` | remoc/src/chmux/mux.rs:1232-1256 | in every run the next request is refused exactly if its number is in use at the server, if it has a message of its own and the requests at the server without a credit are as many as the credits elsewhere, or if it is pre-connected and those of them that are pre-connected use up the reserved ports |
| `RequestSystem.StrayExactly` | remoc/src/chmux/mux.rs:647-678 | in every run and for requests in every place, no entry of the client waits for a request exactly if it is lost, that is, if its entry was freed before its answer or answered for an older request; requests are lost only after an entry was freed early or a guard rejected late |
| `RequestSystem.LearnFailsExactly` | remoc/src/chmux/mux.rs:1279-1334 | in every run the next answer meets an unknown port exactly if its request is lost and nothing under its number awaits an answer; one to a lost request that finds another waiting makes that one lost, and every other answer finds its own entry waiting |
| `RequestSystem.GuardLateExactly` | remoc/src/chmux/listener.rs:132-159 | in every run a rejection through an accept guard changes nothing at the client while the entry of its own request is there; after that it is an error exactly if nothing under the number could be answered, and otherwise is taken for another request's answer |
| `RequestSystem.WithoutEarlyClosing` | remoc/src/chmux/mux.rs:1238-1240 | as long as no pre-connected entry has been freed before its answer and no guard has rejected late, no answer fails and a request is refused exactly if it has a message of its own and the queue is full |
| `RequestSystem.FailureNeedsCause` | remoc/src/chmux/mux.rs:647-678 | in every run an answer for an unknown port needs an entry freed early or a guard that rejected late; a refusal needs one of these too, unless ports without a credit were sent over a port |
| `RequestSystem.NeverEarlyWithoutPre` | remoc/src/chmux/mux.rs:605-605 | without pre-connected requests no entry is ever freed before its answer and no guard rejects anything |
| `RequestSystem.Arriving` | remoc/src/chmux/mux.rs:1242-1256 | with no request orphaned, one that arrives is no duplicate, still holds its credit if it was paid for, and finds a reserved port if it is pre-connected |
| `RequestSystem.RefusedAfterEarlyClosing` | remoc/src/chmux/listener.rs:327-343 | a run with paid requests only: both halves of a dropped pre-connected request close before its rejection is queued, its credit comes back, and the request it buys is refused, by a full queue or, sent over a port, by an empty pool |
| `RequestSystem.UnknownAfterEarlyClosing` | remoc/src/chmux/mux.rs:1304-1310 | the same run continued: the rejection arrives for a port the client no longer knows |
| `RequestSystem.UnknownAfterLateRejection` | remoc/src/chmux/listener.rs:153-159 | a run with nothing freed early: a tentatively accepted port is closed by both sides, and the rejection through its guard is an error at the client |
| `RequestSystem.LateRejectionMisleads` | remoc/src/chmux/mux.rs:1048-1050 | the same with the number in use again: the guard's rejection ends a request that is still on its way and returns its credit |
| `RequestSystem.RefusedDespiteCredit` | remoc/src/chmux/mux.rs:1420-1428 | a port sent over a port takes no credit but occupies the queue: with a queue of one and nothing freed early a request that has its credit is refused |

## Left out

- Ports that are pre-connected are not part of the lifecycle theorems: an unanswered
  pre-connected request that is dropped rejects and closes from separate tasks. Their requests,
  credits, client entries and pool are in `RequestSystem`, their addressing in `Messages`. The
  data flow of a pre-connected channel before its answer is not modelled.
- `RequestSystem` frees a pre-connected entry as soon as its server's halves can be gone; the
  four shutdown messages themselves are not part of it.
- RequestSystem.RefusedExactly: without the refusal of a pre-connected request whose number is
  still allocated at the server; by the order of the shutdown messages the server has then
  released it.
- PortMux.ChMux.Handle: for connection, port and credit events; pre-connected ports, shutdown
  and flush events are left out, as the first are in `RequestSystem` and the others end or
  flush the connection.
- PortMux.ChMux.Receive: for the port table; pre-connected ports and the limit on requests are
  in `RequestSystem`, the credit checks in `FlowControl`; size checks and the messages that end
  the connection are left out.
- PortReports.LateReportExactly: for one late request in a run, followed to the send queue; what
  its peer does with it is shown by a run only.
- ThrottleWay.PeerAgreesExactly: while the receiver exists; dropping it drops its parked requests.
  Whether the channel has room, which depends on all other ports, is a choice of the run.
- A list of ports sent over a port is, in the lifecycle model, one carrying message and one
  connection request per port; the list itself is in `Connect`, `Delivery` and `Messages`.
- Termination of the multiplexer, listener and client shutdown, Goodbye, the listener's choice
  between waiting and other requests, and its two queues.
- The lifecycle model has no limit on outstanding requests and no quarantine: numbers may be
  reused at once, which is the harder case. The limit is in `RequestSystem`, the quarantine in
  `Allocator`.
- Timeouts, pings, flush scheduling, task spawning and memory orderings. Each access to an
  atomic is one step in `ThrottleRace`, each method one step elsewhere.
- Hang-up notifications; a send that ends with an error, because the peer closed the port or the
  multiplexer ended, is a send whose caller gives up.
- The blocking credit request is a sequence of attempts; `Obtain` in `DataSender` is one that
  has ended.
- FlowControl.Conservation: counts credits that a cancelled send or a lost return task takes
  along as abandoned, because the code does not give them back.
- FlowControl.NeverFailsWithReceivers: without abandoned receivers; with them the exact
  condition is `FailsExactlyOnOverflow`.
- FlowControl.NeverStarves: under the stated conditions only, because abandoned credits are
  gone for good.
- PortTheorems.NeverFails: for ports that are not pre-connected and without shutdown, for the
  reason above; and for report requests made before their sender's drop is queued.
- PortContents.SaidInOrder: a data message is its kind; the bytes and ports themselves, in the
  order in which the sender queues them, are in `Delivery`.
- SenderCredits.CompletesExactlyIf: with room in the queue for one piece per credit, and for
  messages that are brought to their end; a dropped one never completes.
- Framing.FramesRoundTrip: for frames within the reader's limit; longer ones are refused, and a
  length of 2^32 or more would be cut to 32 bits. The length bound of messages against the
  limit is not modelled.
- Framing.FrameStream.PollNext: the mode of length headers is fixed for an object; each frame
  leaves the decoder idle and the bytes after it untouched, so a switch between two frames
  composes.
- Messages.CfgBack: the Postbag version is an opaque byte; the timeout is a number of
  milliseconds.
- Allocator.History: waiting for a free port is not modelled; an attempt either succeeds or
  fails.
- Requests.Request.Accept: a closed event queue, after which the multiplexer is gone, is not
  modelled. The later rejection through an accept guard is in `RequestSystem`.
- Freshness of credit reports across the wrapping sequence number, and the building of reports.
- `forward.rs`, `client.rs` beyond its connection credits, transports, codecs, serialization
  wrappers, remote functions, objects and channels, the procedural macros.
