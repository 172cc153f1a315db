# CYW43455 driver: proofs about its protocol logic

A Dafny model of the logic of a Windows NDIS driver for the CYW43455 Wi-Fi chip on SDIO, and proofs about
it. One worker thread owns the bus; NDIS threads submit, cancel and pause concurrently. Check everything
with `dafny verify dfyconfig.toml`.

| part | files |
|---|---|
| transmit queue, as a state machine over lock regions, its whole-run safety, and the arrays and counters refined against it | `TxTypes`, `TxMachine`, `TxSafety`, `TxRuns`, `TxQueue` |
| pump, sender, credits, FIFO, transport service | `TxPump`, `SdpcmSend`, `Credits`, `Transport`, `Fifo`, `Wire` |
| receive poller and superframe validator | `RxGlom`, `RxPoll` |
| diagnostics mailbox, writer thread, record batches | `DiagMachine`, `DiagWorker`, `DiagSnapshot` |
| scan transaction, record parser, result table | `ScanSequence`, `ScanParse`, `ScanTable` |
| backplane window, firmware start, NVRAM packing | `Backplane`, `FirmwareUpload`, `Nvram` |
| the traffic part of the worker loop, pump and poller in turns | `Traffic` |
| link publication and band selection, over the whole trace of firmware events | `LinkMachine`, `Link` |

Concurrency: each lock region, and each unlocked action between two of them, is one step; a run is any
sequence of enabled steps. The queue class carries the run it has taken, and every method that takes or
releases the lock first lets a script of other threads' steps go by, which stands for re-entrant completion
callbacks as well. Answers of the bus, the firmware, the clock and other threads are constant functions of
a step number, so a proof for all of them is a proof for every behaviour.

Where the code departs from what it promises:

* An entry can be failed as expired at age zero. The cleanup loop reads the clock before it takes the lock
  (`src/cyw43455/tx_queue.h:310-311`); a list stamped in between gives a negative age, which wraps.
  `TxTypes.ExpiryExact` says exactly when, `TxRuns.FreshListCanExpire` is a run that gets there.
* A diagnostics record with a name of 65534 bytes is accepted by append and refused by the reader, which
  takes the whole batch with it (`src/driver/diag_snapshot.h:22-26` and `48`). `DiagSnapshot.ReadsBackExactly`
  is the exact condition.
* A connection can be published across a deauthentication. A scan is dispatched while the worker is inside a
  link-up, past the check of `ScanBusy` (`src/cyw43455/network.c:154`) and short of the flag (`158`); the
  deauthentication behind it is ignored, the scan finds the adapter associated and leaves it alone
  (`src/cyw43455/scan_sequence.h:84-89` expects the overlap), and the next key completion publishes.
  `LinkMachine.DispatchSafeExactly` says exactly which dispatches can do this, `Link.OverlapOnAdapter` gets
  there; without one, `LinkMachine.ReconnectNeedsBoth` holds over the whole trace.
* Several checks can never decide, and are proved so: the two position checks of the superframe validator,
  the capacity check after rounding a descriptor, the two checks after the NVRAM loop, the final offset
  check of the RSN parser, the reply-length checks of the scan.

## Model

| member | source | states |
|---|---|---|
| TxRuns.EveryRunIsSafe | src/cyw43455/tx_queue.h:25-222 | from adapter start, over every interleaving of submit, cancel and gate calls with the worker's lock regions and re-entrant callbacks: the four sums equal their entries, 64 and 128 hold, Outstanding + BacklogCount + Completing is accepted minus completed at every lock release, and the history is safe |
| TxRuns.NextKeeps | src/cyw43455/tx_queue.h:110-468 | each lock region and each unlocked worker action keeps the whole invariant (sums, limits, order, ownership, history) |
| TxRuns.ZeroMeansAllReturned | src/cyw43455/tx_queue.h:19-24 | when the count Pause and D3 wait for is zero, every accepted list was returned and the worker holds none: no false zero |
| TxRuns.BacklogHoldsSmallFrames | src/cyw43455/tx_queue.h:110-130 | every frame of a backlogged list is at most 512 bytes and none of it has been sent |
| TxRuns.QueuesInAcceptanceOrder | src/cyw43455/tx_queue.h:110-188 | active records followed by backlogged ones are in acceptance order; no later submit overtakes |
| TxRuns.OpenRunStaysTight | src/cyw43455/tx_queue.h:165-208 | while the gate stays open and no removed active record awaits its completion, over any run the backlog is empty or its head does not fit |
| TxRuns.RefillRestoresTight | src/cyw43455/tx_queue.h:202-207 | after a gate was reopened over a waiting backlog, the next completion restores that |
| TxRuns.PromoteAllKeeps | src/cyw43455/tx_queue.h:170-188 | the refill loop terminates, keeps the order and every sum, never exceeds 64 frames, and stops only when the oldest backlogged list does not fit |
| TxRuns.ReapRemovesOne | src/cyw43455/tx_queue.h:309-335 | one cleanup turn removes exactly one entry that must go, and finds none only when none is left |
| TxRuns.FrozenStepsDoomNothing | src/cyw43455/tx_queue.h:189-222 | completing an entry, promotion, and submissions stamped by the frozen clock make no other entry due for removal |
| TxRuns.CleanupBoundSuffices | src/cyw43455/tx_queue.h:309-309 | the entries that can be due never exceed the 192 turns |
| TxSafety.WritesAreOrdered | src/cyw43455/tx_queue.h:336-468 | in a safe history no buffer is written twice, none after a failed write of its list, and writes follow acceptance and chain order |
| TxSafety.FramesInOrder | src/cyw43455/tx_queue.h:336-468 | the buffers that reached the bus are strictly increasing by acceptance and chain position |
| TxSafety.ReturnedOnceAndLast | src/cyw43455/tx_queue.h:189-222 | no accepted list is returned twice, and none is written after it was returned |
| TxSafety.TicketsUnique | src/cyw43455/tx_queue.h:75-85 | an acceptance number names one acceptance |
| TxSafety.SuccessMeansAllWritten | src/cyw43455/tx_queue.h:447-458 | a list completed with success had every one of its buffers written before |
| TxTypes.Prepare | src/cyw43455/tx_queue.h:25-41 | the chain walk accepts exactly the chains of 1 to 64 buffers of 14 to 1514 bytes, decides by the first fault met, and measures frames, bytes and the largest frame |
| TxTypes.MaxBounds | src/cyw43455/tx_queue.h:32-38 | the recorded largest frame bounds every frame |
| TxTypes.MaxAttained | src/cyw43455/tx_queue.h:32-38 | and is one of them |
| TxTypes.ExpiryExact | src/cyw43455/tx_queue.h:223-229 | an uncancelled entry of an open queue is failed exactly when it is 30 seconds old or when the clock was sampled before its stamp (the unsigned difference wraps) |
| TxTypes.StaleClockFailsFreshItem | src/cyw43455/tx_queue.h:309-316 | witness of the second case: the cleanup loop samples the clock before taking the lock, so a list stamped in between is failed at age zero |
| TxRuns.FreshListCanExpire | src/cyw43455/tx_queue.h:309-316 | and a reachable state in which the cleanup turn does so to any acceptable list |
| TxQueue.TxState.SubmitLocked | src/cyw43455/tx_queue.h:119-130 | the admission region is the machine's submit step; pending exactly when gate, chain and room allow, and the refusal reason is exact |
| TxQueue.TxState.Submit | src/cyw43455/tx_queue.h:110-132 | the whole admission under interference: the answer is that of one submit step of this list, or of a closed gate seen before; without interference it is pending exactly when gate, chain and room allow |
| TxQueue.TxState.Cancel | src/cyw43455/tx_queue.h:133-140 | the two marking loops are the machine's cancel step |
| TxQueue.TxState.SetGate | src/cyw43455/tx_queue.h:14-18 | the machine's gate step |
| TxQueue.TxState.Outstanding | src/cyw43455/tx_queue.h:19-24 | the count is accepted minus completed, and zero means that everything accepted was returned |
| TxQueue.TxState.PromoteOne | src/cyw43455/tx_queue.h:172-188 | promotes exactly when the gate is open and the head fits, moving the oldest record only |
| TxQueue.TxState.PromoteAll | src/cyw43455/tx_queue.h:207-207 | the loop over the arrays equals the refill of the machine |
| TxQueue.TxState.RemoveBacklogEntry | src/cyw43455/tx_queue.h:154-171 | shift, counters, transfer of the charge to Completing and refill, in one region |
| TxQueue.TxState.RemoveEntry | src/cyw43455/tx_queue.h:142-152 | shift, counters and clearing of the vacated slot |
| TxQueue.TxState.Complete | src/cyw43455/tx_queue.h:189-209 | the completion of an active list in three regions with interference between them: the list is returned, once; with a closed gate nothing else changes |
| TxQueue.TxState.CompleteBacklog | src/cyw43455/tx_queue.h:210-222 | the same for a list already charged to Completing |
| TxQueue.TxState.ReapRegion | src/cyw43455/tx_queue.h:312-331 | the two scans of one cleanup turn take the first entry due, active before backlog |
| TxQueue.TxState.Cleanup | src/cyw43455/tx_queue.h:309-335 | with the clock and the flags standing still, the 192 turns leave no cancelled, expired or gate-closed entry, despite promotions and re-entrant submits |
| TxQueue.TxState.Flush | src/cyw43455/tx_queue.h:281-294 | while nobody reopens the gate: terminates, both queues empty, every counter zero, exactly the queued lists returned, once each, in acceptance order |
| TxQueue.TxState.PickRegion | src/cyw43455/tx_queue.h:337-346 | promote if empty, drop a due head, or hand it out |
| TxQueue.TxState.SettleRegion | src/cyw43455/tx_queue.h:440-458 | the pointer read before the transfer is still the head's; cancellation and gate are looked at again; the list leaves exactly when due or finished |
| TxQueue.TxState.BurstPendingFrames | src/cyw43455/tx_queue.h:233-250 | the number of leading small buffers waiting, across lists, up to the budget and four; zero with a closed gate |
| TxQueue.TxState.Interfere | src/cyw43455/tx_queue.h:189-222 | whatever other threads do at a lock release, queued records keep their place, pointer and content, and no completion or write is added |
| TxPump.Pump.Run | src/cyw43455/tx_queue.h:295-470 | at most budget frames and at most the credits at entry leave, and none on a latched FIFO; the frames on the wire are exactly the buffers the history gained, in that order, under consecutive sequence numbers; burst discipline is kept; a stop before the budget has a reason that holds of its last turn |
| TxPump.Pump.Turn | src/cyw43455/tx_queue.h:336-468 | one turn sends exactly one frame, or stops for a reason that holds of this turn: queue empty; no credit or flow; radio busy; or a list given back in this turn with a status other than success, because it was due, because a buffer could not be mapped when this turn looked, or after a bus fault |
| TxPump.Pump.Follow | src/cyw43455/tx_queue.h:404-409 | a granted follower is never answered busy: its flow and credit tests cannot fail |
| TxPump.Pump.Transmit | src/cyw43455/tx_queue.h:396-427 | the choice between a follower and a fresh service; a bulk frame always has its own service |
| TxPump.Pump.SendHead | src/cyw43455/tx_queue.h:388-468 | a list given back with anything but success ends the running burst |
| TxPump.Pump.HandHead | src/cyw43455/tx_queue.h:388-431 | the head survives the unlocked transfer, and the frame carries exactly its next buffer |
| SdpcmSend.Sender.SendFrameCore | src/cyw43455/transport_send.h:38-172 | BUSY means nothing was written and credit or flow was missing; success sends exactly one well-formed frame and uses one credit; the grant is exactly what count, length and remaining credits allow, at most three; a latched FIFO carries nothing and stays latched; every other status has its cause: the length, the burst position, the halt, the stop flag at this look, a latch found set, or a bus or register access that failed in this call |
| SdpcmSend.Sender.WriteFrame | src/cyw43455/transport_send.h:112-166 | one padded frame is what the FIFO carries, and the sequence number advances only on success |
| SdpcmSend.Sender.Grant | src/cyw43455/transport_send.h:90-98 | the grant equals the allowance: at most three, leaving the current frame its credit, nothing after a frame over 512 bytes |
| SdpcmSend.Sender.Permission | src/cyw43455/transport_send.h:55-109 | what must hold before bytes may go: fresh service or a place in a running burst, no halt, a credit |
| SdpcmSend.FrameRoundTrip | src/cyw43455/transport_send.h:112-130 | what the sender builds passes the receive-side header check and reads back as the same sequence number, channel and payload |
| SdpcmSend.ServiceIsRecent | src/cyw43455/transport_send.h:55-109 | every data write stands at most three writes after a successful service pass with only small successful data writes between; positions are 1 to 4; a bulk frame stands directly after its own |
| Transport.Net.Service | src/cyw43455/transport_service.h:6-94 | a success is one whole pass over the registers (or a quiet pending register), each event acknowledged before it is served, and the new flow, receive and halt state is what its values say; any bus failure stops data flow |
| Transport.Net.ReadStatus | src/cyw43455/transport_service.h:31-62 | status, acknowledgement of exactly what it showed, and the debounced reread after a flow change |
| Transport.Net.ServeMail | src/cyw43455/transport_service.h:67-86 | the mailbox word sets flow, receive indication and halt, all or nothing |
| Transport.Net.TakeHeader | src/cyw43455/transport_poll.h:62-65 | credit and flow bytes of an accepted header keep the credit invariant |
| Transport.Net.Spend | src/cyw43455/transport_send.h:160-161 | one frame uses one credit |
| Credits.WindowExact | src/cyw43455/network_protocol.h:78-79 | the 8-bit window is the true number of unused grants, and the test asks for one |
| Credits.SendKeeps | src/cyw43455/transport_send.h:108-161 | a credited send keeps sent <= granted <= sent + 64 under wrap-around |
| Credits.UpdateKeeps | src/cyw43455/transport_poll.h:62-63 | any announced byte keeps it |
| Credits.HonestFirmwareIsTracked | src/cyw43455/transport_poll.h:62-63 | over every run with firmware that never retreats or runs over 64 ahead, the window equals the true limit minus the true count |
| Credits.AnyFirmwareIsBounded | src/cyw43455/transport_poll.h:22-22 | whatever is announced, the window stays between 0 and 64 |
| RxGlom.Glom.Descriptor | src/cyw43455/rx_performance.h:27-41 | accepts exactly the descriptors that meet the specification, with their slots and block-rounded size |
| RxGlom.Glom.Validate | src/cyw43455/rx_performance.h:42-64 | accepts exactly the superframes that meet the specification; only then are positions and the hint stored |
| RxGlom.ChildrenTile | src/cyw43455/rx_performance.h:50-60 | accepted children lie inside the buffer with complete headers before their payloads, none reaching into the next |
| RxGlom.PositionChecksNeverFire | src/cyw43455/rx_performance.h:53-61 | the checks slot > bytes - pos and pos != bytes can never fire after an accepted descriptor |
| RxGlom.DescriptorGeometry | src/cyw43455/rx_performance.h:30-38 | every accepted descriptor fixes a geometry inside the buffer |
| RxGlom.RoundingStaysInside | src/cyw43455/rx_performance.h:36-37 | the rounded size never exceeds the capacity, so that check never decides |
| RxPoll.GroupThenChildren | src/cyw43455/transport_poll.h:18-40 | after a superframe validates, until the worker starts over, the next events are exactly its children, in order, once each, with its own bytes; the buffer is not loaded before the last is out |
| RxPoll.ChildComesFromGroup | src/cyw43455/transport_poll.h:18-40 | no child is delivered before its whole superframe validated, and only its elder siblings stand between |
| RxPoll.NoStaleChild | src/cyw43455/network.c:498-499 | a start of the worker leaves no child behind: whatever child is delivered later comes from a superframe validated after the start |
| RxPoll.GroupFollowsDescriptor | src/cyw43455/transport_poll.h:66-75 | a superframe is read only for the latest accepted descriptor |
| RxPoll.FailureEndsReceiving | src/cyw43455/transport_poll.h:81-87 | after a failure nothing is read, announced or delivered until the worker starts over with the FIFO prepared |
| RxPoll.Poller.Poll | src/cyw43455/transport_poll.h:10-93 | every poll keeps a legitimate history and delivers at most one frame; while a superframe is held it hands out the next child and touches neither FIFO nor credits; on a failed FIFO it does nothing; cancellation, halt and no-more each have their cause |
| RxPoll.Poller.LoadGroup | src/cyw43455/transport_poll.h:19-29 | read whole and judged whole: success exactly for a valid superframe, and only then accounted, by the outer header alone |
| RxPoll.Poller.DeliverChild | src/cyw43455/transport_poll.h:31-40 | one child, its own bytes, no read |
| RxPoll.Poller.Fetch | src/cyw43455/transport_poll.h:47-60 | every FIFO read has a legal length inside the buffer; the answer is what the header bytes say, and an accepted header's frame lies in what was read |
| RxPoll.Poller.ReadFrame | src/cyw43455/transport_poll.h:47-80 | the answer equals the verdict on the bytes read; an ordinary frame or the descriptor of the next superframe, with its credit, flow and read-ahead update |
| RxPoll.Poller.FetchHeader | src/cyw43455/transport_poll.h:47-60 | the first read and its judgement: no more, malformed, or a header that fits the hint |
| RxPoll.Poller.Describe | src/cyw43455/transport_poll.h:66-75 | a descriptor frame is accepted exactly when enabled, marked and well formed |
| RxPoll.Poller.Abandon | src/cyw43455/transport_poll.h:81-85 | the exit path latches the FIFO and forgets the superframe |
| RxPoll.Poller.Restart | src/cyw43455/network.c:497-499 | a superframe and a length hint left from before are forgotten, whether or not the FIFO is prepared; it is prepared only if nobody asked to stop, and only that clears the latch |
| Traffic.Worker.Session | src/cyw43455/network.c:583-640 | over any number of worker turns, pump and poller sharing one port and one set of credits: every frame on the wire is a recorded buffer, in order and numbered in sequence, each against a credit of its own; both sides keep their invariants; and a turn that finds the FIFO latched moves nothing in either direction |
| Traffic.Worker.Turn | src/cyw43455/network.c:583-640 | one turn sends at most twelve frames and delivers at most four, and the account of its three parts adds up |
| Traffic.Worker.PostReceive | src/cyw43455/tx_pressure_pump.h:13-35 | at most eight frames, the extra ones only after a full turn of four |
| Traffic.Worker.Receive | src/cyw43455/network.c:605-611 | at most four polls, at most one delivery each; it ends before the fourth only when asked to, after a failure, or with nothing more indicated; no frame leaves meanwhile |
| Traffic.MatchedJoin | src/cyw43455/tx_queue.h:295-470 | the accounts of two stretches of sending add up to one, across the wrap of the sequence number |
| Fifo.FifoPort.Transfer | src/sdio/sdio.c:779-814 | chunks tile the transfer and the bytes that went through are the buffer's, in order; a failure latches after what was in place; a latched or failed read leaves only zeros |
| Fifo.FifoPort.Prepare | src/sdio/fifo_blocks.h:13-29 | the only way to clear the latch |
| Fifo.NothingAfterFailure | src/sdio/sdio.c:786-791 | between a failed command and the next preparation no command is issued |
| Fifo.TilesCover | src/sdio/sdio.c:792-812 | every byte of a successful transfer was carried by exactly one chunk |
| DiagMachine.EveryRunIsOrdered | src/driver/diag_mailbox.h:12-31 | for every interleaving the writer's output is a prefix of what was published, at most two behind; the buffer being read is unchanged since it was taken, and the producer is in the other slot |
| DiagMachine.ExitMeansDrained | src/cyw43455/diagnostics_worker.h:26-34 | the thread exits only after everything published was written and Stop was set; nothing can be published afterwards |
| DiagMachine.NoLostWakeup | src/cyw43455/diagnostics_worker.h:35-36 | a waiting thread with work or Stop pending has its event set, or the producer is about to set it |
| DiagMachine.StopTerminates | src/cyw43455/diagnostics_worker.h:54-60 | once Stop is signalled the thread needs at most thirteen steps of its own to write what is left and exit |
| DiagMachine.NextKeeps | src/driver/diag_mailbox.h:12-31 | every atomic operation of either side keeps the slot invariant |
| DiagWorker.Diagnostics.Thread | src/cyw43455/diagnostics_worker.h:14-38 | the thread loop under any producer: output a prefix of the publications, complete when it exits, and it does exit, within three passes, once the producer waits for it |
| DiagWorker.Diagnostics.WriteAndRelease | src/cyw43455/diagnostics_worker.h:22-25 | what is written is what was taken, whatever the producer does meanwhile |
| DiagWorker.Diagnostics.Begin | src/driver/diag_mailbox.h:12-18 | captures exactly a free slot, else counts a skip |
| DiagWorker.Diagnostics.TakeSlot | src/driver/diag_mailbox.h:23-27 | takes exactly a ready slot |
| DiagSnapshot.ReadsBackExactly | src/driver/diag_snapshot.h:18-56 | a list of appended records reads back exactly, ending at the used length, if and only if no name is 65534 bytes long |
| DiagSnapshot.DecodeEncode | src/driver/diag_snapshot.h:40-56 | one record reads back as itself, or is refused at that one name length: append accepts it, the reader stops at 65532 |
| DiagSnapshot.Batch.Append | src/driver/diag_snapshot.h:18-38 | appends the record whole exactly when it is acceptable and fits; otherwise fails the batch for good and changes nothing |
| DiagSnapshot.Batch.Read | src/driver/diag_snapshot.h:40-56 | returns the decoded record, never reaching past the used bytes |
| DiagSnapshot.Batch.WriteOut | src/driver/driver.c:417-440 | either every appended record is written, in order, or none: a failed append makes the batch unreadable |
| ScanSequence.Scanner.Request | src/cyw43455/scan_sequence.h:61-196 | with every command free to fail before or after its effect: if the adapter stays ready, mask and country are the values at entry and the last radio command was an accepted DOWN, or nothing was sent; complete only then, with exactly the prescribed command sequence, and with exactly what the events delivered since the window opened (with the reply to the scan command, and with the polls behind it) amount to; otherwise no entries |
| ScanSequence.Scanner.GatheredOnce | src/cyw43455/scan_sequence.h:129-140 | the events delivered to the window determine one final outcome, so nothing can be left out of it or added |
| ScanSequence.Scanner.Gather | src/cyw43455/scan_sequence.h:129-142 | success means a final event of status zero, and records, status and completion are what the reply to this very scan command and the polls after it make of an empty table |
| ScanSequence.Scanner.Await | src/cyw43455/scan_sequence.h:134-140 | the loop hands on every event of every poll, in order, until the final one |
| ScanSequence.Scanner.Start | src/cyw43455/scan_control.h:31-54 | a scan is queued exactly under the guards of the dispatch, each refusal with its own status and without any change; once queued, the table is empty and a transaction may begin, at first and again after every finished one |
| ScanSequence.Scanner.Setup | src/cyw43455/scan_sequence.h:88-150 | before cleanup every touched value is remembered as it was and every untouched one is as it was |
| ScanSequence.Scanner.WidenMask | src/cyw43455/scan_sequence.h:122-128 | the mask asked for is the old one with the scan event's bit added, marked as touched before it is sent |
| ScanSequence.Scanner.DownAgain | src/cyw43455/scan_sequence.h:157-163 | the last radio command is DOWN, after an abort exactly when the scan may still run |
| ScanSequence.Scanner.Restore | src/cyw43455/scan_sequence.h:155-183 | success means mask and country read back as remembered and an accepted DOWN was sent |
| ScanSequence.Scanner.RestoreMask | src/cyw43455/scan_sequence.h:165-171 | a successful restore means that the card holds the mask |
| ScanSequence.Scanner.ChooseCountry | src/cyw43455/scan_sequence.h:104-121 | success means that the card's country is the wanted one |
| ScanSequence.Scanner.Event | src/cyw43455/scan_sequence.h:26-45 | outside the accepting window nothing changes; inside it the table and the final status follow the event exactly, and a record enters only if it parses for this scan's id |
| ScanSequence.Scanner.Drain | src/cyw43455/scan_sequence.h:48-60 | ends well only when a poll had nothing more, is bounded, and changes nothing outside the accepting window |
| ScanTable.Report.Add | src/cyw43455/scan_protocol.h:163-176 | the in-place update keeps the table equal to its specification, and truncation is flagged exactly when networks were left out |
| ScanTable.TableStep | src/cyw43455/scan_protocol.h:163-176 | replace, append or drop is what the specification of one more record demands |
| ScanTable.TableUnique | src/cyw43455/scan_protocol.h:163-176 | the specification (first 64 networks in first-seen order, each with its latest record) determines the table |
| ScanParse.Rsn | src/cyw43455/scan_protocol.h:85-110 | the RSN walk equals the grammar of the element: two non-empty suite lists, an optional tail |
| ScanParse.Security | src/cyw43455/scan_protocol.h:111-132 | the element walk equals the classification of the parsed element list |
| ScanParse.SupportedExactly | src/cyw43455/scan_protocol.h:111-132 | a network is reported as supported exactly for one well-formed RSN element with the supported suites in a private infrastructure network |
| ScanParse.ElementsOfEncoding | src/cyw43455/scan_protocol.h:114-125 | every element list is read back from its bytes |
| ScanParse.EncodingOfElements | src/cyw43455/scan_protocol.h:114-125 | and every accepted byte string encodes what was read from it |
| ScanParse.ParsePartial | src/cyw43455/scan_protocol.h:135-162 | accepts exactly the well-formed records of this scan |
| ScanParse.OnlyPresentable | src/cyw43455/scan_protocol.h:135-162 | an accepted record has a unicast nonzero address, a bounded SSID and a real channel |
| Backplane.Bus.SelectWindow | src/cyw43455/firmware.c:71-94 | success leaves the card on the window of the address, whether or not the cache was used; a failure has a failed command or a stop behind it |
| Backplane.Bus.Cmd52Write | src/sdio/sdio.c:572-596 | window writes and the enable and abort registers drop the cache, so it never disagrees with the card |
| Backplane.Bus.BpRead | src/cyw43455/firmware.c:95-104 | a cached or uncached read reaches exactly the requested register |
| Backplane.Bus.BpWrite | src/cyw43455/firmware.c:105-113 | so does a write, which has had its effect or none |
| Backplane.Bus.RamWrite | src/cyw43455/firmware.c:114-153 | every piece is at most 64 bytes and inside one window, and together they change exactly the range asked for |
| Backplane.Bus.RamRead | src/cyw43455/firmware.c:114-153 | the same pieces return exactly the card's bytes |
| Backplane.SelectedBytes | src/cyw43455/firmware.c:87-90 | the three register bytes select the window they were taken from |
| Backplane.RewrittenTwice | src/cyw43455/firmware.c:122-151 | adjacent pieces compose to one write |
| FirmwareUpload.Loader.Start | src/cyw43455/firmware.c:218-300 | whenever the core starts to run, RAM holds the whole checked image and, if successful writes store their data, the NVRAM block and token at the top and the vector at zero, overlapping nothing, and the radio core is in reset with its control register at 7; unusable files leave the card untouched |
| FirmwareUpload.Loader.Upload | src/cyw43455/firmware.c:277-288 | after the full readback RAM holds the padded image whatever the writes did |
| FirmwareUpload.Loader.Place | src/cyw43455/firmware.c:291-295 | the three later writes leave the image alone |
| FirmwareUpload.Loader.Fill | src/cyw43455/firmware.c:261-296 | the core is held asleep from before the upload until everything is in place |
| FirmwareUpload.Loader.Cr4Reset | src/cyw43455/firmware.c:154-175 | held, the reset sequence never starts the core; released, it starts it once, with memory as it stands; the radio core keeps its state |
| FirmwareUpload.Loader.D11Hold | src/cyw43455/firmware.c:201-216 | success means that the radio core is in reset with its control register at 7, and that its wrapper is not the application core's, which is not disturbed |
| FirmwareUpload.Placed | src/cyw43455/firmware.c:291-295 | image, NVRAM block, token and vector stay clear of one another |
| Nvram.Pack | src/cyw43455/network_protocol.h:96-121 | succeeds exactly on a packable file and writes exactly its block: the kept lines in order, NUL-terminated, padded to four; no bound underflows and the checks after the loop never decide |
| Nvram.PackingIsIdempotent | src/cyw43455/network_protocol.h:96-121 | packing the kept lines joined by newlines gives the same block |
| Nvram.RoomSuffices | src/cyw43455/firmware.c:246-248 | a buffer eight bytes longer than the file always has room |
| Nvram.StripFacts | src/cyw43455/network_protocol.h:107-112 | stripping is idempotent and removes comments |
| Nvram.KeptFacts | src/cyw43455/network_protocol.h:107-116 | every kept line is a stripped printable assignment |
| LinkMachine.ReconnectNeedsBoth | src/cyw43455/network.c:154-169 | over every run in which no scan is dispatched between the check and the update of one event: after anything in the whole trace that drops the link, acted on or ignored, a connection needs both a later link-up and a later key completion, neither undone since |
| LinkMachine.DispatchSafeExactly | src/cyw43455/scan_control.h:36-50 | a scan dispatch leaves every later state, until the next one, with flags that the whole trace accounts for, if and only if no event that will set a flag has passed the check |
| LinkMachine.ArrivalKeepsHonestExactly | src/cyw43455/network.c:154-154 | an event costs the flags their ground exactly when it is ignored while a flag stands that it would have taken down |
| LinkMachine.OverlapPublishesAcrossDeauth | src/cyw43455/network.c:154-173 | a run from start that publishes a connection across a deauthentication, with no link-up after it |
| Link.OverlapOnAdapter | src/cyw43455/network.c:154-173 | the same on the adapter, past every guard of the dispatch and through a whole scan turn |
| LinkMachine.EveryRunKeeps | src/cyw43455/network.c:136-178 | over every interleaving of the worker with scan dispatches and cancellations the flags are exactly what the events acted on amount to, and without an overlap a busy scan finds both down |
| LinkMachine.NextKeeps | src/cyw43455/network.c:136-178 | each step of the worker and of the control threads keeps that |
| LinkMachine.EarnedAfterRequest | src/cyw43455/network.c:564-582 | a connection that stands after a connect or disconnect request was earned after it, overlap or not: the events acted on since hold a link-up and a key completion |
| LinkMachine.ProgressChangesNothing | src/cyw43455/stability_diag.h:28-33 | handshake progress never grants or revokes authorization |
| LinkMachine.AssociatedStep | src/cyw43455/network.c:157-169 | one event's effect on the association, as the trace defines it |
| LinkMachine.AuthorizedStep | src/cyw43455/network.c:157-167 | one event's effect on the authorization |
| Link.PublishedMeansEarned | src/cyw43455/network.c:110-135 | whatever the adapter has been through without an overlap, a published connection stands on a link-up and a key completion, both later than anything in the whole trace that dropped the link |
| Link.Adapter.WorkerTurn | src/cyw43455/network.c:521-611 | from any request, a queued scan included, and with control threads asking for more at any command: every turn is a stretch of a run of the machine and ends with media published as connected exactly when associated, authorized and not selecting a band, and the gate open only then; a connect or disconnect request drops both flags on the way |
| Link.Adapter.Event | src/cyw43455/network.c:136-178 | every event is recorded, as ignored exactly when a scan is busy, and an ignored one changes nothing; the flags stay equal to what the events acted on say, and the publication exact |
| Link.Adapter.Handle | src/cyw43455/network.c:155-177 | the rest of an event past the check, with other threads between update and publication: a scan asked for in between is the only overlap |
| Link.Adapter.StartScan | src/cyw43455/scan_control.h:36-50 | a scan is queued exactly under the guards of its dispatch, and overlaps an event exactly when that event is past the check and will set a flag |
| Link.Adapter.Control | src/cyw43455/network.c:896-913 | the guards of the control requests; while the worker executes one, none of them makes a scan busy |
| Link.FlagsByMeaning | src/cyw43455/network.c:157-169 | the tests on type, status, reason and flags do to the two flags what the event means |
| Link.Adapter.Connect | src/cyw43455/connection.h:15-121 | nothing is published during the hold; success ends the hold, any failure keeps it with both flags down |
| Link.Adapter.JoinSelectedBand | src/cyw43455/band_selection.h:51-132 | the hold is released by success alone, and success publishes, on five readbacks that stood and agreed; at most two joins |
| Link.Adapter.Select | src/cyw43455/band_selection.h:58-121 | success without a second join means a usable candidate; the result word says which path was taken; the last thing before success was a verification with nothing dropped since |
| Link.Adapter.BandVerify | src/cyw43455/band_selection.h:13-34 | success means five successful readbacks one after the other, the association standing at each by the trace, agreeing on one station, and the evidence they amount to |
| Link.Adapter.BandWait | src/cyw43455/band_selection.h:35-50 | success means such a verification, begun after the call |
| Link.Readback | src/cyw43455/band_policy.h:27-41 | accepted evidence names a real channel and a measured signal |
| Link.Adapter.ControlStep | src/cyw43455/network.c:564-582 | both flags are dropped on the way; a disconnect or a failed connect ends with nothing published and the gate closed |
| Link.Adapter.ScanStep | src/cyw43455/scan_sequence.h:84-196 | a queued scan is always released and changes neither flag nor publication; it is a no-op on a connected or selecting adapter |
| Link.Adapter.TakeDown | src/cyw43455/network.c:675-693 | after a worker failure nothing stays published |
| Link.Adapter.Publish | src/cyw43455/network.c:110-121 | the hold blocks publication; a change of state refreshes the gate |

## Left out

- GLOM pairs: the two-frame transmit path (`src/cyw43455/transport_send.h:198-279`, `src/cyw43455/tx_queue.h:257-278`) is compiled out by default.
- Priority flow masks: the default build never learns a mask, so any flow byte stops data; the learned-mask branch of `src/cyw43455/transport_protocol.h:65-73` is not modelled.
- TxQueue.TxState.Flush: promises its result only while no other thread reopens the gate; with a gate that reopens for ever the driver need not terminate either.
- TxQueue.TxState.Cleanup: the no-entry-left claim is for a standing clock and no concurrent cancel or gate change; for a moving clock see TxTypes.ExpiryExact.
- TxPump.Pump.Run: a history event `Written(.., false)` means that the buffer was handed to a transport that reported a fault, which may have happened before any byte reached the bus.
- TxPump.Pump.HandHead: the conditions of `CywTxCanTransfer` other than credit and flow are a parameter.
- Transport.Net.Service: register values, the bounded recheck timer and the stop flag are parameters; a learned receive sequence is diagnostics only.
- RxPoll.Poller.Poll: dispatch of the delivered bytes to the event decoder and to NDIS is not part of this model; the two abort writes after a failure have no effect on it.
- Traffic.Worker.Session: runs up to the first failure; what follows one is RxPoll.Poller.Restart and the firmware start. Transmit pressure, elapsed time and the stop flag between two steps are a parameter.
- Fifo.FifoPort.Transfer: the SDHCI command itself succeeds or fails by parameter; clocks, waits and register programming are left out.
- DiagWorker.Diagnostics.Thread: runs for a given number of turns, because the driver's loop has no bound; DiagMachine.StopTerminates proves that it ends after Stop.
- DiagSnapshot.Batch.WriteOut: the registry and its mutex are reduced to whether the key opens.
- ScanSequence.Scanner.Await: the ten-second limit is a number of polls; every other deadline is a parameter of the check.
- ScanSequence.Scanner.Request: saving and restoring the seven diagnostic words around the transaction is left out; the contents of the scan and abort requests too.
- ScanSequence.Scanner.GetMask: a successful variable read always has its full length (`src/cyw43455/control.h:86-92`), so the length checks of the transaction are dead; two of them are kept and proved so.
- FirmwareUpload.Loader.Start: ends at the release of the core; bus-speed negotiation and the steps after it (`src/cyw43455/firmware.c:301-335`) are one unconstrained bus change each or left out. Core bases from the enumeration ROM are taken to be distinct and page-aligned.
- FirmwareUpload.Loader.Place: the NVRAM block, token and vector are not read back by the driver, so their claim rests on successful writes storing their data.
- Link.Adapter.Outside: other threads run at every command and poll of the worker, and inside the handling of every event; between two other statements of the worker their requests cannot meet a state they would not meet there. A worker that was stopped starts with `CywScanReset`, which is not part of this model.
- Link.Adapter.Configure: the values of the country and key commands of a connect request are not part of this model, only their order, results and the events they let in.
- Link.Adapter.ScanStep: whether the transaction restored the card is a parameter here; ScanSequence proves what it means.
- Timing, counters, diagnostics capture, packet probes, radio reports, NDIS and IRP plumbing, interrupts, power work items and credential handling.
- Null pointers, except where a length goes with them (DiagSnapshot.Blob).
