# Meshtastic text path and local delivery: a verified model

The Meshtastic channel of PicoClaw takes an agent's answer, cuts it into numbered chunks that
fit a LoRa frame, submits them one at a time to an attached radio, and decides from the radio's
messages whether each chunk was accepted. This project models that path in Dafny and proves
what it keeps, for all inputs and all runs.

| files | part |
|---|---|
| Text, Utf8, Tokens, Packing, Chunker, Scan, Numbering, Reassembly, Sending | the chunker: tokens, greedy packing, numbering, and `Send` on top of it |
| Acceptance, Protocol, Verdicts, Soundness, Retries, PacingRules, Progress, FreshIds, Recovery, Notices | the acceptance protocol between sender, radio, teardown and clock |
| Delivery | the two together: what a run of the protocol does with the chunks of a message |
| Cache | the bounded time-to-live cache |
| Octets, Serial, SerialPort | serial frames, the resynchronising reader, the writer |
| Readiness, Lifecycle | handshake, reboot and teardown |
| Options, Numerals, Routes, Inbound | printed addresses, routes, and the inbound queue |

`dafny verify dfyconfig.toml` checks everything. Code that works step by step is a method or a
class and is proved against a function; the theorems are about those functions.

**How the protocol is modelled.** `sendPhysical` and its waiting loops run while other goroutines
change the same tables, so they are a transition system (`Protocol`): one step for each critical
section or each read of shared state, interleaved in any order with radio messages, attempt
failures, cancellation and a clock that never goes back. The critical sections themselves are
functions on a `Table` value, and `Acceptance.PendingTable` is the class with the shared records,
proved against these functions. Every run also carries its history: all submissions and all
messages heard. `Soundness.Inv`, `Retries.Books`, `PacingRules.Spaced` and `Recovery.Recovering`
are kept by every step.

**How the chunker is modelled.** `Packing.Legal` says what one chunk may be, without saying how it is
found. `Packing.Next` is the greedy choice. `GreedyIsOptimal` shows that no packing into legal
chunks, under the same or tighter limits and wherever it cuts tokens, gets further in as many
chunks. A legal chunk does not join the rest of a cut token with the tokens after it; the
scan never does. From it follows that
naming a larger total never lowers the chunk count, so the branches "chunk count decreased",
"numbering prefix leaves no room" and "chunk count overflow" are never taken, and that the total
chosen is the least one that is consistent with itself.

**Where code and documentation disagree.** The channel guide describes `send_delay_ms` as the minimum
interval between physical text submissions. The code keeps it after accepted, queue-full, rate and
duty outcomes, but not after permanent or ambiguous ones, nor after a call that wrote no byte:
`NoDelayAfterRefusal` gives a run, `IntervalBrokenIff` the exact condition for every reachable
verdict and every continuation, and `SendDelayIsKept` what holds in all runs.
A notice of a longer duty-cycle wait that is handled between the refusal and the start of
recovery is dropped: `NoticeIsDropped` gives a run that retries too soon, `RetriesTooSoonIff` the
exact condition, and `AllReportedIsWaitedFor` what holds in all runs.
A direct packet whose sender field is the broadcast address is queued, but its answer
cannot be routed; `ReplyReturns` says so.

**Choices.** The generated protobuf schema is not part of this model. The size of a `Data` message is
written out from its fields: port number 2 bytes; payload tag, length varint and bytes; reply id
5 bytes when not zero (fixed32); bitfield 2 bytes. `FitsIffRoom` shows that only the resulting largest
payload matters (232, less 5 with a reply id and 12 for direct messages). Protobuf decoding is an
arbitrary predicate on byte strings. Times are integers.

## Model

| member | source | states |
|---|---|---|
| Tokens.TokenScanner.Next | src/pkg/channels/meshtastic/chunk.go:29-49 | the scanner yields the whitespace-separated tokens one after another and then stops at the end |
| Utf8.TextIsItsBytes | src/pkg/channels/meshtastic/chunk.go:142-151 | the sizes are those of real bytes: a text encodes into as many as `ByteLen` says, and they decode back to it |
| Tokens.TokensOfSpaced | src/pkg/channels/meshtastic/chunk.go:29-49 | the tokens of any text are what stands between its white space, of whatever kind and amount |
| Tokens.TokensAreClean | src/pkg/channels/meshtastic/chunk.go:29-49 | every token is nonempty and holds no whitespace |
| Tokens.TokensOfJoin | src/pkg/channels/meshtastic/chunk.go:29-49 | splitting the joined tokens gives the tokens back |
| Tokens.NormalizedKeepsInk | src/pkg/channels/meshtastic/chunk.go:29-49 | normalising keeps exactly the non-space characters, in order |
| Chunker.FitsIffRoom | src/pkg/channels/meshtastic/chunk.go:58-69 | the physical test is a bound on the payload length: 1 to 232 bytes, 227 with a reply id, 220 direct, 215 with both |
| Chunker.PrefixBytes | src/pkg/channels/meshtastic/chunk.go:51-56 | the bytes taken by the visible prefix |
| Reassembly.PrefixIsRead | src/pkg/channels/meshtastic/chunk.go:51-56 | a reader that parses the visible prefix finds the index first, then the total, then the body |
| Packing.NextIsLegal | src/pkg/channels/meshtastic/chunk.go:110-160 | a greedy chunk is part of one token within a frame, or several whole tokens within both limits |
| Packing.GreedyIsOptimal | src/pkg/channels/meshtastic/chunk.go:97-165 | no packing into legal chunks, under the same or tighter limits and with cuts anywhere, uses fewer chunks than the greedy one |
| Packing.TighterNeverFewer | src/pkg/channels/meshtastic/chunk.go:97-165 | tighter limits never give fewer chunks |
| Scan.LongestFit | src/pkg/channels/meshtastic/chunk.go:142-151 | the longest prefix, in whole runes, that fits the frame |
| Scan.SplitToken | src/pkg/channels/meshtastic/chunk.go:135-160 | hard-splitting hands out the greedy fragments, and stops at the limit, a refusal, or when no rune fits |
| Scan.EmitCur | src/pkg/channels/meshtastic/chunk.go:80-96 | hands out the gathered chunk; its test for a count above max is never true, as every caller has room |
| Scan.ScanChunks | src/pkg/channels/meshtastic/chunk.go:73-166 | hands out exactly the first chunks of greedy packing, and reports the count, "more than max", or why it stopped |
| Numbering.LargerTotalNeverFewer | src/pkg/channels/meshtastic/chunk.go:182-201 | numbering out of a larger total never needs fewer chunks, for any totals |
| Numbering.PrefixLeavesRoom | src/pkg/channels/meshtastic/chunk.go:152-154 | one rune always fits behind a prefix with one-digit numbers |
| Numbering.ChunkCount | src/pkg/channels/meshtastic/chunk.go:168-202 | never fails for a positive soft target; finds the least total that gives as many chunks as it names, or reports oversized exactly when none within 8 does; at most two numbered scans |
| Reassembly.ChunksRejoin | src/pkg/channels/meshtastic/chunk.go:84-96 | reading the numbers off and rejoining, a space only at cuts between tokens, gives the normalised text |
| Reassembly.PayloadsStrip | src/pkg/channels/meshtastic/chunk.go:88-93 | a reader of the k-th payload finds the number k, the total, and the k-th chunk; a lone payload is the chunk |
| Reassembly.PayloadFits | src/pkg/channels/meshtastic/chunk.go:110-159 | every payload fits its frame; one longer than the soft target is part of one token |
| Reassembly.CutMeansTooLong | src/pkg/channels/meshtastic/chunk.go:126-160 | a token is cut only if it does not fit a frame behind the prefix of the chunk it would start |
| Sending.EarlyExitRefines | src/pkg/channels/meshtastic/chunk.go:80-104 | a scan with limit max counts min(n, max+1) and emits the first min(n, max) chunks of the unlimited run |
| Sending.EmittingScan | src/pkg/channels/meshtastic/send.go:70-77 | the emitting pass agrees with the count: it emits exactly n payloads unless one is refused |
| Sending.NoticeChunks | src/pkg/channels/meshtastic/send.go:61-65 | the oversize notice takes one packet exactly when soft is at least 37, and at most seven |
| Sending.Send | src/pkg/channels/meshtastic/send.go:54-88 | sends the least consistent numbering or the notice, at most 8 payloads, each with its own number; the ids are those of an in-order prefix and nothing follows the first failure |
| Acceptance.PendingTable.RecordQueueStatus | src/pkg/channels/meshtastic/inbound.go:54-78 | the effect of a QueueStatus on the free count and on the open record it names |
| Acceptance.PendingTable.RecordPacketControl | src/pkg/channels/meshtastic/inbound.go:80-127 | the effect of a routing error or a local echo of this attempt |
| Acceptance.PendingTable.RecordNotification | src/pkg/channels/meshtastic/inbound.go:198-210 | the effect of a duty-cycle notice on the open record and on a recovery under way |
| Acceptance.PendingTable.FailPending | src/pkg/channels/meshtastic/inbound.go:155-166 | every open record of the attempt gets the verdict, others keep theirs, the free count is forgotten |
| Acceptance.PendingTable.Register | src/pkg/channels/meshtastic/send.go:221-230 | a new record under a free id, or a collision and no change |
| Acceptance.PendingTable.RemoveAcceptance | src/pkg/channels/meshtastic/send.go:324-332 | an undecided record gets the fallback verdict; the record leaves the table and its verdict is returned |
| Acceptance.PendingTable.RemoveExact | src/pkg/channels/meshtastic/send.go:334-340 | the record leaves the table only if it is the one under its id |
| Acceptance.PendingTable.QuietAccept | src/pkg/channels/meshtastic/send.go:356-361 | after the quiet window a record that is open and confirmed is accepted as of its status, and any other is left alone |
| Acceptance.StatusMeans | src/pkg/channels/meshtastic/inbound.go:54-78 | the verdict a QueueStatus gives: confirmation, queue full only with code 32 and none free, permanent otherwise |
| Acceptance.PacketMeans | src/pkg/channels/meshtastic/inbound.go:80-127 | the verdict a routing error of the own node gives, and when a local echo confirms |
| Progress.QuietWindowAccepts | src/pkg/channels/meshtastic/send.go:342-388 | from every reachable wait with a Res-0 status, no verdict and the grace over, the record is accepted as of that status and its id returned, hearing nothing more |
| Progress.ConfirmedIsReturned | src/pkg/channels/meshtastic/send.go:255-264 | from every reachable wait whose record is accepted, its id is returned |
| Progress.AcceptedDespiteError | src/pkg/channels/meshtastic/send.go:237-245 | a record accepted before its transport call failed is returned as sent |
| Progress.SilenceEndsTheSend | src/pkg/channels/meshtastic/send.go:366-386 | a wait that ends without a verdict ends the Send as ambiguous |
| Progress.BytesOutEndTheSend | src/pkg/channels/meshtastic/send.go:237-253 | a transport failure with bytes out ends the Send as ambiguous |
| Progress.RateIsRetried | src/pkg/channels/meshtastic/send.go:271-273 | a rate rejection can be retried as soon as the send delay has passed |
| Progress.QueueFullIsRetried | src/pkg/channels/meshtastic/send.go:265-270 | a queue-full rejection can be retried once the queue has room and the send delay has passed |
| Progress.ZeroBytesAreRetried | src/pkg/channels/meshtastic/send.go:249-252 | a submission of which no byte went out can be retried |
| FreshIds.RetriesHaveNewIds | src/pkg/channels/meshtastic/send.go:305-322 | in every run a retry carries another packet id than the try before it |
| Acceptance.EitherOrderAccepts | src/pkg/channels/meshtastic/inbound.go:63-69 | a Res-0 status and a valid echo lead to acceptance in either order |
| Soundness.VerdictsAreSound | src/pkg/channels/meshtastic/inbound.go:54-153 | in every run each verdict is justified by the messages heard; accepted means a Res-0 status, no rejection before, and a valid echo or the grace elapsed |
| Soundness.VerdictsAreFinal | src/pkg/channels/meshtastic/inbound.go:147-153 | a decided record never changes again in any run |
| Soundness.AtMostOnePending | src/pkg/channels/meshtastic/send.go:220-257 | the table holds at most one record, and none when no Send runs |
| Retries.NoUnsafeResubmission | src/pkg/channels/meshtastic/send.go:183-290 | in every run, of two submissions of one chunk the earlier put no byte on the wire or was turned down with queue full, rate limit or duty cycle |
| Retries.SendReportsAccepted | src/pkg/channels/meshtastic/send.go:67-88 | the result lists exactly the accepted submissions, by chunk; no chunk is submitted before all before it are accepted |
| Delivery.MessageDelivered | src/pkg/channels/meshtastic/send.go:54-88 | in every run of a Send over a plan, the accepted texts are the first payloads, each once, in order, with the ids of the result; if all are accepted, they rejoin to the message |
| Delivery.SendAgrees | src/pkg/channels/meshtastic/send.go:67-88 | when a Send is over, `Sending.Send` with the verdicts of its submissions for answers returns the ids of the run, fails exactly if a chunk was left unaccepted, and offers every chunk that was submitted |
| PacingRules.SendDelayIsKept | src/pkg/channels/meshtastic/send.go:172-181 | in every run and across Sends, a submission comes at least the send delay after every earlier accepted, queue-full, rate or duty outcome |
| PacingRules.HeldBackIff | src/pkg/channels/meshtastic/send.go:258-289 | the pacing time is moved to or past a submission exactly by those outcomes |
| PacingRules.IntervalBrokenIff | src/pkg/channels/meshtastic/send.go:172-181 | after every reachable verdict, some continuation submits again sooner than the send delay after this submission exactly if the outcome is none of those and the delay has not passed yet |
| PacingRules.NoDelayAfterRefusal | src/pkg/channels/meshtastic/send.go:282-283 | a run with two submissions at the same time, the first taken by the transport and refused for good |
| Recovery.RetriesWaitForRecovery | src/pkg/channels/meshtastic/send.go:265-281 | when the sender last looked before a retry, the free count was known and positive, from a report since the queue-full rejection that no later report or failed attempt had replaced; after a duty-cycle rejection, the deadline of the minutes it last saw had passed |
| Recovery.DeadlineMeaning | src/pkg/channels/meshtastic/send.go:450-459 | the deadline is the reported minutes, one hour at most and the send delay at least |
| Recovery.SeesRoom | src/pkg/channels/meshtastic/send.go:399-406 | a known positive free count was reported after the rejection, and no later report or failed attempt has replaced that report |
| Notices.AllReportedIsWaitedFor | src/pkg/channels/meshtastic/send.go:433-482 | in every run a duty-cycle retry waits out all minutes reported by the last look, unless the latest notice asked for longer and was dropped |
| Notices.RetriesTooSoonIff | src/pkg/channels/meshtastic/send.go:433-482 | at every reachable last look, some continuation retries before all reported minutes have passed exactly if they have not passed yet and a longer latest notice was dropped |
| Notices.SkippingIsHarmlessIff | src/pkg/channels/meshtastic/inbound.go:198-210 | ignoring the notices between verdict and recovery gives the same minutes exactly unless the latest notice is one of them and differs |
| Notices.NoticeIsDropped | src/pkg/channels/meshtastic/inbound.go:198-210 | a run: five minutes, refusal, fifty minutes before recovery begins, retry after five |
| Cache.BoundedCache.Contains | src/pkg/channels/meshtastic/cache.go:38-47 | true exactly if the key is among the last capacity insertions and younger than the time to live |
| Cache.BoundedCache.Add | src/pkg/channels/meshtastic/cache.go:49-66 | inserts exactly when the key is not live |
| Cache.BoundedCache.SeenOrAdd | src/pkg/channels/meshtastic/cache.go:68-86 | answers whether the key was live, and inserts it if not |
| Cache.BoundedCache.Len | src/pkg/channels/meshtastic/cache.go:88-92 | the map never exceeds the capacity |
| Cache.BoundedCache.Any | src/pkg/channels/meshtastic/cache.go:94-107 | true exactly if some live key matches, whatever the order of the map |
| Cache.EvictionSpares | src/pkg/channels/meshtastic/cache.go:57-62 | a stale ring slot never evicts a key that was added again |
| Cache.InsertedComplete | src/pkg/channels/meshtastic/cache.go:55-65 | after an insertion no key that is still live has been lost |
| Cache.ReinsertedLater | src/pkg/channels/meshtastic/cache.go:68-86 | between two insertions of a key, the time to live passed or capacity other insertions were made |
| Serial.StreamIsReadBack | src/pkg/channels/meshtastic/serial.go:144-228 | from frames in noise, among garbled, oversize and broken-off frames, exactly the good bodies are received, in order |
| Serial.FrameIsReceived | src/pkg/channels/meshtastic/serial.go:144-228 | the wire format as read: 0x94, 0xc3, the length with its high byte first, the body |
| Serial.OddLengths | src/pkg/channels/meshtastic/serial.go:196-210 | length zero is an error, over 512 is skipped |
| Serial.CallByCall | src/pkg/channels/meshtastic/serial.go:144-228 | successive calls continue where the last one stopped |
| SerialPort.ReceiveFromRadio | src/pkg/channels/meshtastic/serial.go:144-229 | one call returns the first body that decodes, or the first error, after exactly the reads of the reference reader, unless a read timeout was refused; in mid-frame the inter-byte timeout is set |
| SerialPort.WriteAll | src/pkg/channels/meshtastic/serial.go:122-142 | what goes out is a prefix of the frame; it succeeds, with all of it out, exactly if no write needed fails, takes nothing or is cancelled |
| SerialPort.SendToRadio | src/pkg/channels/meshtastic/serial.go:95-120 | success means the whole frame is out, which is 0x94, 0xc3, the length with its high byte first, and the payload, and comes whenever the device lets it; an error is zero-byte exactly when nothing is out |
| SerialPort.SentIsReceived | src/pkg/channels/meshtastic/serial.go:95-106 | frames written one after another are read back as the payloads |
| Numerals.FixedIsPadded | src/pkg/channels/meshtastic/inbound.go:348 | eight fixed digits are the number in base sixteen behind zeros |
| Routes.DirectRouteIff | src/pkg/channels/meshtastic/send.go:105-134 | a ChatID routes to a node exactly if it is that node's printed id, and the node is neither zero nor broadcast |
| Routes.DirectRouteInFull | src/pkg/channels/meshtastic/send.go:117-134 | the whole direct route: the given channel index if it is a number up to seven, else the first configured channel, else refusal |
| Routes.EveryRoute | src/pkg/channels/meshtastic/send.go:103-147 | nothing but printed node ids and group ids is routed |
| Routes.PrintedAddresses | src/pkg/channels/meshtastic/inbound.go:348 | node ids are eight hexadecimal digits behind an exclamation mark |
| Routes.ReplyIDInFull | src/pkg/channels/meshtastic/send.go:90-101 | the message id is read unless blank, then the older field; blank means no reply; anything else has to be a number of 32 bits above zero |
| Routes.GroupRouteIff | src/pkg/channels/meshtastic/send.go:135-145 | a ChatID routes to a group exactly if it is the printed id of a channel in 0..7 |
| Routes.ReplyReturns | src/pkg/channels/meshtastic/inbound.go:298-321 | parsing the printed origin of a packet recovers sender or group, channel and packet id |
| Inbound.Inbox.HandleInboundPacket | src/pkg/channels/meshtastic/inbound.go:213-328 | a packet that passes all filters, and was not received from that sender under that id among the last thousand and within five minutes, is recorded, and queued with its content, channel and kind if there is room; nothing else changes the queue |
| Inbound.Inbox.Dispatch | src/pkg/channels/meshtastic/meshtastic.go:337-349 | the dispatcher takes the oldest prompt from the queue |
| Inbound.QueuedAtMostOnce | src/pkg/channels/meshtastic/inbound.go:294-327 | between two prompts for the same sender and packet id, five minutes passed or 1000 others were received |
| Inbound.DirectIsTaken | src/pkg/channels/meshtastic/inbound.go:213-292 | a direct packet is taken exactly if nothing rules it out |
| Inbound.GroupTriggers | src/pkg/channels/meshtastic/inbound.go:258-276 | for each group trigger, when a group packet is taken and when it is not |
| Inbound.AdmittedCanBeAnswered | src/pkg/channels/meshtastic/inbound.go:213-321 | an admitted packet came from another node while ready on a usable channel in 0..7, and its answer goes back there |
| Readiness.ReadinessHolds | src/pkg/channels/meshtastic/meshtastic.go:416-457 | ready exactly if a matching completion was heard since start or reboot, with the node, name and roles reported last by then, the node not zero; the watchdog runs exactly while not ready |
| Readiness.CompletionFailsIff | src/pkg/channels/meshtastic/inbound.go:19-40 | the handshake fails exactly on a matching completion while the node number reported last is zero or missing |
| Readiness.FailureLeavesNoneOpen | src/pkg/channels/meshtastic/inbound.go:155-166 | after failPending no registered record of the attempt is open |
| Lifecycle.Channel.ProcessEnvelope | src/pkg/channels/meshtastic/inbound.go:19-40 | the effect of a handshake envelope, and failure exactly on a completion without node number |
| Lifecycle.Channel.OneArrival | src/pkg/channels/meshtastic/meshtastic.go:416-457 | one turn of the loop; a reboot clears readiness and fails the attempt's records |
| Lifecycle.Channel.RunAttempt | src/pkg/channels/meshtastic/meshtastic.go:389-458 | the loop takes the arrivals in order, ends in the state of the handshake state machine, and stops early exactly at an arrival the attempt cannot survive; every reboot fails the open records |
| Lifecycle.Channel.TeardownAttempt | src/pkg/channels/meshtastic/meshtastic.go:537-541 | afterwards nothing is ready, and exactly the open records of the attempt have become ambiguous |

## Left out

- Invalid UTF-8: text is a sequence of Unicode scalar values, so the early refusal of other byte strings has no counterpart.
- The HTTP transport, opening, draining and closing the serial port, heartbeats: device and network I/O. The protocol only uses that a transport call succeeds, or fails with or without bytes written.
- Protobuf marshalling and the generated schema: replaced by a size function and a decoding predicate.
- Goroutines, Go channels and wait groups, `Start` and `Stop`: the protocol model interleaves critical sections instead; a wait may end at any time, so nothing is said about progress or about the 60 second acceptance timeout being reached.
- Mention and prefix matching, command filtering, sender allow-lists, the wording of duty notices, settings validation: their answers are inputs of the model.
- Randomness: a packet id is any non-zero number other than the previous one and the one pending; the extra check against recently sent ids is dropped, and ids are not claimed to be unique.
- Machine integers: generation numbers of the cache and byte counts are unbounded.
- Log output, prompt metadata other than the addresses, `suppress_errors`.
- VerdictsAreSound: a Res-0 status is not tied to the connection attempt, because `recordQueueStatus` does not look at it.
- NoUnsafeResubmission: relies on the transport telling truthfully that no byte was written; for the serial transport that is `SendToRadio`.
- ScanChunks: lengths are counted in UTF-8 bytes, but positions in characters instead of byte offsets.
