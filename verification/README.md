# Verified model of a WebTransport-over-HTTP/2 endpoint

A Dafny model of a Go endpoint for WebTransport over HTTP/2
(draft-ietf-webtrans-http2-15), with proofs about whole runs of it. It covers
send-side flow control, the capsule codec, the session demultiplexer and stream
lifecycle, the two receive buffers, and the Devious Baton exchange that runs on
top of a session.

`dafny verify dfyconfig.toml` checks everything.

## How it is built

Code that updates state in place is a class (`SendLimits.SendLimits`,
`ReceiveBuffer.StreamReceiveBuffer`, `DatagramBuffer.DatagramReceiveBuffer`,
`SessionObject.SessionState`, `BatonObject.BatonSession`). Each method is proved
to compute a function of the old abstract state; the theorems are about those
functions, over every sequence of steps. A step that is not possible in a state
leaves it unchanged, so the theorems quantify over all event sequences with no
side condition on which events may follow which. Integer widths are explicit:
numbers are unbounded, and every uint64 operation that could wrap says
`Wrap(...)`. Inductions are written out; no proof relies on automatic induction.

| file | contents |
|---|---|
| StreamIds.dfy | stream-ID bits (section 2.1 of RFC 9000) and the shared ID counter |
| SendLimits.dfy | flow.go: limits, lazy map of stream limits, reserve and refund, WT_MAX_* |
| Ledger.dfy | runs of split writes (reserve, then emit or refund) with grants arriving late |
| Wire.dfy | varints (section 16 of RFC 9000), capsule framing (section 3.2 of RFC 9297), capsule bodies |
| ReceiveBuffer.dfy, DatagramBuffer.dfy | the bounded FIFOs and the datagram wake-up protocol |
| Endpoint.dfy | one session: tables, read loop, opens, writes, closes, as functions |
| Session.dfy | the same session as an object, from raw bytes to state, and its loop as a run of the steps |
| Rows.dfy | every step seen from one stream ID; the table invariant |
| Demux.dfy | theorems about capsule traces of one endpoint |
| Answers.dfy | what each capsule and each call answers, told from the session's objects |
| SessionLedger.dfy | every run of a session is a run of the send ledger |
| Delivery.dfy, DatagramDelivery.dfy, Closing.dfy | two endpoints joined by two ordered channels: stream data, datagrams, and how sessions end |
| BatonCodec.dfy, BatonChain.dfy, Baton.dfy | baton messages, one chain, the exchange of both parties |
| BatonCredit.dfy | what flow-control credit the exchange needs, exactly, and exactly when it completes |
| BatonTrip.dfy | what a delivery of the exchange stands for: one message through two sessions and their stream buffers |
| BatonFailures.dfy, BatonFaultCredit.dfy | the exchange when capsule writes and FINs fail and read loops return under it, and its credit then |
| BatonSession.dfy | the baton session as an object, and its calls as runs of that exchange |

## Main results

- **End-to-end delivery** (`Delivery.EndToEndDelivery`): under any interleaving
  of both endpoints, what is read is a prefix of what was written, EOF means all
  of it, and whatever was written and finished arrives, EOF included, as long as
  the reader's loop runs. Datagrams come out in the order sent, with none made up
  (`DatagramDelivery.DatagramsInOrder`).
- **The send ledger balances** (`Ledger.LedgerBalances`) over all interleavings
  of split writes, and no refund is ever dropped. Every run of a session is such a
  run (`SessionLedger.SessionRunIsLedgerRun`), so the session's own writes are
  charged, and answered, exactly by what was granted and written
  (`SessionLedger.SessionBooks`, `SessionLedger.WriteAnswers`).
- **Demultiplexing is per stream** (`Demux.DemuxDependsOnProjection`,
  `Demux.NoiseIsIrrelevant`), also for the loop on raw bytes
  (`SessionObject.BytesDemux`).
- **Closing** (`Closing.RemoteErrorIsAuthentic`): a remote error is the first
  close that the other side announced.
- **The baton exchange** has a fixed shape, terminates and agrees on completion
  (`Baton.RunShape`, `Baton.RunTerminates`, `Baton.CompletionAgreement`). It
  completes in every run if and only if both sides were granted the closed-form
  credit and each side's messages fit the other's stream buffers
  (`BatonCredit.CompletesExactlyWhen`); its one deadlock is a chain that waits for
  a side whose read loop has returned (`Baton.SomeStepEnabled`).
- **Exact credit** (`BatonCredit.GrantsExactlyWhen`,
  `BatonFaultCredit.GrantsExactUnderFailures`): no run of the exchange, with or
  without connection failures, meets ErrSendLimit if and only if the peers
  granted the closed-form amounts, for any buffer sizes.
- **Failures under the exchange** (`BatonFailures.FailuresAreReported`): an open,
  a write or a FIN that fails is reported, by a side that then never completes. A
  read loop that returns is not reported: `BatonFailures.SilentExactlyWhen` says
  which sides then hang without a word.

Properties that one might expect but that hold only under a condition, which is
proved exact:

- Opening and raising a stream limit commute if and only if enforcement is
  already on (`SendLimits.OpenAndRaiseCommute`).
- Stream IDs fit a 62-bit varint in every run if and only if the two stream
  grants together are at most 2^60 (`Ledger.IdsFitExactlyWhen`); the code bounds
  each of them by 2^60 but both directions share one counter.
- A peer's unidirectional stream is offered for accept at most once if and only
  if the peer sends nothing on it after its FIN
  (`Demux.UniOfferedOnceExactlyWhen`): the entry is deleted at the FIN, and a
  later capsule makes a second stream of the same ID
  (`Demux.FinTwiceOffersTwice`).
- The two sides' close errors agree if and only if the closing side's error was
  set by a call with the words of the call that announced first
  (`Closing.CloseErrorsAgreeExactlyWhen`): writing the capsule and setting the
  error are separate sections, and two calls that overlap can pass each other in
  between, whatever they say (`Closing.RacingCallsDisagree`); calls that never
  overlap always agree (`Closing.SerialCallsAgree`).
- The baton exchange completes only if the messages fit: with the repository's
  default settings and 70000 bytes of padding the credit is there, but the
  64 KiB stream buffer ends the client's read loop, and in no run is either side
  ever done or has an error (`BatonCredit.PaddedExchangeStalls`).
- A lost connection is not always reported: a side whose read loop has returned
  hangs for ever if and only if it has no open and no write of its own to try
  (`BatonFailures.SilentExactlyWhen`, `BatonFailures.LostConnectionIsSilent`).

## Model

| member | source | states |
|---|---|---|
| StreamIds.IdFromClassifies | session.go:468-492 | an allocated ID is classified as ours and not the peer's, with the requested direction, inside its block of four |
| SendLimits.SendLimits.constructor | flow.go:27-48 | without a peer snapshot nothing is enforced and all counters are zero |
| SendLimits.SendLimits.AdoptPeerSendLimits | flow.go:54-64 | the snapshot becomes the limits and enforcement is on; usage is untouched |
| SendLimits.SendLimits.TrackSendStream | flow.go:70-77 | a stream the endpoint can send on gets its map entry, a peer's unidirectional one does not |
| SendLimits.SendLimits.AllocLocalStream | flow.go:82-108 | new state and answer of an open; a refused open changes nothing at all |
| SendLimits.SendLimits.EnsureStreamSendLimit | flow.go:110-121 | only a missing entry is filled in, with the SETTINGS value |
| SendLimits.SendLimits.ReserveSendData | flow.go:125-155 | verdict and new counters with uint64 arithmetic; a refused write charges nothing |
| SendLimits.SendLimits.RefundSendData | flow.go:157-173 | each counter goes down by the amount if its own guard holds |
| SendLimits.SendLimits.InitialStreamSendLimit | flow.go:178-186 | which SETTINGS value applies, by direction and initiator |
| SendLimits.SendLimits.RaiseMaxData | flow.go:248-257 | a lower value is refused, but switches enforcement on |
| SendLimits.SendLimits.RaiseMaxStreamData | flow.go:259-277 | compared with the entry, or with the SETTINGS value when there is none |
| SendLimits.SendLimits.RaiseMaxStreams | flow.go:279-299 | above 2^60 refused before anything changes; lower values refused |
| SendLimits.SendLimits.NextStreamID | session.go:479-492 | the ID from the counter, which advances by four modulo 2^64 |
| SendLimits.ReserveExact | flow.go:125-155 | within the grants, a write is admitted iff it fits whole in both, session limit checked first, and charged exactly |
| SendLimits.FreeWrites | flow.go:125-135 | an empty write, and any write before enforcement is on, is admitted and costs nothing |
| SendLimits.RefundExact | flow.go:157-173 | when both guards hold a refund takes back exactly the charge |
| SendLimits.CountedAlloc | flow.go:82-108 | refused iff the count is at the grant; otherwise one count, one fresh block of four IDs, counter at most 2^63, and the ID fits 62 bits iff fewer than 2^60 opens came before |
| SendLimits.CountedOthers | flow.go:110-173 | tracking, reserving, refunding and grants keep counter = 4 * opens and the count bounds |
| SendLimits.RaiseCurrent | flow.go:248-299 | a grant is adopted iff it does not decrease and is at most 2^60 for counts; it moves its own limit only and no usage |
| SendLimits.OtherOpsKeepCurrent | flow.go:66-121 | no other operation changes any limit in force: the lazy map refines a total function |
| SendLimits.EnsureAndRaiseCommute | flow.go:110-121 | filling in an entry and raising any stream's limit commute, answer included |
| SendLimits.OpenAndRaiseCommute | flow.go:66-121 | open-then-raise equals raise-then-open, state and answers, iff enforcement was already on |
| SendLimits.CapsuleActivatesCounting | flow.go:259-277 | the counterexample family: a capsule that switches enforcement on always makes the two orders differ |
| Ledger.RefundGuardsHold | flow.go:157-173 | both guards are true for every write in progress |
| Ledger.BooksReserve | flow.go:125-155 | a successful reserve keeps session total = sum of stream totals = emitted + pending |
| Ledger.BooksEmit | stream.go:66-82 | an emitted capsule moves its charge from pending to emitted and nothing else |
| Ledger.BooksRefund | stream.go:66-82 | a failed emit returns its charge to both counters |
| Ledger.RunKeepsInv | flow.go:125-173 | every run of opens, tracked peer streams, split writes, late grants, Close and the loop's return keeps the ledger invariant |
| Ledger.LedgerBalances | flow.go:125-173 | in every run dataSent is the sum of streamSent and equals emitted plus pending, per stream too, within all limits, no wrap, and every pending refund is exact |
| Ledger.GrantsInFlight | flow.go:203-299 | bytes and opens never exceed the highest grant issued, by the peer's SETTINGS field for that kind of stream or by capsule, however late it arrives; for sendable streams the value read is the lazy map's |
| Ledger.SettingsApply | flow.go:178-186 | which SETTINGS field governs a stream, by the two low bits of its ID and the role: uni, bidi_remote for our own, bidi_local for the peer's |
| Ledger.StreamIdsAllocated | flow.go:82-108 | over any run the counter is 4 * opens and at most 2^63; IDs strictly increase, are ours, have the requested direction, never a peer's |
| Ledger.LimitsNeverDecrease | flow.go:248-299 | no run lowers any limit, and once the read loop has returned none moves |
| Ledger.GrantAfterClose | session.go:226-232 | Close alone freezes nothing: a grant that the loop is inside of is still applied |
| Ledger.RefusedGrantIsFinal | flow.go:248-299 | a decreasing grant is the last one applied: no later event of any run changes a limit |
| Ledger.IdsFitExactlyWhen | flow.go:199-201 | all IDs of all runs fit 62 bits iff the uni and bidi grants sum to at most 2^60 |
| Ledger.CreditMonotonicity | flow.go:82-173 | a run that succeeds under one snapshot succeeds under any larger one with the same IDs, counters and capsules |
| Varints.DecodeEncode | stream.go:74-77 | varint decoding inverts encoding for every value below 2^62, whatever follows |
| Varints.VarintFormat | flow.go:232-246 | the format byte by byte (section 16 of RFC 9000): length from the two high bits, value most significant byte first, too few bytes refused |
| Varints.ShortestVarint | stream.go:74-77 | a value is written in the shortest of the four lengths |
| Varints.DecodeTruncated | flow.go:232-246 | no proper prefix of a varint decodes |
| Varints.FieldsRoundTrip | flow.go:232-246 | any number of varints is read back, and what trails them is ignored |
| Varints.FieldsTruncated | flow.go:232-246 | a body cut anywhere inside its varints is refused |
| Varints.ReadCapsuleVarints | flow.go:232-246 | the loop reads the first n varints of the body, or fails |
| Capsules.CloseRoundTrip | session.go:411-421 | a close payload parses back to its 32-bit code and message iff the message has at most 1024 bytes |
| Capsules.CloseFormat | session.go:177-181 | the close payload is the code in four bytes, most significant first, then the message |
| Capsules.TypeCodes | capsule.go:10-33 | the type code of each capsule, as a number |
| Capsules.BodyFields | stream.go:74-77 | the fields of each capsule body, in the order sent |
| Capsules.MalformedExactlyWhen | session.go:246-407 | exactly which bodies cannot be used, by type code, and which types are set aside unread |
| Capsules.InterpretEncoded | session.go:246-407 | every capsule body the endpoint writes is read as the capsule it was |
| Capsules.WireRoundTrip | session.go:226-267 | any sequence of capsules survives encoding, concatenation and parsing |
| Capsules.ParseIncrementally | session.go:226-245 | arbitrary bytes, split anywhere, give the same capsules and remainder |
| Capsules.TruncationYieldsPrefix | session.go:226-245 | a connection cut at any byte yields a prefix of the capsules sent |
| BatonCodec.CodecRoundTrip | internal/baton/codec.go:12-35 | decode inverts encode for every padding and byte, and rejects every proper extension |
| BatonCodec.CodecRejectsPrefixes | internal/baton/codec.go:19-35 | every proper prefix of a message is rejected |
| BatonCodec.DecodesExactlyWhen | internal/baton/codec.go:19-35 | an input decodes iff its length is varint + padding + 1, so padLen+1 never passes by overflow; the parts are the input's |
| ReceiveBuffer.StreamReceiveBuffer.constructor | stream.go:158-162 | empty, open, with the given bound |
| ReceiveBuffer.StreamReceiveBuffer.Write | stream.go:164-178 | all of the bytes are appended, or the buffer is unchanged and the error says why |
| ReceiveBuffer.StreamReceiveBuffer.Read | stream.go:180-194 | one pass of the loop: the oldest bytes go to the front of the caller's slice and leave the buffer, the rest of the slice is untouched; EOF when closed and drained, else it would wait |
| ReceiveBuffer.StreamReceiveBuffer.Close | stream.go:196-204 | closed, contents kept |
| ReceiveBuffer.BufferIsBoundedFifo | stream.go:164-204 | for any operations, bytes read then bytes buffered are all bytes accepted, the bound holds, and EOF means everything was read |
| ReceiveBuffer.AnswersFromHistory | stream.go:164-194 | exactly when a write is accepted, a read blocks, is at EOF, and which bytes it gets, told from the history |
| ReceiveBuffer.SleepingReaderWakes | stream.go:180-194 | no lost wake-up: a reader in Wait has nothing to read and no close to see; otherwise it is awake and its next step returns the next bytes or EOF |
| ReceiveBuffer.ReadAtOnce | stream.go:180-194 | a new read returns at once with the next bytes or EOF if there is either, and waits otherwise; a refused write wakes nobody |
| DatagramBuffer.DatagramReceiveBuffer.constructor | datagram.go:21-26 | empty, open, no token |
| DatagramBuffer.DatagramReceiveBuffer.Write | datagram.go:28-48 | a datagram is queued whole and a token left, or dropped without a trace |
| DatagramBuffer.DatagramReceiveBuffer.Poll | datagram.go:50-72 | one pass of the reader: oldest message, EOF when closed and empty, else wait |
| DatagramBuffer.DatagramReceiveBuffer.Close | datagram.go:74-86 | closed once, with a token left for the reader |
| DatagramBuffer.DatagramsAreBoundedFifo | datagram.go:28-72 | over every interleaving returned then queued messages are the accepted ones in order; the byte counter is exact and bounded |
| DatagramBuffer.SleepingReaderWakes | datagram.go:28-86 | a reader asleep on a non-empty or closed buffer always has a token, and its next two steps return the oldest message or EOF |
| DatagramBuffer.ReadAtOnce | datagram.go:50-72 | a new read returns at once with the oldest message or EOF if there is either, and waits otherwise; cancellation ends the wait |
| DatagramBuffer.AnswersFromHistory | datagram.go:28-72 | exactly when a datagram is kept and which one is returned, told from the history |
| Rows.HandleTablesRow | session.go:260-341 | a stream capsule acts on its own stream only, as a single-stream machine does |
| Rows.IncomingRow | session.go:246-407 | any capsule read leaves every other stream's tables, objects and offers as they were |
| Rows.LocalStepMoves | stream.go:66-139 | any API call changes at most one stream, by a write, FIN, read, close or open of it, with the matching capsule |
| Rows.StepKeepsTables | session.go:279-341 | any call and any peer capsule keep the table invariant |
| SessionObject.SessionState.constructor | session.go:110-139 | a new session, with limits adopted when there is a peer snapshot |
| SessionObject.SessionState.SetCloseErr | session.go:190-196 | the first error stays |
| SessionObject.SessionState.SetCloseReason | session.go:198-204 | the first reason stays |
| SessionObject.SessionState.Close | session.go:158-165 | stopped and datagram delivery closed, once |
| SessionObject.SessionState.ReceiveData | stream.go:97-128 | data goes to its buffer or is discarded when closed locally; an overflow ends the read loop; FIN closes the buffer |
| SessionObject.SessionState.EnqueueIncoming | session.go:438-454 | with room in the queue of sixteen the stream is offered once; a full queue blocks; a closed session may, and with a full queue must, drop it |
| SessionObject.SessionState.HandleNewPeerStream | session.go:289-304 | an unknown peer stream is registered, tracked, offered, then given the payload, in that order; it waits exactly when its queue is full and the session open |
| SessionObject.SessionState.HandleStreamCapsule | session.go:260-341 | routing by ID bits: to the known stream, to a new peer stream, or discarded when the unknown ID is ours; waits only for a new one |
| SessionObject.SessionState.HandleSendLimitCapsule | flow.go:203-230 | a WT_MAX_* capsule raises its limit or is refused |
| SessionObject.SessionState.HandleCapsule | session.go:246-407 | the new session state for every capsule type, or that it waits |
| SessionObject.SessionState.DeliverDatagram | session.go:456-460 | the payload is written to the datagram buffer, kept or dropped as a whole |
| SessionObject.SessionState.ReadLoop | session.go:226-409 | the loop over raw bytes has applied exactly the parsed capsules up to the one that ended it and has closed the session, unless it waits on a full accept queue |
| SessionObject.SessionState.OpenStream | session.go:494-518 | an open allocates, registers in the table of its direction, or fails with no effect |
| SessionObject.SessionState.AcceptStream | session.go:520-540 | the oldest stream of the kind leaves its queue |
| SessionObject.SessionState.SendDatagramCall | session.go:573-579 | one DATAGRAM capsule unless the session is stopped or the write fails |
| SessionObject.SessionState.CheckDatagrams | session.go:583-585 | one pass of the datagram reader through the session's buffer |
| SessionObject.SessionState.WriteStream | stream.go:66-82 | reserve, emit one capsule, refund when the emit failed; a closed stream writes nothing; an ID too large for a varint leaves the charge |
| SessionObject.SessionState.CloseSendStream | stream.go:130-139 | the flag is set and one FIN written, on the first close only |
| SessionObject.SessionState.ReadStream | stream.go:112-114 | the buffer's answer is returned, and bytes read move to what was taken |
| SessionObject.SessionState.CloseReceiveStream | stream.go:116-124 | a local close marks the half and closes its buffer |
| SessionObject.SessionState.CloseWithError | session.go:170-188 | a call that nothing interleaves with is its four sections in order: test, capsule, error, stop; refused without effect |
| SessionObject.ReadAllIsRun | session.go:226-409 | the loop on a connection's capsules is a run of the endpoint's steps, waiting included, so whole-run results cover it |
| SessionObject.BytesKeepTables | session.go:226-409 | whatever bytes arrive, the tables stay well formed |
| SessionObject.ReadAllIsTrace | session.go:226-409 | capsules that neither end the loop nor fill a queue leave what their trace leaves, then the session closes |
| SessionObject.BytesDemux | session.go:226-407 | two byte streams whose capsules agree on a stream leave that stream in the same state |
| Delivery.EndToEndDelivery | stream.go:66-139 | in every run of two endpoints: at most one receive half and one offer per ID, bytes read a prefix of bytes written, EOF without a local close only after all of them from a closed writer; and while the reader's loop runs, what has left the channel is taken or buffered, and a written FIN makes the drained half answer EOF |
| Delivery.DrainsToEOF | stream.go:180-194 | once the buffer is closed, reads of any size but zero take every byte in it and come to EOF |
| Delivery.ActKeepsOk | session.go:260-341 | each step of either endpoint keeps, for every stream, written = taken + buffered + in the channel |
| Delivery.ChannelSurvivesWire | stream.go:74-77 | what is under way in either direction parses from its bytes to the same capsules |
| DatagramDelivery.SessionDatagrams | session.go:342-354 | after any run a session's datagram buffer is what the buffer makes of the DATAGRAM capsules read, the reader's steps and a close at the first stop |
| DatagramDelivery.NewSessionDatagrams | session.go:129-132 | a new session's datagram buffer has the configured size, and over every run is the bounded FIFO of what was read |
| DatagramDelivery.DatagramsInOrder | datagram.go:28-72 | datagrams returned are a subsequence of those the other side sent; returned, queued and on their way are too, and are all of them while the session runs with an unbounded buffer |
| SessionLedger.SessionRunIsLedgerRun | stream.go:66-82 | every run of a session with a snapshot is a run of the ledger with the same limits, the same sendable streams and the bytes written as the bytes emitted |
| SessionLedger.SessionBooks | stream.go:66-82 | in every run each stream is charged exactly the bytes written on it, the session their sum, and every stream with a send half has its limit in the map |
| SessionLedger.LimitsInForce | flow.go:203-299 | in every run the limits are the highest values among the peer's SETTINGS fields and the capsules read, and no higher once the loop has returned |
| SessionLedger.WriteAnswers | stream.go:66-82 | in every run a write on an open stream is emitted iff it is empty or fits both what session and stream may still send; refused or failed ones leave every counter as it was |
| SessionLedger.OpenAnswers | session.go:494-518 | in every run an open succeeds iff the session runs and the count is below the limit, with a fresh ID of its direction in the right table and empty halves |
| Answers.LoopReturnsExactlyWhen | session.go:246-407 | for every capsule type exactly when the read loop returns, and exactly when it waits for one of sixteen places in an accept queue |
| Answers.LocalCloseDiscards | stream.go:97-102 | data for a half that is closed locally is thrown away and the loop goes on |
| Answers.LocalCloseDrains | stream.go:116-124 | after a local close a reader still gets what was buffered, then EOF |
| Answers.CallsReachTheirHalf | stream.go:112-124 | a read takes the next bytes of its own half, a close marks it, and no other half changes |
| Answers.AcceptAndCloseAnswer | session.go:158-165 | an accept takes the oldest stream, Close and the loop's deferred Close stop the session, and the loop tests stop first |
| Answers.OfferedLeads | session.go:438-454 | a new peer stream goes to the end of its kind's queue as a reference to its own half |
| Answers.AcceptedInOrder | session.go:520-540 | in every run streams of each kind are accepted in the order offered, none lost, at most sixteen waiting |
| Answers.EndsForAReason | session.go:226-394 | which error or reason each capsule and the connection's end record |
| Answers.FirstReasonStays | session.go:198-204 | in every run the first close reason stays |
| Answers.CloseWithErrorAlone | session.go:170-188 | the whole outcome of a call that nothing interleaves with: refusals, a failed write, success |
| Answers.CloseAndDatagramAnswers | stream.go:130-139 | a send half is closed once, with a FIN iff the connection takes it; a datagram goes out iff the session is not stopped |
| Answers.NothingEnforced | flow.go:82-90 | without a snapshot and before any limit capsule every open in a running session and every write on an open stream succeeds |
| Demux.TablesStayWellFormed | session.go:279-341 | in every run, against any peer: disjoint tables, right direction and initiator bits, stored ID = key, own IDs never offered, a bidi ID offered at most once |
| Demux.OpenNeverOverwrites | session.go:494-518 | a local open takes an ID that no table and no earlier object has |
| Demux.TraceProjects | session.go:246-407 | after any trace of capsules, opens and accepts a stream is where its own items alone put it |
| Demux.TraceIsRun | session.go:226-407 | a trace is a run of the endpoint's steps that tests stop before each capsule |
| Demux.DemuxDependsOnProjection | session.go:246-407 | traces that agree on a stream's own items give it the same bytes, FIN state, entries and offers |
| Demux.UniOfferedOnceExactlyWhen | session.go:306-341 | a peer's uni stream is offered at most once iff nothing follows its FIN |
| Demux.FinTwiceOffersTwice | session.go:321-336 | the failing input: the same FIN twice makes two receive halves of one ID, both offered |
| Demux.NoiseIsIrrelevant | session.go:246-407 | deleting PADDING, DATAGRAM, DRAIN and unknown capsules changes no stream, queue, limit or close state, nor whether the loop waits or returns |
| Closing.RemoteErrorIsAuthentic | session.go:170-196 | with any number of interleaved CloseWithError calls: a close error never changes, a remote one is the first close the other side announced, and an error in a session not yet stopped has a call or the loop about to stop it |
| Closing.CloseErrorsAgreeExactlyWhen | session.go:170-196 | the other side's own error equals it iff that error was set by a call with the first announcer's words; a single call that the loop does not overtake suffices |
| Closing.SerialCallsAgree | session.go:170-196 | if the closing side never has two calls in progress at once, both sides agree once the call is past setCloseErr, unless the read loop set an error first |
| Closing.RacingCallsDisagree | session.go:170-196 | for any two different calls a failing run: both pass the stop test and overtake each other; the peer reports the first call's words, the closer keeps the second's |
| Closing.RefusedGrantEndsLoop | session.go:379-394 | a decreasing grant ends the loop with a FlowControlError unless an error was set, and no later event of any run moves a limit |
| Closing.OneCapsuleAfterClose | session.go:226-234 | after Close the loop takes at most the capsule it is inside of; after that no limit moves in any run |
| BatonChain.ReceivedOk | internal/baton/session.go:196-264 | receiving a message keeps the chain's shape, and the baton read is zero exactly at the last hop |
| Baton.RunShape | internal/baton/session.go:196-264 | in every run hop k carries (b+k) mod 256, is the server's iff k is even, and k mod 6 fixes kind and initiator; a reply uses the stream it answers |
| Baton.CompletionAgreement | internal/baton/session.go:314-320 | active = count minus chains whose zero the side has seen, never negative; at 0 nothing is addressed to that side |
| Baton.WorkDecreases | internal/baton/session.go:196-264 | every step strictly decreases what is left: hops to go, and read loops that may still return |
| Baton.RunTerminates | internal/baton/session.go:196-264 | a failure-free run has at most 3 * count * (257-b) + 2 steps |
| Baton.SomeStepEnabled | internal/baton/session.go:170-264 | a chain that is not over has a step to take iff it does not wait for a side whose read loop has returned |
| Baton.CompleteRun | internal/baton/session.go:113-133 | when messages fit the stream buffers, a run that cannot go on sent exactly count * (257-b) messages and both counters are 0 |
| BatonCredit.GrantsSuffice | internal/baton/session.go:231-312 | with the closed-form grants no open or write of any run returns ErrSendLimit |
| BatonCredit.GrantsNecessary | internal/baton/session.go:231-312 | a failure-free run in which every chain got as far as it can was granted at least the closed forms |
| BatonCredit.GrantsExactlyWhen | internal/baton/session.go:231-312 | no run meets ErrSendLimit iff the grants are at least the closed forms for the last hop that is ever sent, which the buffer sizes decide |
| BatonCredit.CanFinish | internal/baton/session.go:196-264 | an exchange that cannot fail has a run in which every chain gets as far as it can |
| BatonCredit.CompletesExactlyWhen | internal/baton/session.go:113-133 | every run ends without failure and with every chain over iff the closed-form credit is granted and each side's messages fit the other's stream buffers |
| BatonCredit.OversizeStalls | stream.go:164-178 | with credit enough, a side that cannot hold the other's messages never completes; if it is the client, neither side is ever done or has an error |
| BatonCredit.PaddedExchangeStalls | session.go:77 | the failing input: default settings, one chain from 250, 70000 bytes of padding; credit is there, and every run hangs |
| BatonTrip.MessageArrivesWhole | internal/baton/session.go:170-183 | in every run of two sessions, for a stream that carries one message: a prefix of it is read, no proper prefix decodes, EOF means it decodes; and once it and its FIN have left the channel, reading on comes to EOF with all of it |
| BatonTrip.TakenInExactlyWhen | session.go:279-341 | a message to an empty receive half is taken in iff the stream buffer holds it; otherwise the read loop returns |
| BatonTrip.HandlerWaitsForEver | stream.go:180-194 | once the read loop has returned, a half without a FIN never comes to EOF in any run, so its reader is told nothing |
| BatonTrip.PartyOpensInTheSession | internal/baton/session.go:266-301 | the party's open is the session's, on the same limits, and fails in a closed session |
| BatonTrip.PartySendsInTheSession | internal/baton/session.go:243-312 | the party's send is the session's write of the whole message: same admission, same charge, refunded when the write fails and not when only the FIN does |
| BatonTrip.PartyIsSentTo | session.go:289-304 | a message on a new stream of the peer's is tracked as the read loop tracks it |
| BatonFailures.FailuresAreReported | internal/baton/session.go:314-346 | with writes and FINs failing, read loops returning and everything else going on: a side called fail iff its error is set, a side that failed never completes, done means the one or the other, and the counter stays exact |
| BatonFailures.LateErrorsIgnored | internal/baton/session.go:322-332 | fail ends the exchange and sets the error, except that an error after done is ignored |
| BatonFailures.SilentExactlyWhen | internal/baton/session.go:135-183 | a side whose read loop has returned and that is neither done nor failed hangs for ever iff it has no open and no write to try |
| BatonFailures.LostConnectionIsSilent | internal/baton/session.go:135-183 | the witness: a client whose connection is lost at once is never done and never has an error, whatever the server does |
| BatonFailures.SidesAtTheEnd | internal/baton/session.go:85-103 | where a run ends, a chain whose zero a side has not seen waits for a side that takes nothing in or has given it up, and that needs a returned loop or a failure |
| BatonFailures.ShapeSurvivesFailures | internal/baton/session.go:196-264 | the shape of every message holds in runs with failures too |
| BatonFailures.SmoothRunIsRun | internal/baton/session.go:196-264 | while nothing fails, the machine with failures is the exchange |
| BatonFaultCredit.GrantsSufficeUnderFailures | internal/baton/session.go:231-312 | with the closed-form grants no open or write is refused, whatever the connection does |
| BatonFaultCredit.GrantsExactUnderFailures | internal/baton/session.go:231-312 | no run with failures meets ErrSendLimit iff the grants are at least the closed forms |
| BatonObject.BatonSession.constructor | internal/baton/session.go:58-70 | active starts at count |
| BatonObject.BatonSession.CompleteOne | internal/baton/session.go:314-320 | one less active; done at zero or below |
| BatonObject.BatonSession.FailWith | internal/baton/session.go:322-346 | the exchange is done, and the error is set unless it was done before |
| BatonObject.BatonSession.SendOnNew | internal/baton/session.go:266-312 | a new stream of the right direction carries the encoded baton, or the session is closed or the open, the write or the FIN fails and the failure is recorded |
| BatonObject.BatonSession.SendNext | internal/baton/session.go:231-264 | the baton goes on a new stream, or back on the stream it came on, by the kind it came on |
| BatonObject.BatonSession.Setup | internal/baton/session.go:113-133 | the first baton is the configured one, or the drawn one but never 0; the loop sends it count times, stopping at the first failure, and the messages are returned |
| BatonObject.BatonSession.HandleIncoming | internal/baton/session.go:170-264 | decode, mirror in a datagram when the baton asks for it, then complete on zero, closing a peer's stream, or pass baton+1 on |
| BatonObject.MirroredHops | internal/baton/session.go:196-213 | which hops of a chain are mirrored, and by whom, as a condition on the hop's number |
| BatonObject.SetupIsRun | internal/baton/session.go:113-133 | the setup loop, whatever fails in it, is a run of the exchange with failures, and the messages it sent are the ones its chains have in flight |
| BatonObject.HandlerIsRun | internal/baton/session.go:170-264 | handling a message, whatever fails in it, is the run take in, open, send on its chain, and the message it sent is the one the chain has in flight |

## Left out

- HTTP/2 CONNECT, header negotiation, SETTINGS exchange, TLS, command lines and serving (client.go, server.go, cmd, internal/serve, internal/tlsx): input/output around the core.
- internal/echo, `WritePadding`, logging, flushing, error text and `CapsuleType.String`: they add only easy members.
- The internals of quic-go and the HTTP/2 fork: varints and capsule framing are modelled from section 16 of RFC 9000 and section 3.2 of RFC 9297.
- Sessions that a WT_MAX_* capsule activates later: their earlier opens and writes are uncounted, so the Ledger and BatonCredit theorems are about sessions built with a peer snapshot. `SendLimits.OpenAndRaiseCommute` states where they differ.
- Delivery.EndToEndDelivery: the shared ID counter must not wrap, which holds with a peer snapshot, and without one for runs of fewer than 2^62 actions; the same holds for Demux.TablesStayWellFormed.
- Stream objects are values found by ID and generation, not pointers; races on the unlocked maps and `closed` flags, and several concurrent readers of one buffer, are not modelled; the flag and the buffer of ReceiveStream.Close change in one step. Each mutex-protected section is one step; a call's test of `stop` is a step apart where another section follows it.
- ReceiveBuffer.StreamReceiveBuffer.Read: one pass of the loop, answering `Blocked` where the code waits; waiting and waking are steps of the machine that SleepingReaderWakes is about.
- DatagramBuffer.DatagramReceiveBuffer.Poll: one pass of the read loop through the critical section; waiting, waking and cancellation are steps of the machine that SleepingReaderWakes is about.
- SessionObject.SessionState.WriteStream: a stream ID of 2^62 or more makes the varint library panic; the model keeps the charge made before and does not model the panic. The write is one step; interleavings of its reserve and emit are in Ledger.
- SessionObject.SessionState.CloseSendStream: the panic on a stream ID of 2^62 or more is not modelled; the flag is set and nothing is written.
- SessionObject.SessionState.ReadLoop: it records the connection-end reason also when the bytes stop inside a capsule that was being read, where the code returns without one; the reason is only logged. It runs without an application beside it and stops where the code would wait on a full accept queue; calls between capsules, and the accept that ends the wait, are in the steps of Endpoint, which Delivery and Closing run.
- SessionObject.SessionState.ReadStream: a read that would wait answers `Blocked`.
- Whether `Accept*` takes a queued stream or the closed `done` channel; for the read loop's own select, the choice of a closed session is the input `doneWins`.
- BatonObject.BatonSession.HandleIncoming: the datagram mirror is an output; its receipt, which only checks that it decodes, is not modelled. Cancellation and teardown after `done` are not modelled either.
- BatonCredit.GrantsSuffice: its exchange stops at the first failure, and a side whose read loop has returned opens nothing; BatonFaultCredit.GrantsSufficeUnderFailures is the statement for runs that go on and that try such opens.
- BatonCredit.CompletesExactlyWhen: about the steps of the exchange. A side that is done tears its session down, which can end the other side's read loop before the last stream is accepted; in BatonFailures that is the turn `LoopEnds`, and what follows from it is stated there.
- BatonTrip.MessageArrivesWhole: the exchange takes a message in as one step; BatonTrip proves what that step stands for, but the parties are not run over the two sessions' own steps.
- SessionLedger.SessionBooks: writes are shorter than 2^63 bytes and grants below 2^62, as Go slices and varints are. A stream ID of 2^62 or more is left out of the byte count: a charge for it is made before the varint library panics.
- SessionObject.SessionState.CheckDatagrams: one pass of the reader; its waiting, waking and cancellation are steps of the datagram buffer's machine.
- WT_RESET_STREAM, WT_STOP_SENDING and the blocked capsules: the code does not act on them and the model reads them as unknown.
- Real time and context deadlines, apart from the cancellation step of the datagram reader.
