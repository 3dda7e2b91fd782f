# reactor-webrtc in Dafny

A model of the parts of reactor-webrtc that hold protocol and bookkeeping
logic, with proofs about every input, every run and every interleaving.

* **Chunked data channels** (`frame`, `send`, `recv`, `transport`). A message
  becomes frames of one header byte and a payload. `IsFraming` states the wire
  format without an algorithm, and the queue's frames are shown to be its only
  instance. Queue, in-order wire and reassembler, driven by any sequence of
  pushes, frame takes, arrivals and closes, refine a plain FIFO of messages.
* **The pump** (`pump`, `pump_progress`, `channel`). `ChannelCore::pump` with any
  number of concurrent calls, the try-lock and `pump_again` protocol, the cached
  buffered amount, and the native low-threshold callback: no wakeup is lost, and
  the queue can be emptied from every reachable state.
* **Timing totals** (`chunking_times`, `timed_queue`). The running totals equal
  sums over a ledger of the events, and driven as a channel drives them, with
  late sends, refused frames and clears in two steps, they mean what they are
  named for.
* **Negotiation** (`text`, `sdp`, `dc_chunking`, `apply_threads`, `agreement`,
  `agreement_limits`).
  The SDP attribute with real line splitting and decimals; the settle-once
  state; record, apply, undo under one lock from many threads; and two peers
  exchanging descriptions under glare, rollback, rejection, timeout, delay and
  loss, where an answer may be created across an apply.
* **Encoder-slot registry** (`registry`, `registry_store`, `registry_threads`,
  `registry_progress`, `registry_results`, `registry_has_custom`,
  `registry_succession`). The method bodies as a class, and a machine in which any number of threads take and release the `pending` and
  `assigned` locks and the callback locks exactly where the program does.
* **Wire formats and correlation** (`metadata`, `sender_meta`, `class_file`,
  `codecs`). The frame-metadata trailer over protobuf, the 300-entry sender map
  and its compare-and-swap key allocator, the class-file reader of the Android
  check, and codec preference and locking.

`dafny verify dfyconfig.toml` checks everything.

## How the source is read

* An object whose methods overwrite its fields is a class here, and each method
  is proved against a function of the old state. The machines run those same
  functions, so a theorem about runs is a theorem about what the classes
  compute. Interleavings split a method at every lock and every shared access.
* libwebrtc is nondeterministic: it may accept, reject or time out any
  description its signalling state (section 3.2 of RFC 8829) allows, drain its
  buffer at any moment, refuse a frame, and call back late.
* `Instant` is a natural number of nanoseconds and every `f64` sum is an exact
  integer. Byte counts are unbounded integers where the program's own limits
  keep them small; the truncations that matter (`as u32` of the trailer length,
  ten-byte varints, i64 division towards zero, the u64 and u32 bounds of the SDP
  parser) are written out.
* The trailer's message is decoded by the prost library, which is not part of
  the repository. Its rules are those of the protobuf encoding specification,
  with prost's checks: ten-byte varints, 32-bit keys, tag 0 refused, a known tag
  with another wire type refused, unknown fields and groups skipped, a hundred
  levels of nesting.

## What turned out not to hold

* `crates/reactor-webrtc/src/dc_chunking.rs:208-214` says that after an answer
  timed out and was rejected later, a retried round declares as the lost one
  did, and lines 290-293 say that only an answer losing the attribute on the way
  can make the ends disagree. Two runs in which nothing is lost or rewritten
  settle wrongly. In `AgreementLimits.FreshAnswerAfterTimeoutDisagrees`
  the timed-out answer consumed `pending`, so the one created in its place does
  not declare, and one end chunks alone. In
  `AgreementLimits.OverlappingAnswerDisagrees` nothing times out: an answer is
  created while a rollback is recorded that libwebrtc then rejects, and neither
  end chunks though both take part. A remote offer is said
  to stand at an end until that end answers it or it is rolled back remotely, a
  local one until it is rolled back locally, which is how `pending` and
  `local_offer_declared` are kept.
  * Where both ends take part, the exact condition for what each knows and tells
    the other is `Agreement.SoundIffCareful`: an answer is finished only while the
    offer stands and no apply under way takes it away, and takes effect, or stands
    after a timeout, only while its offer does. Runs that keep to it agree
    (`Agreement.SettledEndsAgree`); runs without a timeout in which no answer is
    created across an apply of the same end always do
    (`Agreement.SettledEndsAgreeInOrderlyRuns`). Where an end takes no part no
    condition is needed (`Agreement.WithoutAnEndNothingIsAgreed`).
  * What breaking it costs: an answer that takes effect, or stands, without its
    offer settles that end wrongly at once
    (`AgreementLimits.CarelessVerdictSettlesWrong`). One finished out of sight of
    its offer can mislead the other end, careful as everyone is from then on,
    exactly if that end has not settled and libwebrtc can still be brought to
    accept an answer there
    (`AgreementLimits.CarelessAnswerMisleadsTheUnsettled`). An end that settled
    rightly can no longer be led astray (`AgreementLimits.SettledForGood`).
* `has_custom` may answer no while some custom slot exists at every moment of the
  call, if the ones there from the start are retracted after another was added to
  the list already scanned: `RegistrySuccession.HasCustomMissesASuccession`, from
  every registry that holds a custom slot and has no call under way. A caller is
  certain of a yes for a slot whose track is not retracted before the answer
  (`RegistryHasCustom.AnAttachedSlotIsSeen`), and for a set of tracks that stay
  this is the exact condition, whatever calls are under way, unless one is just
  adding a custom slot for such a track:
  `RegistrySuccession.CertainIffASparedSlotExists`.
* After a clear the timing totals of messages may still move, against the comment
  at `crates/reactor-webrtc/src/chunking_times.rs:180`: the last frame libwebrtc
  had already is counted, and a send let in before the close and queued since
  lends it its stamp. `TimedQueue.ClearedMessagesAddNothing` is the exact
  condition; at most one message is ever counted so.
* A message whose protobuf encoding has 2^32 bytes or more does not survive the
  trailer; `Metadata.TrailerRoundTrip` is an equivalence.

## Model

| member | source | states |
|---|---|---|
| Frame.DecodeInvertsEncode | crates/reactor-webrtc-dc-chunking/src/frame.rs:33-50 | A byte decodes to a header exactly when it is that header's encoding; every other byte is an unknown version. |
| Send.FramesAreTheOnlyFraming | crates/reactor-webrtc-dc-chunking/src/send.rs:202-225 | The frames of a message are in the wire format (contiguous, typed, full but for the last, payloads adding up), and no other sequence of frames is. |
| Send.SingleFrameIffFits | crates/reactor-webrtc-dc-chunking/src/send.rs:202-225 | A message is one frame exactly when it fits beside the header. |
| Send.SendQueue.constructor | crates/reactor-webrtc-dc-chunking/src/send.rs:154-168 | A queue of a valid configuration starts empty. |
| Send.SendQueue.Push | crates/reactor-webrtc-dc-chunking/src/send.rs:175-197 | Appends the message's frames to what is still to be sent, or refuses with the first limit passed and changes nothing. |
| Send.SendQueue.NextFrame | crates/reactor-webrtc-dc-chunking/src/send.rs:199-225 | Takes exactly the first frame still to be sent, below the high-water mark only. |
| Send.SendQueue.Queued | crates/reactor-webrtc-dc-chunking/src/send.rs:227-230 | The counter is the payload of the frames still to be sent. |
| Send.SendQueue.IsEmpty | crates/reactor-webrtc-dc-chunking/src/send.rs:232-234 | True exactly when no frame is left. |
| Send.SendQueue.MidMessage | crates/reactor-webrtc-dc-chunking/src/send.rs:236-240 | True exactly when the last frame handed out promised more. |
| Send.SendQueue.Clear | crates/reactor-webrtc-dc-chunking/src/send.rs:242-246 | Nothing is left to send and nothing half sent. |
| Send.QueueStep | crates/reactor-webrtc-dc-chunking/src/send.rs:202-225 | Advancing the head's offset, and popping it at its end, removes exactly the first frame and its payload bytes from what the queue stands for. |
| Recv.Reassembler.constructor | crates/reactor-webrtc-dc-chunking/src/recv.rs:31-40 | A reassembler starts between messages. |
| Recv.Reassembler.Push | crates/reactor-webrtc-dc-chunking/src/recv.rs:42-74 | Answers every frame as a receiver that kept every byte of the message would, while never holding more than its limit. |
| Recv.Reassembler.MidMessage | crates/reactor-webrtc-dc-chunking/src/recv.rs:76-79 | True exactly while a message is in progress. |
| Recv.Reassembler.Reset | crates/reactor-webrtc-dc-chunking/src/recv.rs:81-86 | Back between messages, from any state. |
| Transport.ArrivalKeepsStep | crates/reactor-webrtc-dc-chunking/src/recv.rs:46-74 | The next frame of the stream either extends the message in progress or yields exactly that message's one report. |
| Transport.StepRefinesFifo | crates/reactor-webrtc-dc-chunking/src/send.rs:175-225 | Every step of queue, wire and reassembler is a step or a stutter of a FIFO of messages. |
| Transport.RunsBehaveAsFifo | crates/reactor-webrtc-dc-chunking/src/recv.rs:42-74 | In every run no frame is refused, and what was delivered is the outcome of the first accepted messages in order: bytes and type, or one drop with the true size; all of them once nothing is in flight. |
| Transport.NothingDroppedWithinLimit | crates/reactor-webrtc-dc-chunking/src/recv.rs:46-74 | A receiver whose limit is at least the sender's reports every accepted message whole. |
| Pump.AdvanceKeepsWakeup | crates/reactor-webrtc/src/peer_connection.rs:1562-1634 | No step of any pump call loses the request to look at the queue again. |
| Pump.EveryRunKeepsInv | crates/reactor-webrtc/src/peer_connection.rs:1562-1634 | One call holds the pump, the cached amount is never below the real one, frames are accounted for, and no wakeup is lost, in every interleaving. |
| Pump.NativeBufferStaysBelowItsLimit | crates/reactor-webrtc-dc-chunking/src/send.rs:46-71 | With a validated configuration libwebrtc's buffer never reaches 16 MiB, whoever pumps. |
| Pump.StoppedPumpWaitsAboveLowWater | crates/reactor-webrtc-sys/glue/reactor_webrtc.cpp:797-801 | When all calls returned and all buffer changes were reported, frames are left only above the low-water mark, so the callback that resumes the pump is still to come. |
| Pump.FramesLeaveInOrder | crates/reactor-webrtc/src/peer_connection.rs:1562-1634 | libwebrtc gets the queued frames in order, all but the queue and one in hand. |
| PumpProgress.SomeStepProgresses | crates/reactor-webrtc/src/peer_connection.rs:1562-1634 | On an open channel with a frame left, some step of a call under way or of libwebrtc brings the next frame nearer: a pass of the lock holder below the high-water mark shortens the queue. |
| PumpProgress.EveryQueueCanEmpty | crates/reactor-webrtc/src/peer_connection.rs:1562-1634 | From every state of every run on an open channel, the calls under way and the low-threshold callback can hand over all that was queued, in order, with no further send. |
| ChannelPump.ChannelCore.constructor | crates/reactor-webrtc/src/peer_connection.rs:1484-1531 | A channel starts with an empty native buffer and no estimate. |
| ChannelPump.ChannelCore.Pump | crates/reactor-webrtc/src/peer_connection.rs:1573-1624 | One pass on the real queue ends empty or at the high-water mark, hands frames over in order and makes progress from below it. |
| ChannelPump.ChannelCore.DrainCompletely | crates/reactor-webrtc-dc-chunking/src/send.rs:199-225 | At most one pass per frame, and one more, empties the queue if the buffer drains between passes. |
| ChunkingTimes.TotalsAfterFrame | crates/reactor-webrtc/src/chunking_times.rs:136-174 | What one sent frame adds to the sums over the ledger. |
| ChunkingTimes.ChunkingTimes.constructor | crates/reactor-webrtc/src/chunking_times.rs:100-128 | Starts with the empty ledger. |
| ChunkingTimes.ChunkingTimes.OnQueued | crates/reactor-webrtc/src/chunking_times.rs:130-132 | The totals stay those of the history with the message queued. |
| ChunkingTimes.ChunkingTimes.OnFrameSent | crates/reactor-webrtc/src/chunking_times.rs:134-174 | The running totals equal the sums over the history with this frame, message and stall accounted. |
| ChunkingTimes.ChunkingTimes.OnStalled | crates/reactor-webrtc/src/chunking_times.rs:176-179 | Only the first stall of a row starts the clock. |
| ChunkingTimes.ChunkingTimes.OnCleared | crates/reactor-webrtc/src/chunking_times.rs:181-186 | Forgets waiting and half-sent messages and the stall. |
| ChunkingTimes.ChunkingTimes.OnFrameReceived | crates/reactor-webrtc/src/chunking_times.rs:188-197 | Reassembly time runs from a message's first frame to its last. |
| ChunkingTimes.ChunkingTimes.OnResetReceive | crates/reactor-webrtc/src/chunking_times.rs:199-203 | Forgets the message that was arriving. |
| TimedQueue.OneEndPerMessage | crates/reactor-webrtc-dc-chunking/src/send.rs:202-225 | The frames of one message hold exactly one last frame. |
| TimedQueue.TotalsAddUp | crates/reactor-webrtc/src/chunking_times.rs:130-185 | In every run wait plus send is the lifetime of the finished messages, and the first-frame steps fit inside the wait, whatever closes, is refused, or comes late. |
| TimedQueue.StampsMirrorTheQueue | crates/reactor-webrtc/src/peer_connection.rs:1962-1995 | Until the ledger is cleared, the channel closed or not, the k-th finished message was timed from when the k-th accepted one was queued, and one stamp is held per message still to finish. |
| TimedQueue.FinishedStayTimed | crates/reactor-webrtc/src/chunking_times.rs:134-174 | A message that finished before a clear stays timed from its own stamp in everything that follows. |
| TimedQueue.AtMostOneMoreMessage | crates/reactor-webrtc/src/peer_connection.rs:1604-1627 | After a clear, in any continuation, at most the message whose last frame libwebrtc had already is counted, and it adds no time unless a send let in before was queued since. |
| TimedQueue.ClearedMessagesAddNothing | crates/reactor-webrtc/src/peer_connection.rs:1773-1795 | The times of messages stay as the clear left them in every continuation if and only if the clear did not meet both a last frame still to be counted and a send still to be queued. |
| Text.LinesOfUnlines | crates/reactor-webrtc-dc-chunking/src/sdp.rs:78-97 | Lines written with CRLF are read back as they were. |
| Text.ParseOfDecimal | crates/reactor-webrtc-dc-chunking/src/sdp.rs:103-129 | A printed number parses to itself exactly when it is below the type's bound. |
| Sdp.CheckAttribute | crates/reactor-webrtc-dc-chunking/src/sdp.rs:66-70 | True exactly when some line starts with the attribute. |
| Sdp.Declare | crates/reactor-webrtc-dc-chunking/src/sdp.rs:72-97 | The loop with its `inserted` flag writes the lines with one inserted, or the input unchanged. |
| Sdp.Parse | crates/reactor-webrtc-dc-chunking/src/sdp.rs:99-129 | The loop over parameters reads the first declaration: version, last size, unknown parameters ignored, malformed ones refused. |
| Sdp.DeclaredLines | crates/reactor-webrtc-dc-chunking/src/sdp.rs:72-97 | Declaring keeps every line in order and adds one, before the first media section or at the end. |
| Sdp.DeclaredHasAttribute | crates/reactor-webrtc-dc-chunking/src/sdp.rs:66-97 | A declared description has the attribute, unless it was empty. |
| Sdp.DeclareIsIdempotent | crates/reactor-webrtc-dc-chunking/src/sdp.rs:72-97 | Declaring twice, even with other parameters, is declaring once, on every string. |
| Sdp.ParseOfLine | crates/reactor-webrtc-dc-chunking/src/sdp.rs:44-55 | The value of a printed line parses to its parameters exactly when the version is the one spoken. |
| Sdp.ParseOfDeclared | crates/reactor-webrtc-dc-chunking/src/sdp.rs:99-129 | What one side declares in any non-empty, undeclared description the other reads back. |
| Sdp.NothingDeclared | crates/reactor-webrtc-dc-chunking/src/sdp.rs:99-108 | A description without the attribute declares nothing. |
| DcChunking.SettingsComposeWithAnyPeer | crates/reactor-webrtc/src/dc_chunking.rs:60-87 | Settings that validate give, for every peer, a configuration the queue accepts and a limit no larger than either side's. |
| DcChunking.AcceptedMessagesAreNeverDropped | crates/reactor-webrtc/src/dc_chunking.rs:57-87 | Between two validated sides, with the limit read out of the receiver's own description, no accepted message is dropped in any run. |
| DcChunking.SettledOnce | crates/reactor-webrtc/src/dc_chunking.rs:259-266 | The first final answer settles the negotiation and nothing changes it afterwards. |
| DcChunking.DcNegotiation.constructor | crates/reactor-webrtc/src/dc_chunking.rs:134-140 | Starts unsettled. |
| DcChunking.DcNegotiation.Offer | crates/reactor-webrtc/src/dc_chunking.rs:152-158 | An offer declares exactly when this end takes part. |
| DcChunking.DcNegotiation.Answer | crates/reactor-webrtc/src/dc_chunking.rs:160-170 | An answer declares exactly when this end takes part and the offer it answers declared. |
| DcChunking.DcNegotiation.OnLocalDescription | crates/reactor-webrtc/src/dc_chunking.rs:267-281 | The new state for each kind of local description. |
| DcChunking.DcNegotiation.OnRemoteDescription | crates/reactor-webrtc/src/dc_chunking.rs:283-306 | The new state for each kind of remote description. |
| DcChunking.DcNegotiation.Apply | crates/reactor-webrtc/src/dc_chunking.rs:192-242 | Recorded before libwebrtc works, erased on a rejection, kept on a timeout, and nothing without settings. |
| ApplyThreads.ApplyIsAtomic | crates/reactor-webrtc/src/dc_chunking.rs:217-242 | With any number of threads, the state is the fold, in lock order, of exactly the descriptions not rejected. |
| ApplyThreads.DecisionIsStable | crates/reactor-webrtc/src/dc_chunking.rs:192-215 | What `remote()` says once the association is up it says for good, whatever any thread applies. |
| Agreement.SoundIffCareful | crates/reactor-webrtc/src/dc_chunking.rs:160-242 | Where both ends take part, a move keeps what a peer knows and declares right if and only if it finishes an answer, or lets one take effect or stand, only while the offer stands. |
| Agreement.WithoutAnEndNothingIsAgreed | crates/reactor-webrtc/src/dc_chunking.rs:152-170 | When an end has no settings, neither end holds anything at any moment of any run, careful or not. |
| Agreement.SettledEndsAgree | crates/reactor-webrtc/src/dc_chunking.rs:153-306 | A settled end holds the other's limit exactly when both take part: in what a channel reads from the moment libwebrtc has the answer, the apply still under way or not, and in what a rejection would bring back; in every careful run, and in every run at all where one end takes no part. |
| Agreement.SettledEndsAgreeInOrderlyRuns | crates/reactor-webrtc/src/dc_chunking.rs:192-242 | The same, care aside, where no apply times out and no end creates an answer across an apply of its own. |
| AgreementLimits.CarelessVerdictSettlesWrong | crates/reactor-webrtc/src/dc_chunking.rs:259-281 | An answer that takes effect, or is let stand, without its offer settles that end on the wrong decision at once. |
| AgreementLimits.CarelessAnswerMisleadsTheUnsettled | crates/reactor-webrtc/src/peer_connection.rs:2529-2546 | An answer created while its offer is out of sight can lead the other end, by careful moves without a timeout, to settle wrongly, if and only if that end has not settled, is not half through a provisional answer of its own, and still has its offer standing if half through a remote one; whatever apply is under way or owed there. |
| AgreementLimits.SettledForGood | crates/reactor-webrtc/src/dc_chunking.rs:259-265 | What an end settled on, past undoing, it holds through every continuation of both ends. |
| AgreementLimits.FreshAnswerAfterTimeoutDisagrees | crates/reactor-webrtc/src/dc_chunking.rs:206-215 | For any two settings, a run of two well-behaved peers that ends with one end chunking and the other not. |
| AgreementLimits.OverlappingAnswerDisagrees | crates/reactor-webrtc/src/dc_chunking.rs:163-170 | For any two settings, a run without a timeout that ends with neither end chunking though both take part. |
| Registry.EncoderRegistry.constructor | crates/reactor-webrtc/src/encoded.rs:573-578 | Starts with no reservation. |
| Registry.EncoderRegistry.AddEncodedSlot | crates/reactor-webrtc/src/encoded.rs:600-624 | Appends a custom reservation with a new, empty queue. |
| Registry.EncoderRegistry.AddRawSlotWithBackend | crates/reactor-webrtc/src/encoded.rs:626-641 | Appends a builtin reservation with its backend. |
| Registry.EncoderRegistry.AddInlineSlot | crates/reactor-webrtc/src/encoded.rs:643-665 | Appends an inline reservation. |
| Registry.EncoderRegistry.Retract | crates/reactor-webrtc/src/encoded.rs:667-711 | Removes the track's reservations in place, degrades its bound slots, touches no other, and warns exactly when another custom slot is left. |
| Registry.EncoderRegistry.HasCustom | crates/reactor-webrtc/src/encoded.rs:713-734 | True exactly when a custom slot is pending or bound. |
| Registry.EncoderRegistry.UseBuiltinFor | crates/reactor-webrtc/src/encoded.rs:736-786 | A new id takes the oldest reservation if there is one; the answer is whether its slot is builtin or missing. |
| Registry.EncoderRegistry.EncodeFor | crates/reactor-webrtc/src/encoded.rs:788-835 | Binds on first use, returns the queue's oldest frame or the callback's result, and fires the key-frame listener of that slot only. |
| Registry.EncoderRegistry.PushFrame | crates/reactor-webrtc/src/encoded.rs:1241-1255 | Appends to one queue. |
| RegistryThreads.EveryRunKeepsInv | crates/reactor-webrtc/src/encoded.rs:616-872 | Placement, routing, lock ownership and what each call knows hold in every interleaving of every registry operation. |
| RegistryThreads.InFlightStaysHeld | crates/reactor-webrtc/src/encoded.rs:739-811 | A popped reservation is always in the hands of the call that holds `assigned`. |
| RegistryProgress.NoDeadlock | crates/reactor-webrtc/src/encoded.rs:681-872 | Whenever some call is unfinished, some call can move. |
| RegistryProgress.EnabledCallsProgress | crates/reactor-webrtc/src/encoded.rs:681-872 | Each step of a call that can move brings it nearer its return. |
| RegistryProgress.EveryCallCanReturn | crates/reactor-webrtc/src/encoded.rs:681-872 | From every reachable state all unfinished calls can be brought to return. |
| RegistryProgress.CallbacksHoldNoLock | crates/reactor-webrtc/src/encoded.rs:815-858 | A user callback runs with neither registry lock held, one call at a time. |
| RegistryResults.LivingTracksKeepTheirSlots | crates/reactor-webrtc/src/encoded.rs:667-711 | Until its own track is retracted, a reservation is in exactly one of pending, in flight and bound, and unchanged. |
| RegistryResults.OnlyRetractionLosesASlot | crates/reactor-webrtc/src/encoded.rs:667-711 | A reservation that is nowhere was retracted with its own track. |
| RegistryResults.OneEncoderPerSlot | crates/reactor-webrtc/src/encoded.rs:549-571 | No reservation is bound to two encoder ids. |
| RegistryResults.SlotsBindInOrder | crates/reactor-webrtc/src/encoded.rs:536-547 | Reservations bind to new encoder ids in the order they were made; every reservation older than a bound one, the first included, is bound already or was retracted. |
| RegistryResults.FramesArriveInOrder | crates/reactor-webrtc/src/encoded.rs:788-824 | The frames returned for an id are a prefix of what its slot's track pushed, and the queue holds the rest. |
| RegistryResults.BindingsNeverMove | crates/reactor-webrtc/src/encoded.rs:536-556 | An id keeps its reservation and its owning track for good. |
| RegistryResults.NothingEscapesRetraction | crates/reactor-webrtc/src/encoded.rs:681-711 | Once `retract` returns, no custom slot of the track is pending, in flight or bound, then or ever after. |
| RegistryHasCustom.HasCustomNeverMisses | crates/reactor-webrtc/src/encoded.rs:716-734 | A slot reserved when the call began and still custom when it returns makes it answer yes, wherever the slot moved meanwhile. |
| RegistryHasCustom.HasCustomSawOne | crates/reactor-webrtc/src/encoded.rs:716-734 | It answers yes only on seeing a live custom slot. |
| RegistryHasCustom.AnAttachedSlotIsSeen | crates/reactor-webrtc/src/encoded.rs:716-734 | A custom reservation made before the call, of a track whose retraction has not begun when the call returns, makes it answer yes. |
| RegistrySuccession.CertainIffASparedSlotExists | crates/reactor-webrtc/src/encoded.rs:716-734 | For any tracks known to stay, and whatever calls are under way but one adding a custom slot for them, the answer is yes on every schedule if and only if one of them has a custom slot when the call begins. |
| RegistrySuccession.HasCustomMissesASuccession | crates/reactor-webrtc/src/encoded.rs:716-734 | From any registry with a custom slot and no call under way, a schedule on which some custom slot exists at every moment of the call and the answer is no. |
| Metadata.VarintRoundTrip | crates/reactor-webrtc/src/metadata.rs:92-109 | Every 64-bit value comes back from its varint, whatever follows. |
| Metadata.ReadVarintFits | crates/reactor-webrtc/src/metadata.rs:92-109 | No varint reads as more than 64 bits. |
| Metadata.MessageRoundTrip | crates/reactor-webrtc/src/metadata.rs:89-109 | Every message comes back from its own encoding, defaults omitted. |
| Metadata.MergeInTurn | crates/reactor-webrtc/src/metadata.rs:89-109 | Two messages written one after the other read as the second merged into the first. |
| Metadata.UnknownFieldsAreIgnored | crates/reactor-webrtc/src/metadata.rs:89-109 | Fields of a later version, groups included, change nothing before or after the known ones. |
| Metadata.EncodeTrailer | crates/reactor-webrtc/src/metadata.rs:113-120 | The three appends make the message, its length modulo 2^32 in little-endian and the magic. |
| Metadata.StripsExactlyTrailers | crates/reactor-webrtc/src/metadata.rs:122-143 | A buffer is stripped to a payload exactly when it is that payload followed by a message that decodes, its length and the magic. |
| Metadata.TrailerRoundTrip | crates/reactor-webrtc/src/metadata.rs:113-143 | Payload and metadata come back, for every payload, if and only if the encoding is shorter than 2^32 bytes. |
| SenderMeta.Sender.constructor | crates/reactor-webrtc/src/media.rs:195-202 | Starts at millisecond 0 with no entry. |
| SenderMeta.Sender.NextUniqueCaptureMs | crates/reactor-webrtc/src/media.rs:1135-1151 | Under any interference the loop claims the later of the request and one past the value it replaced. |
| SenderMeta.Sender.AllocSendCaptureUs | crates/reactor-webrtc/src/media.rs:508-525 | The microseconds of the claimed key, which divide back to it. |
| SenderMeta.Sender.InsertSenderMeta | crates/reactor-webrtc/src/media.rs:536-555 | Evicts the oldest at 300 and keeps an entry that is there. |
| SenderMeta.KeysAreUnique | crates/reactor-webrtc/src/media.rs:1135-1151 | Over all interleavings every claimed key, the first included, is positive, later than all before it, at least the requested millisecond, and that millisecond when it was free. |
| SenderMeta.MapAndQueueAgree | crates/reactor-webrtc/src/media.rs:536-555 | The map's keys are exactly its eviction queue, at most 300, each once. |
| SenderMeta.LookupFindsOwnMetadata | crates/reactor-webrtc/src/media.rs:204-215 | An allocated key finds its own push's metadata exactly while that is among the newest 300. |
| SenderMeta.LookupInventsNothing | crates/reactor-webrtc/src/media.rs:204-215 | A key nobody inserted finds nothing. |
| ClassFile.ScanPool | webrtc-build/check-android-jar.py:11-63 | The constant-pool loop, with its errors, equals the recursive reader. |
| ClassFile.ScanAttributes | webrtc-build/check-android-jar.py:68-73 | The attribute loop, with its errors, equals the recursive reader. |
| ClassFile.LinkageConstants | webrtc-build/check-android-jar.py:11-76 | The whole reader, with every error, equals the recursive one. |
| ClassFile.Yield | webrtc-build/check-android-jar.py:74-76 | Yields the string of each reference, or fails on one that names none. |
| ClassFile.ReadPoolAt | webrtc-build/check-android-jar.py:37-63 | On a laid-out pool the reader collects exactly the strings and references, eight-byte constants taking two indices. |
| ClassFile.ReadsToTheEndOfMethods | webrtc-build/check-android-jar.py:64-73 | The walk over the tables ends where the methods table ends. |
| ClassFile.YieldsExactlyTheLinkage | webrtc-build/check-android-jar.py:11-76 | On every laid-out class file the reader yields exactly the strings its linkage references name, or fails when one names none. |
| ClassFile.TruncatedFilesAreRefused | webrtc-build/check-android-jar.py:41-73 | A class file cut off anywhere before the end of its methods table is refused. |
| Codecs.Transceiver.constructor | crates/reactor-webrtc-sys/glue/reactor_webrtc.cpp:2203-2216 | A transceiver starts with no preferences and no sender. |
| Codecs.Transceiver.SetVideoCodecPreferences | crates/reactor-webrtc-sys/glue/reactor_webrtc.cpp:2203-2228 | On success the preferences are the preference order of the capabilities; otherwise nothing changes. |
| Codecs.Transceiver.Order | crates/reactor-webrtc-sys/glue/reactor_webrtc.cpp:2210-2226 | The nested loops over names and codecs produce the preference order: named codecs first as named, the rest as they stood. |
| Codecs.Transceiver.TakeNamed | crates/reactor-webrtc-sys/glue/reactor_webrtc.cpp:2216-2221 | One name takes all its unused codecs in order. |
| Codecs.Transceiver.LockNegotiatedSendCodec | crates/reactor-webrtc-sys/glue/reactor_webrtc.cpp:2240-2276 | Succeeds exactly when there is a sender with an encoding, a preferred codec was negotiated and libwebrtc agrees, and then sets the first negotiated codec of the earliest such name. |
| Codecs.OrderIsAPermutation | crates/reactor-webrtc-sys/glue/reactor_webrtc.cpp:2186-2194 | Reordering drops and doubles nothing. |
| Codecs.OrderIsUnique | crates/reactor-webrtc-sys/glue/reactor_webrtc.cpp:2186-2194 | There is only one preference order. |
| Codecs.LockedCodecIsMostPreferred | crates/reactor-webrtc-sys/glue/reactor_webrtc.cpp:2231-2276 | No negotiated codec the endpoint has is named earlier than the locked one. |
| Codecs.LockFailsOnlyWithoutASharedCodec | crates/reactor-webrtc-sys/glue/reactor_webrtc.cpp:2250-2276 | The lock finds a codec exactly when some codec of the endpoint was negotiated. |

## Left out

- FFI trampolines, raw pointers, boxed state, struct layout and the Python bindings: memory and conversions, no protocol.
- libwebrtc itself: encoders, transports, timing. Its answers are nondeterministic parameters.
- Statistics copying, builders, configuration marshalling and enum-to-wire maps: one-branch code.
- Floating-point rounding of the timing sums, warnings printed to stderr, mutex poisoning, and wrap-around of u64 and i64 counters.
- `ChannelCore` beyond its pump: deferred deliveries, the user's own low-water callback and the inbound hand-over in peer_connection.rs.
- Reuse of a native track id: a track's identity stands for one lifetime, so no slot is added for a track whose retraction began.
- Two calls of the registry nested in one thread: a user callback that calls back into the registry is another thread here, and the waiting of the outer call for it is not captured.
- `FrameMetadataGate`, one atomic flag, and `FifoMeta`, which pairs metadata with pre-encoded frames by position.
- The ZIP walk, relocation patterns and closure check of check-android-jar.py around the class-file reader; that generator yields before a later failure, here a failure yields nothing.
- RegistryThreads.EveryRunKeepsInv: the warning a retraction prints is computed in the class only, so the threads' scan of the two lists decides nothing here but the locks it takes.
- SenderMeta.LookupFindsOwnMetadata: plain frames stamped with a millisecond that a metadata frame uses are not modelled.
- RegistrySuccession.CertainIffASparedSlotExists: asked when no call is just adding a custom slot for one of the tracks; `RegistryHasCustom.AnAttachedSlotIsSeen` holds from any state.
- PumpProgress.EveryQueueCanEmpty: says what can be done from every state, as libwebrtc may drain its buffer or not; no fairness of a scheduler is assumed.
- ClassFile.YieldsExactlyTheLinkage: bytes that are not laid out as a class file may still be accepted (an eight-byte constant in the last index, for one); of those only truncated files are shown to be refused.
