# A verified model of tracy

Tracy is a tracing library. Application threads hand payloads to a tracer thread through a FIFO
channel; the tracer thread buffers them, packs them into TLV frames and writes them to at most one
TCP client; the client switches tracepoints on and off through flags that both threads share. This
project models that path end to end in Dafny and proves what it guarantees, and exactly where it
does not guarantee what its comments and headers say.

`dafny verify dfyconfig.toml` checks everything.

| module | what it holds |
|---|---|
| `Bytes`, `Names`, `Codec` | big-endian integers, name normalisation, the TLV printers (server) and parsers (clients), stream cutting |
| `Packing` | the greedy packer as a function: conservation, optimality, frame bound, termination |
| `Encoder`, `Dissector`, `PythonClient` | the byte-pushing encoder, the Lua dissector and the Python decoder as loops, proved against `Codec` |
| `TracerThread` | the tracer thread as a value and every handler as a function; `receive` as small steps |
| `Context`, `Application` | the same handlers in place: classes with the fields of `TracerContext` and `TracerNg`, proved to compute those functions |
| `Protocol` | all threads as one transition system over interleaved steps |
| `Refinement` | the in-place event handler is a run of that transition system |
| `WorkerInvariants`, `SystemInvariants` | the invariant of every step and every run |
| `WireFormat` | the format with every byte written out, and which headers are accepted |
| `Submissions` | what a call of `tracy_submit` and `tracy_register` puts into the channel, alone and in runs |
| `Handlers` | what each event achieves |
| `Theorems` | conservation, map agreement, timers, flags, bounds, in every reachable state |
| `Delivery`, `Sessions` | what clients decode, in one session and over all of them |
| `Requests`, `RequestTheorems`, `Interleaving` | what `receive` makes of requests, alone and interleaved with the application |
| `AfterClose` | exactly what `receive` does after it has closed the connection |
| `WithoutClient`, `WritesAfterClose` | exactly when a tracer without a client still writes |
| `Announcing` | exactly when the announce timer is armed |

## How the code is modelled

- **Write outcomes and hash-map order** come from an environment `Env` that every theorem quantifies
  over. A write is complete, or stops after any number of bytes with WouldBlock or another error.
  WouldBlock counts as success even after a partial write, as in src/tcp_handler.rs:200-207.
- **Shared atomic cells** have identity: a cell is an index into the shared `flags`, and both maps
  hold such indices.
- **A panic** (an `unwrap` on a missing connection) is a terminal value of `health` that names its
  site. Theorems about "every reachable state" are about the states of all runs that have not panicked.
- **The grain of a step** is one access of a submitting thread to shared memory, or one name, header,
  message or timer entry of the tracer thread, so a client request can be interrupted between two of
  its names. A close clears the flags in one step: a submitting thread reads one flag per call, so no
  outcome is lost by that.
- **History** (`Past`, `accepted`) records all writes, all appended and all accepted elements; no
  handler reads it, except that the number of writes so far indexes the environment.
- **Integers** are unbounded except where the width matters: the `u16`, `u32` and `u64` casts, the
  `u32` counter of `set_tracepoints` and the `u64` timestamp wrap as in a release build.
- `tracy_register` and `tracy_finit` are single steps, and `tracy_finit` happens only when no submit
  is under way; the API gives no meaning to anything else (the handle is freed).

Where the code and its own documentation disagree, the model follows the code:

- the magic number is `RuSt` (src/tcp_handler.rs:26), not `0xbeef` (doc/tlv_documentation.txt:20);
- a forbidden command or length is only logged, and such a frame is skipped without its body
  (src/tcp_handler.rs:368-373), although the comment at src/tcp_handler.rs:119 says it cannot arrive;
- `tracy_tracepoint_enabled` does not normalise its argument, although src/tracy.h:144-149 says so
  (`QueryKeepsItsPromiseIff` gives the strings for which that makes no difference);
- `buffer_occupancy` is never decremented, so batching ends for good after 4096 bytes
  (`BatchingEndsForever`);
- the comment at src/lib.rs:9-13 says no send can follow a disconnect; it can (`ClaimIsFalse`), and
  `WritesWithoutClientIff` says exactly when, for every state without a client;
- `receive` reads on after it has closed the connection: `ReceivePanicsIff` says exactly which input
  makes the thread panic, and `FlagsAfterCloseIff` exactly which flags are on afterwards;
- a failed accept stops the announcements (src/lib.rs:549-552); `AnnouncesIff` says exactly when they
  are scheduled.

The environments the theorems quantify over exist for any network (`SomeEnvIsValid`). The small
methods of the classes that have no row below (appending, the timer setters, accepting, reading) are
proved to compute the function of the same name like the others.

## Model

| member | source | states |
|---|---|---|
| `Theorems.NothingIsLostOrReordered` | src/lib.rs:562-617 | In every reachable state, the elements submit accepted are, in order, those handed to a socket, then the buffer, then the channel; under any write outcomes, disconnects and reconnects. |
| `Submissions.AcceptedIsSubmitted` | src/lib.rs:387-440 | In every run `accepted[i]` is added by the last step of one call of `tracy_submit` that began with a client and 1 to 2048 bytes, later found its tracepoint registered and on, and was given exactly this name (up to normal form), time and data. |
| `Submissions.SubmittedIsAccepted` | src/lib.rs:409-439 | Conversely, every such call adds exactly its element to what is accepted and to the channel when its thread goes on, whatever other threads do in between. |
| `Submissions.SubmitAddsItsElement` | src/lib.rs:387-440 | An undisturbed call adds exactly its normalised name, its time and all its bytes if a client is connected, the length is 1 to 2048, the name is ASCII and its cell is on; otherwise it changes nothing. |
| `Delivery.ExactlyOnceDelivery` | src/lib.rs:562-584 | If a session is up before the first payload is accepted, is not closed, and its writes complete, then when the tracer returns after `tracy_finit` the client's cut-and-decode of the received bytes yields exactly the accepted payloads, once each, in order. |
| `Delivery.DeliveredSoFar` | src/tcp_handler.rs:148-208 | The same at any moment of such a session: decoded is accepted minus what is still buffered or in the channel. |
| `Delivery.SessionIsReadBack` | scripts/tracy.lua:74-124 | Any sequence of completed push and list frames is cut into exactly those frames with no byte left, and decodes to exactly the elements they carry. |
| `Sessions.SessionsShareOutTheAccepted` | src/tcp_handler.rs:148-180 | In every reachable state the accepted elements are, in order, one slice per session so far, then the buffer, then the channel. |
| `Sessions.EveryClientDecodesItsSlice` | scripts/tracy.lua:74-124 | Every client whose writes completed has decoded exactly its session's slice of the accepted elements, which follows the slices of the sessions before. |
| `Theorems.DrainingTakesTheFewestFrames` | src/tcp_handler.rs:148-180 | When no write fails, sending empties the buffer with no more frames than any order-preserving split into bodies of at most 4087 bytes, and no frame but the last could take the next one's first element. |
| `Handlers.SendingEmptiesTheBuffer` | src/tcp_handler.rs:148-180 | While no write fails, sending hands over exactly the buffer, in order, keeps the client and changes nothing else. |
| `Handlers.QueueTimeoutSends` | src/lib.rs:591-594 | In every reachable state with a client, a firing queue timer hands over everything buffered and leaves no queue entry armed, if its writes hold. |
| `Handlers.TimerEventSends` | src/lib.rs:587-603 | The same for a whole timer event in which the queue entry is due, among any others. |
| `Handlers.DueEntriesFire` | src/lib.rs:587-603 | After a timer event the thread has ended or no entry that was due and armed is still armed. |
| `Handlers.ChannelEventDrains` | src/lib.rs:562-584 | After a channel event the thread has ended, at `Terminate` or in a panic, or the channel is empty, all its payloads are appended in order and all its registrations are in the map. |
| `Handlers.ListenerEventAccepts` | src/lib.rs:549-552 | A listener event changes nothing with a client; without one it opens the next session if the accept succeeds, and stops announcing either way. |
| `Handlers.ClientEventServes` | src/lib.rs:553 | A client event with well-formed requests leaves every flag at the last word on it and writes one reply per list request. |
| `Handlers.BatchesCompose` | src/lib.rs:541-556 | A batch is handled event by event: two batches in one are the second after the first. |
| `Handlers.FinitEndsTheThread` | src/lib.rs:572-578 | After `tracy_finit` the next channel event ends the thread, whatever happens to the writes. |
| `Handlers.FinitFlushes` | src/lib.rs:572-578 | With a client and writes that hold it returns with an empty buffer and everything ever accepted handed over. |
| `Packing.GreedyIsOptimal` | src/tcp_handler.rs:154-171 | No order-preserving split into legal bodies has fewer groups than the greedy grouping. |
| `Packing.PackIsMaximal` | src/tcp_handler.rs:157-171 | Each non-final group extended by the next group's first element is over the limit. |
| `Packing.PackKeepsElements` | src/tcp_handler.rs:154-179 | The groups concatenate to what was queued followed by the buffer. |
| `Packing.PackIsLegal` | src/tcp_handler.rs:154-179 | Every group is non-empty and its body has at most 4087 bytes. |
| `Packing.SpaceTestIsBodyLimit` | src/tcp_handler.rs:157 | The code's space test is equivalent to the encoded body, with the element, being at most 4087 bytes. |
| `Packing.PushFrameBound` | src/tcp_handler.rs:211-232 | A push frame has a non-empty body, an exact length field and at most `QUEUE_TOTAL_SIZE` + 3 bytes. |
| `Packing.PushFrameBoundIsTight` | src/tcp_handler.rs:157 | Two acceptable elements whose single frame has exactly `QUEUE_TOTAL_SIZE` + 3 bytes. |
| `Packing.LoopEndsIffAllFit` | src/tcp_handler.rs:154-171 | With writes succeeding, the sending loop ends if and only if every element fits an empty queue. |
| `Theorems.SendingAlwaysEnds` | src/tcp_handler.rs:154-171 | In every reachable state every buffered element fits an empty queue, so the loop ends; the limits come from submit and name normalisation. |
| `Theorems.EveryPushFrameIsBounded` | src/tcp_handler.rs:236-263 | Every push frame ever handed to a socket is non-empty, delimits itself, has at most 4099 bytes and decodes to exactly its elements. |
| `SystemInvariants.EveryRunKeepsInv` | src/lib.rs:536-617 | Every state of every run satisfies the system invariant (timers, connection, accounting, log, flags, batching, map agreement, conservation, termination order) or has panicked after at least one close. |
| `SystemInvariants.StepKeeps` | src/lib.rs:536-617 | Each single step of any thread keeps that invariant or panics after a close. |
| `SystemInvariants.InsertKeepsMaps` | src/lib.rs:570-571 | The inserted name is new to the worker's map, normal, and its cell is off; both maps still agree through the channel. |
| `SystemInvariants.RegisterKeepsMaps` | src/lib.rs:331-349 | Registering keeps both maps in agreement through the channel, with distinct cells and normal keys. |
| `Theorems.NoPanicBeforeAClose` | src/lib.rs:198-214 | A tracer whose connection was never closed has not panicked. |
| `Theorems.MapsAgreeThroughTheChannel` | src/lib.rs:331-349 | In every reachable state the application's map is the worker's map plus the pending registrations, with the same cell per name, no two names sharing a cell, and the next insert overwriting nothing. |
| `Theorems.HandlesMatchTimers` | src/lib.rs:154-214 | In every reachable state each handle is set exactly when an entry of its kind is armed, names it, and no kind has two entries. |
| `Theorems.ConnectionFlagIsTheConnection` | src/lib.rs:198-214 | `client_connected` equals the presence of a connection, and a connected tracer has no announce timer armed. |
| `Theorems.FlagsAreOffWithoutClient` | src/lib.rs:198-219 | Without a client, and with no enable executed after the close, the flag of every registered name is off, including names registered while disconnected. |
| `Theorems.NoStrandedData` | src/lib.rs:587-617 | A non-empty buffer has an armed queue timer, unless its elements were carried over a close with no payload since. |
| `Theorems.OccupancyIsTheTotalEverAppended` | src/lib.rs:141-145 | The occupancy counter is the total length of everything ever appended, so it bounds what is buffered. |
| `Theorems.BatchingEndsForever` | src/lib.rs:606-617 | Once the counter exceeds 4096 no queue timer is ever armed and nothing stays buffered, carried-over elements excepted. |
| `Theorems.PayloadStepBoundsTheBuffer` | src/lib.rs:606-617 | A payload step that leaves the client connected leaves at most 4096 bytes buffered, and none once the counter is over the limit. |
| `Theorems.KeysAreNormal` | src/lib.rs:460-474 | Every key of both maps in every reachable state is a fixed point of the normalisation. |
| `Theorems.SubmissionsReachTheRegisteredCell` | src/lib.rs:418-449 | A submission is governed by the cell registered under another string exactly when their first 32 bytes agree up to case. |
| `WritesAfterClose.WritesWithoutClientIff` | src/lib.rs:9-13 | A running tracer without a client, in any reachable state (idle, draining its channel, or still inside `receive`), can reach a trace-data write before the next client if and only if it gets out of `receive` and has an armed queue timer it will look at, a payload in the channel (after `tracy_finit`: enough to lift the counter over its limit), or a submission past its checks, or past its connection check with an enabled flag or an enable request for it still to be read. |
| `WithoutClient.SettledWritesIff` | src/lib.rs:562-603 | The same outside `receive`, including the state right after a failed write in the middle of draining the channel. |
| `WithoutClient.RunStaysOffline` | src/lib.rs:198-214 | From a disconnected, idle or draining tracer with nothing waiting or on its way, no run without a new client reaches a trace-data write. |
| `WritesAfterClose.RunStaysSafe` | src/tcp_handler.rs:85-104 | The same from a tracer still reading after the close. |
| `WithoutClient.ClaimIsFalse` | src/lib.rs:9-13 | Whatever the environment, some run from the start reaches a trace-data write without a client. |
| `WithoutClient.AdmittedThenGone` | src/lib.rs:409-439 | A run in which a submission passes both checks, the client leaves cleanly, and the element is still on its way to a tracer with an empty channel and no timer. |
| `Announcing.AnnouncesIff` | src/lib.rs:549-552 | In every state of every run without a client, the announce timer is armed if and only if announcing was asked for or a client has been there, and no accept has failed since the last client. |
| `Announcing.AnnouncesWhileAcceptsHold` | src/lib.rs:196-214 | A tracer asked to announce has an announce entry armed whenever it has no client, as long as no accept fails. |
| `Announcing.FailedAcceptSilencesTheBeacon` | src/lib.rs:549-552 | After one failed accept no announce entry is armed in any continuation until a client connects. |
| `AfterClose.ReceivePanicsIff` | src/tcp_handler.rs:78-104 | From any point of `receive`, connected or not, on any input and any outcomes of list replies, the thread panics if and only if the input does not survive: `Survives` is computed from the bytes and those outcomes alone. |
| `AfterClose.ClosedReceivePanicsIff` | src/tcp_handler.rs:85-104 | Reading on after a close panics if and only if the bytes left hold a list request, a bad header, a violation, or the end of the stream. |
| `AfterClose.ClientEventPanicsIff` | src/lib.rs:553 | A whole readable event panics if and only if there is no client or the input does not survive. |
| `AfterClose.ReceiveClosesIff` | src/tcp_handler.rs:78-104 | A `receive` that does not panic has lost the client if and only if the fate of its input is not to stay open. |
| `AfterClose.FlagsAfterCloseIff` | src/tcp_handler.rs:277-308 | After a `receive` that lost the client a flag is on if and only if a request read after the close enabled it last. |
| `AfterClose.LateRequestsDecide` | src/tcp_handler.rs:277-308 | After a violation any burst of well-formed enable and disable requests leaves every flag at its last word, starting from off, with nobody connected. |
| `AfterClose.LateEnableIsExecuted` | src/tcp_handler.rs:287-291 | A concrete input of that kind: a name length of 33, then one enable request. |
| `AfterClose.EndedStreamPanicsIff` | src/tcp_handler.rs:85-104 | A client that goes away makes the thread panic if and only if the input up to there was not read with the connection open to a missing or bad header. |
| `AfterClose.PromisedTooMuchPanics` | src/tcp_handler.rs:275-295 | The case from the wire: a request header promising more bytes than arrive before the stream ends. |
| `RequestTheorems.LastWriterWins` | src/tcp_handler.rs:78-121 | On any burst of well-formed requests whose list replies do not fail, `receive` comes to stand at the end of the input with every byte consumed, keeps the connection, writes one reply per list request, and leaves each flag as the last request naming it says, or unchanged. |
| `Interleaving.LastWriterWinsInRuns` | src/tcp_handler.rs:266-308 | The same in every reachable state and with any application calls interleaved between the steps of `receive`. |
| `RequestTheorems.ListedNamesCanBeEnabled` | src/tcp_handler.rs:124-140 | The body of a list reply, returned verbatim as an enable request, is consumed to its last byte and sets the flag of every registered tracepoint. |
| `Interleaving.ListedNamesInRuns` | src/tcp_handler.rs:266-308 | The same in every reachable state and under interleaving, for any order of the names the worker knows. |
| `Interleaving.ServingPanicsIff` | src/lib.rs:553 | In every run, interleaved or not, a readable event panics if and only if its input does not survive. |
| `Interleaving.FlagsAfterServingIff` | src/tcp_handler.rs:277-308 | In every run, after an event that cost the connection, the flag of a registered name is on if and only if the worker knew the name and bytes read after the close enabled it last. |
| `Interleaving.ReadingCommutes` | src/lib.rs:331-349 | Whatever the application does while `receive` runs, `receive` gets where it would have got alone, up to new cells that are off. |
| `RequestTheorems.LeavingBetweenRequestsIsClean` | src/tcp_handler.rs:85-92 | A client that leaves between two requests is closed once, without a panic, and all flags are off. |
| `RequestTheorems.DeclaredLengthBound` | src/tcp_handler.rs:266-308 | On any bytes and any declared length up to 2^32 - 34 the name loop closes or panics, or consumes at least the declared length and at most 33 bytes more; the set of names is unchanged in every case. |
| `RequestTheorems.CounterIsExactIff` | src/tcp_handler.rs:270-296 | Started at 0, the `u32` counter equals the bytes consumed wherever the loop gets, on every input, if and only if the declared length is at most 2^32 - 34. |
| `Requests.RequestsExecuted` | src/tcp_handler.rs:85-104 | Reading encoded requests equals applying them one by one and takes exactly their bytes, whatever follows. |
| `Requests.RequestExecuted` | src/tcp_handler.rs:266-308 | One well-formed request is applied, and the reader then stands right behind it. |
| `WireFormat.RequestBytes` | src/tcp_handler.rs:25-37 | The request encoding used above is, byte for byte, 52 75 53 74 00 00, then 00 01 for list, 00 03 for enable or 00 04 for disable, the big-endian body length, and the names. |
| `WireFormat.FooRequest` | src/tcp_handler.rs:113-119 | The 17 literal bytes that enable "foo" turn its flag on, with 04 in place of 03 off, and change nothing else. |
| `WireFormat.ListRequest` | src/tcp_handler.rs:108-121 | The 12 literal bytes that ask for the list cause exactly one reply, which lists the worker's names. |
| `WireFormat.ReplyListsTheMap` | src/tcp_handler.rs:124-145 | A list reply parses to the registered names, each once, and no others. |
| `WireFormat.HeaderAskedIff` | src/tcp_handler.rs:334-374 | Twelve ready bytes are accepted if and only if they start 52 75 53 74 00 00; the next two are the number, the last four the length, big-endian. |
| `WireFormat.ShortHeader` | src/tcp_handler.rs:86-91 | With fewer bytes `receive` waits if more may come, and otherwise the client is lost. |
| `WireFormat.NameReadIff` | src/tcp_handler.rs:275-300 | A name is read if and only if two bytes of length, at most 32, and that many bytes are there; anything else is a violation. |
| `WireFormat.BadHeaderCloses` | src/tcp_handler.rs:94-101 | Any other twelve bytes close the connection with every flag off and nothing written; only a read error behind them panics. |
| `WireFormat.OtherCommandsAreSkipped` | src/tcp_handler.rs:119 | A header with a number other than 1, 3 or 4 is skipped, without its body, with or without a client. |
| `WireFormat.PushFrameBytes` | src/tcp_handler.rs:211-232 | A push frame is 52 75 53 74 00 00 00 05, the big-endian body length, the body. |
| `WireFormat.ListFrameBytes` | src/tcp_handler.rs:211-232 | A list reply is the same with 02. |
| `WireFormat.RecordBytes` | src/tcp_handler.rs:236-263 | A record is name length, name, eight bytes of time, data length and data, all numbers big-endian. |
| `Requests.ApplyAllReads` | src/tcp_handler.rs:302-304 | Applying requests leaves a flag at the last request's word, for every registered name. |
| `Requests.SetAllReads` | src/tcp_handler.rs:302-304 | One request sets exactly the flags of the names it mentions. |
| `TracerThread.NamesThenReceive` | src/tcp_handler.rs:266-308 | Running the name loop to its end and then `receive` is running `receive`. |
| `WorkerInvariants.SendTraceDataKeepsCore` | src/tcp_handler.rs:148-180 | Sending with a client keeps the invariant; it either empties the buffer and leaves everything else, or closes once and remembers what was carried over. |
| `WorkerInvariants.SendWithoutClient` | src/tcp_handler.rs:200 | Sending without a client panics exactly when the buffer is non-empty. |
| `WorkerInvariants.HandlePayloadKeeps` | src/lib.rs:606-617 | A payload keeps the invariant or panics, the latter only without a client. |
| `WorkerInvariants.HandleTimeoutKeeps` | src/lib.rs:587-603 | A firing timer, also one whose send closes the connection, keeps the invariant or panics, the latter only without a client; that it sends is `QueueTimeoutSends`. |
| `Delivery.RunGrows` | src/tcp_handler.rs:185-208 | Over any run the log only grows, and only with writes to the current or a later session. |
| `Codec.ParserInvertsPrinter` | src/tcp_handler.rs:236-263 | The dissector reads `rs` out of a body if and only if the server prints `rs` as that body and all lengths fit their fields. |
| `Codec.NameParserInvertsPrinter` | src/tcp_handler.rs:124-138 | The same for tracepoint lists. |
| `Codec.CutRecoversFrames` | scripts/tracy.lua:74-76 | Cutting whole frames followed by an unfinished one gives back exactly those frames and the remainder. |
| `Codec.CutLosesNothing` | scripts/tracy.lua:74-76 | Cutting any byte stream loses no byte. |
| `Codec.FrameIsSelfDelimiting` | src/tcp_handler.rs:211-232 | The header code makes a queue whose length field is exact and whose command is the one given. |
| `Codec.Stamp` | src/tcp_handler.rs:435-448 | The stamp fits 64 bits and is the time exactly when the time is between the epoch and 2^64 nanoseconds. |
| `Bytes.CastIsLosslessIffSmall` | src/tcp_handler.rs:211-263 | A cast to k bytes followed by reading it back is the identity exactly on numbers below 256^k. |
| `Names.NormalIffFixedPoint` | src/lib.rs:460-474 | The fixed points of the normalisation are exactly the ASCII strings of at most 32 bytes without upper-case letters. |
| `Names.FixYieldsNormalNames` | src/lib.rs:460-474 | A string is accepted exactly when ASCII, and is then put in normal form. |
| `Names.FixIsIdempotent` | src/lib.rs:460-474 | Normalising twice is normalising once. |
| `Names.SameNormalFormIff` | src/lib.rs:460-474 | Two accepted strings have one normal form exactly when their first 32 bytes agree up to case. |
| `Names.AsciiLooksItselfUp` | src/tcp_handler.rs:298-302 | A received ASCII name is looked up as itself. |
| `Names.OnlyBrokenNamesLookUpTheEmptyOne` | src/tcp_handler.rs:298-302 | A non-ASCII UTF-8 name is looked up as itself, bytes that are not UTF-8 as the empty name. |
| `Encoder.EncodeAppendTraceData` | src/tcp_handler.rs:236-263 | Pushing an element byte by byte appends exactly the record a client reads back. |
| `Encoder.PushFrontHeader` | src/tcp_handler.rs:211-232 | Four reversed pushes to the front turn the queue into the frame for that body. |
| `Encoder.EncodeNameList` | src/tcp_handler.rs:124-138 | The reply loop produces the list encoding of the names in the order visited. |
| `Dissector.DissectPushPayload` | scripts/tracy.lua:97-124 | The offset loop finds exactly the records the parser finds in the body, or fails where it does. |
| `Dissector.DissectTracepointList` | scripts/tracy.lua:78-95 | The same for names. |
| `Dissector.DissectTcpPdus` | scripts/tracy.lua:170-172 | Cutting off whole PDUs while there are any computes the stream cut. |
| `PythonClient.PythonAgreesWithLua` | client/client.py:129-155 | On any frame with an exact length field, the dissector accepts the push body exactly when the Python loop ends at the end of the frame, and then both read the same records. |
| `PythonClient.PythonListAgreesWithLua` | client/client.py:157-176 | The Python list loop reaches the end of the frame without an exception exactly when the dissector accepts it and all names are ASCII, and then the names are the same. |
| `PythonClient.ServerFramesPassTheHeaderCheck` | client/client.py:43-59 | Every push and list frame the server builds passes the client's header check with the right length. |
| `PythonClient.HeaderUnderstoodIff` | client/client.py:43-59 | The client accepts a header if and only if it starts 52 75 53 74, its number is 2 or 5 and its length plus 12 is the size of the delivery. |
| `PythonClient.Tracy.ParseTracePushMsg` | client/client.py:129-155 | The loop appends the messages of the recursive reading, clamped slices included, and returns its end offset. |
| `PythonClient.Tracy.ParseTracepointListMsg` | client/client.py:157-176 | The same for names, stopping at the first that is not ASCII; the all-enabled mark is dropped on normal return. |
| `Context.TracerContext.CloseAndCleanConnection` | src/lib.rs:198-214 | Computes the close of the worker state; without a connection it panics. |
| `Context.TracerContext.SendSlices` | src/tcp_handler.rs:190-208 | One write of a whole frame, recorded with its outcome; fails only on an error other than WouldBlock and panics without a connection. |
| `Context.TracerContext.SendTraceData` | src/tcp_handler.rs:148-180 | The greedy loop with its byte queue sends exactly the frames of the greedy grouping and leaves the corresponding buffer, whatever the outcomes; it terminates. |
| `Context.TracerContext.SendTracepointList` | src/tcp_handler.rs:124-145 | One list reply with every key, closing on error. |
| `Context.TracerContext.SetTracepoints` | src/tcp_handler.rs:266-308 | The name loop computes the small-step machine run to its end, from any input. |
| `Context.TracerContext.Receive` | src/tcp_handler.rs:78-105 | The whole loop computes the small-step machine run to its end, from any input; it terminates. |
| `Context.ParseHeader` | src/tcp_handler.rs:334-374 | Byte-by-byte field copies: succeeds if and only if the header starts 52 75 53 74 00 00, and yields the command and length its bytes spell. |
| `Context.TracerContext.ChannelDataHandler` | src/lib.rs:606-617 | Append, then send at once or arm the timer, depending on the counter. |
| `Context.TracerContext.ChannelHandler` | src/lib.rs:562-584 | Drains the channel: afterwards the thread has ended or nothing is left and every message was taken up in order. |
| `Context.TracerContext.TimerHandler` | src/lib.rs:587-603 | Fires the due entries in order, an entry cancelled meanwhile excepted; afterwards the thread has ended or none of them is armed. What a firing entry does is `QueueTimeoutSends`. |
| `Context.TracerContext.EventHandler` | src/lib.rs:536-559 | Handles a batch in order until the thread ends; what each event does is stated by the four `Handlers` rows on events, and that none is skipped by `BatchesCompose`. |
| `Application.TracerNg.Enabled` | src/lib.rs:355-367 | The state of the cell registered under exactly the given string, false if there is none. |
| `Application.TracerNg.Register` | src/lib.rs:313-350 | Returns 0 if and only if the string is ASCII and its normal form is new; then the name gets a fresh cell, off, in the map and in the channel. |
| `Application.TracerNg.Submit` | src/lib.rs:387-440 | Exactly one payload with the normalised name, the time and all the bytes enters the channel if length, connection, name and flag allow it, otherwise nothing changes. |
| `Submissions.RegisterSucceedsIff` | src/lib.rs:331-349 | The return code is 0 exactly for a new ASCII name, else -1 with nothing changed, and what changes on success. |
| `Application.QueryKeepsItsPromiseIff` | src/tracy.h:144-151 | The query agrees with its documentation in every state exactly for strings already in normal form or not ASCII. |
| `Refinement.EventIsARun` | src/lib.rs:541-556 | Each event handled in one piece is a run of the transition system, so the invariants hold of it; what it does is in the `Handlers` rows. |
| `Refinement.EventsAreARun` | src/lib.rs:536-559 | So is a whole batch, hence all theorems about runs hold of the in-place event handler. |

## Left out

- Socket binding, port search, `accept` internals, poll registration and their panics: I/O; an accept succeeds or fails as an event.
- `try_clone` failures, a panic inside `poll`, edge-triggered readiness and the wheel inside mio's timer: library internals; the timer is a map of armed entries and the channel a sequence.
- Partial writes that complete later: a write that stops early puts a prefix on the wire and the rest is dropped, as `send_slices` does; exactly-once delivery therefore assumes complete writes.
- Delivery.ExactlyOnceDelivery: assumes that list replies stay under 4 GiB, beyond which the `u32` length cast is lossy; push frames need no such assumption.
- Sessions.EveryClientDecodesItsSlice: makes the same assumption for the session it is about.
- RequestTheorems.ListedNamesCanBeEnabled: assumes a list body under 2^32 bytes for the same reason.
- Interleaving.ListedNamesInRuns: makes the same assumption.
- AfterClose.PromisedTooMuchPanics: one way only and up to a declared length of 2^32 - 34; `EndedStreamPanicsIff` is the exact condition without that limit.
- AfterClose.LateEnableIsExecuted: one input; `LateRequestsDecide` and `FlagsAfterCloseIff` are the general laws.
- RequestTheorems.DeclaredLengthBound: beyond 2^32 - 34 the counter can wrap; `CounterIsExactIff` shows the limit is exact.
- Context.TracerContext.SendTraceData: requires that every buffered element fits an empty queue, without which the loop does not end (`LoopEndsIffAllFit`); `SendingAlwaysEnds` shows that this holds in every reachable state.
- Refinement.EventsAreARun: the application does not act while the batch is handled; interleavings inside an event are runs of the transition system, not of the classes.
- C strings, null pointers, `Box` ownership, lossy UTF-8 conversion and `tracy_submit_printf`: raw memory; a name is its byte sequence.
- Concurrent calls of `tracy_register`, or of `tracy_register` and `tracy_submit`, on one handle: unsynchronised access in the original; registration is one step.
- UDP announcement contents, JSON and `sequence_no`: only the announce timer matters here.
- `usize` overflow of `buffer_occupancy`: the counter is unbounded.
- `clear_buffer`: dead code in the original.
- The Python client's request encoders and its handling of several frames per delivery: they do not match the server's format.
- Timestamp display, Wireshark fields and columns, logging: no state.
- Liveness, such as a second waiting client being accepted: depends on poll behaviour that is not visible.
