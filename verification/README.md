# Verification model of the inlets tunnel

inlets exposes local services through a server. A client holds two kinds of WebSocket channels to it, and
requests, responses and raw TCP bytes travel over them in a small binary framing protocol. This project
models the parts of that system whose correctness is hard to see from one function, and proves what they
promise. One module per part:

| module | part of the system |
|---|---|
| `Words`, `Texts`, `Scripts` | byte strings, 32-bit words, text and digits, scripted outcomes |
| `Codec` | the binary frame and its two parsers |
| `Reassembly`, `StreamManagement`, `StreamTable` | chunked streams, their state machine, the table of streams, its cleanup, and runs on the table |
| `FlowWindow` | send and receive windows |
| `SendSlot`, `SendStreaming` | waiting for room in the window, the chunk loop under flow control, and the whole path from payload to payload |
| `TokenBuckets`, `Limiter` | token buckets and the two-level bandwidth limiter |
| `ConcurrentLimiter`, `LateRefusals`, `LazyBuckets` | overlapping checks, their late refusals, and buckets made while limits change |
| `LineDiff`, `DiffText` | the line diff of configuration revisions, its two printers and its parser |
| `Callbacks` | pending requests of the buffered HTTP path, with timeout, duplicates and failures |
| `ListenerLife` | public TCP listeners: creation, recovery and destruction |
| `FrameFates`, `TcpRelay`, `RelayProgress` | opening a TCP stream over two independent channels, and relaying its bytes |
| `SemanticStream`, `ResponseSession` | requests and responses streamed as head and body frames, and the server's response sessions |
| `JsonPath`, `Secrets`, `SecretRestore` | the path lens of the configuration form, masking and restoring secrets |
| `HttpFraming` | explicit framing of empty HTTP/1 responses |

Objects that the program updates in place are classes; each method's postcondition ties the new state to a
reference function of the old one, and the lemmas are about those functions and their runs. Goroutines
that share state are step relations: one step for each locked section, channel operation or system call,
and the lemmas speak of every interleaving. Time is a number that callers pass in, floating-point numbers
are reals, network failures are outcomes chosen freely, in some places written down in advance as scripts.

Where the code does not do what its comments or its design suggest, the model follows the code:

- the server's frame parser reads past the end on some inputs that the client's parser refuses (`Codec.ParseServer`);
- both branches of the bandwidth check marked as unreachable are reached when checks overlap, and one of them wastes global tokens, exactly when the global limit and some client's are positive (`LateRefusals.WasteExactly`); a check with its buckets to itself reaches neither (`LateRefusals.UndisturbedIsNotLate`);
- a limit removed between the two locked sections of lazy bucket creation leaves a bucket without a limit, but never one that disagrees with a limit (`LazyBuckets.OrphanExactly`, `LazyBuckets.LimitedBucketsMatch`);
- recovery of a public listener after a failed accept never succeeds (`ListenerLife.RecoveryNeverRebinds`), and a listener can be bound for a moment after the container was destroyed (`ListenerLife.NoneBoundAfterDestroyExactly`);
- a request whose send fails is answered twice exactly when its callback had already answered and the connection was still open for the second answer (`Callbacks.TwoAnswersExactly`);
- a whole response to a streamed request leaves its session's entry in the table, exactly as long as nothing else ends it (`ResponseSession.LeftBehindExactly`);
- a payload is delivered again when its frames come again after cleanup, and not at all when a stall is found between its frames (`StreamTable.DeliveredPerLife`);
- the bounded wait for a local connection, and the bandwidth limit, can each leave a gap in a relayed TCP stream, exactly when something passes after what was given up (`TcpRelay.WrittenInOrderExactly`, `TcpRelay.RelayedInOrderExactly`);
- a streamed request fails after its FIN frame went out exactly when the read that completed the body also reported an error (`SemanticStream.FailsAfterFinExactly`);
- the admin page's diff text is not in the same format as the server's for texts that end with a newline (`DiffText.SameFormatExactly`);
- a secret whose path leads into a string is not restored (`Secrets.OneSecretExactly`), which no path of the shipped schema does (`SecretRestore.ShippedSchemaRestored`), and a path of separators only cannot be read back (`JsonPath.GetAfterSetExactly`).

`dafny verify dfyconfig.toml` checks the whole project.

## Model

| member | source | states |
|---|---|---|
| `Codec.BuildBinaryMessage` | internal/server/protocol/binary.go:55-97 | fills the buffer with exactly the documented layout, and refuses exactly the ids over 255 bytes |
| `Codec.LayoutExactly` | internal/server/protocol/binary.go:55-97 | where each field of a frame is, its words most significant byte first, and that the length field keeps the low 32 bits |
| `Codec.ParseClient` | internal/client/utils.go:94-144 | total: it answers what the format says on every byte string and never reads outside it; too short and too short for the id are told apart |
| `Codec.ParseServer` | internal/server/protocol/binary.go:100-150 | reads past the end on exactly the inputs with at least 11 bytes whose id leaves fewer than nine for the rest of the header, and agrees with the client on every other input |
| `Codec.DecodeEncode` | internal/client/utils.go:51-144 | parse(build(m) ++ junk) is m with its data cut to what the 32-bit length field can express |
| `Codec.RoundTripExactly` | internal/client/utils.go:51-144 | the round trip is exact if and only if the data is under 2^32 bytes |
| `Codec.EncodeDecode` | internal/client/utils.go:51-144 | build(parse(b)) is a prefix of b, whatever parses |
| `Codec.ParsedExactly` | internal/client/utils.go:94-144 | a byte string parses if and only if it begins with a frame |
| `Codec.UniquelyDecodable` | internal/server/protocol/binary.go:55-150 | no frame is a proper prefix of another: a byte string begins with at most one frame |
| `Reassembly.Stream.constructor` | internal/server/protocol/stream_manager.go:45-56 | a new stream expects chunk 0, knows no total and holds nothing |
| `Reassembly.Stream.AddChunk` | internal/server/protocol/stream_manager.go:59-81 | moves the whole observable state as the reference step does: finished streams ignore it, others store and drain |
| `Reassembly.Stream.TryReassemble` | internal/server/protocol/stream_manager.go:84-125 | the loop reaches the fixpoint of taking the next consecutive chunk, stopping at the end of the stream |
| `Reassembly.Stream.Pause` | internal/server/protocol/stream_manager.go:128-135 | only an active stream pauses |
| `Reassembly.Stream.Resume` | internal/server/protocol/stream_manager.go:138-147 | only a paused stream resumes, and then drains what arrived meanwhile |
| `Reassembly.Stream.Destroy` | internal/server/protocol/stream_manager.go:150-158 | drops chunks, data and both callbacks |
| `Reassembly.SplitIntoChunks` | internal/server/protocol/stream_manager.go:188-204 | the loop cuts the payload into the reference split, with the default size for a non-positive one |
| `Reassembly.SplitFacts` | internal/server/protocol/stream_manager.go:188-204 | the pieces spell the payload, all but the last are full and none is empty |
| `Reassembly.RunKeeps` | internal/server/protocol/stream_manager.go:59-147 | over every run of arrivals, pauses, resumes and cleanups, honest or not, the data is the concatenation of chunks 0..expected-1 without a gap, each of them an arrival |
| `Reassembly.StandsExactly` | internal/server/protocol/stream_manager.go:59-147 | over every run, an unfinished stream is paused if and only if the latest request was to pause, and expects the number of chunks announced by the latest chunk marked as last |
| `Reassembly.DrainExactly` | internal/server/protocol/stream_manager.go:84-125 | from any state, the next waiting chunks are consumed up to the first gap or the first chunk that is marked as last or completes the announced number; only the latter finishes the stream |
| `Reassembly.TerminalAbsorbs` | internal/server/protocol/stream_manager.go:63-65 | completed and error are absorbing and fire nothing further |
| `Reassembly.DestroyedIsSilent` | internal/server/protocol/stream_manager.go:150-158 | a destroyed stream holds nothing and calls nobody, whatever comes |
| `Reassembly.CallbacksAtMostOnce` | internal/server/protocol/stream_manager.go:107-122 | OnComplete and the eviction OnError never both fire and never twice, and each fires exactly when its final state is reached with a callback set |
| `Reassembly.DeliveredExactlyOnce` | internal/server/protocol/stream_manager.go:59-125 | the numbered frames of any non-empty payload, in any order with any duplicates, pauses and resumes, deliver the payload once if and only if all have arrived |
| `StreamManagement.StreamManager.EnsureStream` | internal/server/protocol/stream_manager.go:222-236 | the first registration wins; other streams are untouched |
| `StreamManagement.StreamManager.AddChunk` | internal/server/protocol/stream_manager.go:249-260 | a chunk for an unknown stream changes nothing; otherwise only that stream moves |
| `StreamManagement.StreamManager.RemoveStream` | internal/server/protocol/stream_manager.go:263-272 | destroys and removes that stream, no other |
| `StreamManagement.StreamManager.SweepOne` | internal/server/protocol/stream_manager.go:304-333 | one turn: finished streams go, stalled ones go with one OnError, others stay as they are |
| `StreamManagement.StreamManager.Cleanup` | internal/server/protocol/stream_manager.go:290-334 | the whole pass: afterwards the table holds exactly the streams that were neither finished nor stalled, each untouched, and every evicted one was told once |
| `StreamTable.Receive` | internal/server/protocol/binary.go:519-590 | a streamed frame makes its stream if there is none and goes to it: the table moves as the two reference operations do |
| `StreamTable.CleanupPass` | internal/server/protocol/stream_manager.go:290-334 | the pass leaves exactly the streams that are neither finished nor stalled |
| `StreamTable.PassIsTurns` | internal/server/protocol/stream_manager.go:304-333 | marking and removing the streams one by one, in any order and without interruption, is such a pass, and delivers nothing |
| `StreamTable.DeliveredPerLife` | internal/server/protocol/binary.go:519-590 | over every run of arrivals, pauses, removals and cleanup, with anything between marking a stream and removing it, a payload is delivered exactly once for each stream of its id that had all the frames before it was found stalled, told from the operations alone |
| `StreamTable.NoMoreThanFramesCame` | internal/server/protocol/binary.go:519-590 | it is delivered no more often than each of its frames came, so at most once without duplicates |
| `StreamTable.DeliveredTwice` | internal/server/protocol/stream_manager.go:329-333 | it is delivered twice when its frames come again after the finished stream was removed |
| `StreamTable.LateFrameWaits` | internal/server/protocol/stream_manager.go:316-333 | it is not delivered, although each frame came once, when the stream was found stalled between them |
| `FlowWindow.FlowController.InitializeStream` | internal/server/protocol/flow_controller.go:32-48 | a fresh window of the asked or the default size, other streams untouched |
| `FlowWindow.FlowController.TrySend` | internal/server/protocol/flow_controller.go:66-95 | admits exactly when the bytes in flight stay within the maximum |
| `FlowWindow.FlowController.OnAck` | internal/server/protocol/flow_controller.go:103-120 | takes the acknowledged bytes off, never below zero |
| `FlowWindow.FlowController.Receive` | internal/server/protocol/flow_controller.go:123-149 | accepts exactly when the receive window covers the bytes |
| `FlowWindow.FlowController.ReleaseReceiveWindow` | internal/server/protocol/flow_controller.go:152-170 | gives bytes back, never above the maximum |
| `FlowWindow.FlowController.RemoveStream` | internal/server/protocol/flow_controller.go:181-186 | forgets one stream only |
| `FlowWindow.SendWindowIsSuffixMaximum` | internal/server/protocol/flow_controller.go:66-120 | for every default size, after any run the send window is within [0, max] and equals the largest net amount (admitted - acknowledged) over the suffixes of the run |
| `FlowWindow.ReceiveWindowIsSuffixMaximum` | internal/server/protocol/flow_controller.go:123-170 | for every default size, max minus the receive window equals the same form for (accepted - released) |
| `FlowWindow.AdmittedExactly` | internal/server/protocol/flow_controller.go:66-149 | for every default size, a call goes through if and only if no suffix of the history would exceed the maximum |
| `FlowWindow.BoundsNeedNonNegativeMax` | internal/server/protocol/flow_controller.go:32-48 | for every default size, the windows stay in bounds over every run if and only if the size is not negative |
| `FlowWindow.EntryExactly` | internal/server/protocol/flow_controller.go:32-186 | a stream has an entry in the shared table after any run if and only if its last call that could make or remove one was not its removal |
| `FlowWindow.StreamsDoNotInterfere` | internal/server/protocol/flow_controller.go:32-186 | the one table that all streams share, with windows made on first use and removed, holds for each stream what that stream's own calls alone would leave |
| `FlowWindow.SharedTableExactly` | internal/server/protocol/flow_controller.go:32-186 | on the table shared by all streams, for every default size, the window of a stream and what it admits and accepts are told by its own calls since it was initialized, whatever came before and whatever others do; so too for a stream never initialized |
| `SendStreaming.Sender.WaitFlowSendSlot` | internal/server/protocol/binary.go:338-358 | for every script of delays and acknowledgements the back-off loop ends where the reference wait does: with room at once it gets in at once, it gives up only after the deadline, and touches no other stream |
| `SendSlot.WaitExactly` | internal/server/protocol/binary.go:338-358 | waiting succeeds if and only if some try finds room by what was acknowledged until then and every try before it is within the deadline |
| `SendSlot.GivesUpSoon` | internal/server/protocol/binary.go:338-358 | who gives up had no room at any try, the last but one of which was in time, and gives up at most a hundred milliseconds and one delay after the deadline |
| `SendSlot.BackoffDoubles` | internal/server/protocol/binary.go:343-355 | the pauses start at 5 ms and double up to 100 ms |
| `SendSlot.QuietWait` | internal/server/protocol/binary.go:338-358 | without acknowledgements waiting gets in exactly when there is room at once |
| `SendStreaming.Sender.SendAll` | internal/server/protocol/binary.go:1020-1086 | for every script of delays, acknowledgements and writes, what is written is a prefix of the numbered frames, all of them exactly on success, cut at the first wait given up or write failed as the reference loop says; no other stream is touched |
| `SendStreaming.Sender.SendStreaming` | internal/server/protocol/binary.go:992-1088 | the same for the whole operation, from the payload and a fresh window |
| `SendStreaming.QuietSends` | internal/server/protocol/binary.go:1020-1086 | without acknowledgements no more than the longest prefix of chunks that fits the window goes out, and exactly that if no write fails |
| `SendStreaming.AcknowledgedSends` | internal/server/protocol/binary.go:1020-1086 | if every pause acknowledges a window full, all chunks go out, however many, as long as each fits the window |
| `SendStreaming.UnlimitedSends` | internal/server/protocol/binary.go:1028-1033 | without flow control exactly the chunks before the first failing write go out |
| `SendStreaming.FittingIsLongest` | internal/server/protocol/binary.go:1024-1030 | the chunks counted as fitting fit together, and one more does not |
| `SendStreaming.AllFitsExactly` | internal/server/protocol/binary.go:992-1088 | the chunks that fit the window, one after another without acknowledgements, are all of them if and only if the whole payload fits it |
| `SendStreaming.WireFrameSays` | internal/server/protocol/binary.go:1040-1046 | each frame parses to the kind and id of the stream, the number of its chunk, FIN on the last only, and the chunk |
| `SendStreaming.FinOnLastFrameOnly` | internal/server/protocol/binary.go:1021-1046 | the parsed FIN flag is on exactly the last frame, so a send cut short shows none |
| `SendStreaming.PayloadCrossesTheWire` | internal/server/protocol/binary.go:480-594 | splitting, numbering, framing, any delivery order with duplicates and pauses, parsing and reassembling gives the payload once, if and only if every frame arrived |
| `TokenBuckets.TokenBucket.CanConsume` | internal/server/limiter/bandwidth.go:28-34 | refills, and answers whether the level suffices without taking any |
| `TokenBuckets.TokenBucket.Consume` | internal/server/limiter/bandwidth.go:37-49 | refills, and takes exactly when the level suffices |
| `TokenBuckets.TokenBucket.GetAvailableTokens` | internal/server/limiter/bandwidth.go:52-58 | refills, and tells the level |
| `TokenBuckets.LevelExactly` | internal/server/limiter/bandwidth.go:28-68 | after any calls at any times the level is the least of the capacity and of what each earlier instant leaves of capacity + rate * elapsed - admitted |
| `TokenBuckets.ConsumeExactly` | internal/server/limiter/bandwidth.go:37-49 | Consume(n) says yes if and only if n fits the capacity and every such budget |
| `TokenBuckets.ProbesChangeNothing` | internal/server/limiter/bandwidth.go:28-58 | interleaved CanConsume and GetAvailableTokens calls leave the level at every later time as it would have been without them |
| `TokenBuckets.AnswersIgnoreProbes` | internal/server/limiter/bandwidth.go:28-58 | so they change no later answer |
| `TokenBuckets.TokensNeverNegative` | internal/server/limiter/bandwidth.go:37-68 | the level never goes below zero |
| `TokenBuckets.IntervalBound` | internal/server/limiter/bandwidth.go:37-68 | what is admitted between any two calls is at most capacity + rate * elapsed |
| `Limiter.BandwidthLimiter.constructor` | internal/server/limiter/bandwidth.go:109-135 | global bucket as configured, client buckets left for first use |
| `Limiter.BandwidthLimiter.GetClientBucket` | internal/server/limiter/bandwidth.go:138-162 | finds or creates the bucket of a limited client, and gives none otherwise |
| `Limiter.BandwidthLimiter.CheckBoth` | internal/server/limiter/bandwidth.go:211-235 | looks at both buckets, then takes from both, global first, each at its own instant |
| `Limiter.BandwidthLimiter.Check` | internal/server/limiter/bandwidth.go:196-238 | answers and moves the whole table as the reference check does, other buckets untouched |
| `Limiter.BandwidthLimiter.SetClientLimit` | internal/server/limiter/bandwidth.go:290-320 | sets the limit and starts a full bucket; without a limit in the request nothing changes |
| `Limiter.BandwidthLimiter.RemoveClientLimit` | internal/server/limiter/bandwidth.go:323-330 | forgets the limit and the bucket |
| `Limiter.BandwidthLimiter.UpdateLimits` | internal/server/limiter/bandwidth.go:333-382 | the loop leaves exactly one full bucket for each limited client |
| `Limiter.BucketsMatchLimits` | internal/server/limiter/bandwidth.go:290-382 | over every run of checks and limit changes that do not overlap, each stored bucket has the capacity and rate of the configured limit |
| `Limiter.UninterruptedCheck` | internal/server/limiter/bandwidth.go:196-238 | with the buckets to itself a check never takes either of the two branches marked unreachable; it is granted if and only if both have the bytes, a refusal takes from neither, a grant exactly n from each |
| `Limiter.GrantedExactly` | internal/server/limiter/bandwidth.go:196-238 | a check is granted if and only if the bucket of the client, if it is limited, and the global one, if there is one, have the bytes |
| `Limiter.AfterSetLimit` | internal/server/limiter/bandwidth.go:290-320 | after a limit was set the next check of that client is granted if and only if its size is within the new limit and the global bucket has it; other clients, and a request without a limit, are decided as before |
| `Limiter.AfterRemoveLimit` | internal/server/limiter/bandwidth.go:323-330 | after a limit was removed only the global bucket decides; other clients are decided as before |
| `Limiter.AfterUpdate` | internal/server/limiter/bandwidth.go:333-382 | on a new limiter, and after an update, a first check is granted if and only if it is within the limits configured |
| `Limiter.LazyFollowsEager` | internal/server/limiter/bandwidth.go:138-162 | tables that differ only in untouched buckets stay so and answer alike over every run |
| `Limiter.FirstUseEqualsUpFront` | internal/server/limiter/bandwidth.go:109-162 | creating client buckets on first use answers every sequence of checks and limit changes exactly as creating them up front |
| `ConcurrentLimiter.ExecKeeps` | internal/server/limiter/bandwidth.go:196-238 | in every interleaving each bucket is where an ordered run of its own operations left it, and the log accounts for every byte |
| `ConcurrentLimiter.DebitsBounded` | internal/server/limiter/bandwidth.go:196-238 | in every interleaving the bytes taken from each bucket over an interval of length d are at most rate * (1 + d) |
| `ConcurrentLimiter.GrantsArePaid` | internal/server/limiter/bandwidth.go:196-238 | in every interleaving a granted call was debited from both buckets, a refused one from none, except that one refused by its last operation has paid the global bucket |
| `LateRefusals.FourTurnsAreTheCheck` | internal/server/limiter/bandwidth.go:205-238 | the four turns of one thread, with nothing between them, are the sequential check of the same two buckets: same verdict, same levels, no other bucket touched |
| `LateRefusals.OneTurnIsTheCheck` | internal/server/limiter/bandwidth.go:199-205 | likewise the one turn of a call without client id |
| `LateRefusals.UndisturbedIsNotLate` | internal/server/limiter/bandwidth.go:218-235 | in every interleaving, a check between whose first and last operation nobody else uses its two buckets takes neither of the branches marked unreachable |
| `LateRefusals.LateClientExactly` | internal/server/limiter/bandwidth.go:229-235 | some interleaving refuses a call of n bytes at its very last operation if and only if the client is limited, n is positive and n fits both limits |
| `LateRefusals.LateGlobalExactly` | internal/server/limiter/bandwidth.go:219-226 | some interleaving refuses it at its take from the global bucket if and only if that is limited, n is positive and n fits both limits |
| `LateRefusals.WasteExactly` | internal/server/limiter/bandwidth.go:219-235 | overlapping checks can take global tokens for bytes that are then refused if and only if the global limit and the limit of some client are positive |
| `LazyBuckets.StepKeeps` | internal/server/limiter/bandwidth.go:138-162 | with the limit read in one locked section and the bucket made in another, every step of every goroutine and every limit change keeps limits, limit objects and buckets consistent |
| `LazyBuckets.LimitedBucketsMatch` | internal/server/limiter/bandwidth.go:138-162 | whatever limit changes come between the two sections, a bucket stored for a client that has a limit has the rate of that limit |
| `LazyBuckets.OrphanExactly` | internal/server/limiter/bandwidth.go:138-162 | a bucket is stored for a client without a limit if and only if a goroutine made it when the limit it had read was gone, and no limit, removal or update for that client came since |
| `LazyBuckets.OrphanNeedsChange` | internal/server/limiter/bandwidth.go:323-340 | making such a bucket takes a removal or an update after that goroutine read the limit |
| `LazyBuckets.OrphanHappens` | internal/server/limiter/bandwidth.go:143-161 | it happens: a removal between the two sections leaves a bucket behind |
| `LazyBuckets.UninterruptedIsObtain` | internal/server/limiter/bandwidth.go:138-162 | without interruption the two sections are the one step of the sequential limiter |
| `LazyBuckets.SetIsSetLimit` | internal/server/limiter/bandwidth.go:290-320 | setting a limit in the overlapping model is what the sequential limiter does |
| `LazyBuckets.RemoveIsRemoveLimit` | internal/server/limiter/bandwidth.go:323-330 | so is removing one |
| `LazyBuckets.UpdateIsUpdated` | internal/server/limiter/bandwidth.go:333-382 | and replacing them all |
| `LineDiff.FillTable` | internal/server/admin/service/revisions.go:136-153 | the nested loops fill the table with the recursive definition at every cell |
| `LineDiff.FillTableByMax` | admin/src/components/DiffViewer.tsx:45-52 | the differently written loops of the page fill the same table |
| `LineDiff.Backtrack` | internal/server/admin/service/revisions.go:154-169 | the walk back gives the reverse of the reference script and never outgrows the buffer allocated for it |
| `LineDiff.ReverseInPlace` | internal/server/admin/service/revisions.go:170-173 | the swap loop reverses the array in place |
| `LineDiff.LcsDiff` | internal/server/admin/service/revisions.go:135-175 | the server returns the reference script |
| `LineDiff.LcsDiffByMax` | admin/src/components/DiffViewer.tsx:44-68 | the page returns the same script on the same lines |
| `LineDiff.DiffIsPatch` | internal/server/admin/service/revisions.go:133-175 | kept and removed lines spell the old text, kept and added lines the new one |
| `LineDiff.NoLongerCommonSubsequence` | internal/server/admin/service/revisions.go:137-153 | no common subsequence is longer than the table entry |
| `LineDiff.KeptIsCommon` | internal/server/admin/service/revisions.go:154-169 | the kept lines of any script are common to both texts, and changes + 2 * kept is the number of lines of both |
| `LineDiff.KeptIsLongest` | internal/server/admin/service/revisions.go:133-175 | the kept lines are a longest common subsequence |
| `LineDiff.NoShorterScript` | internal/server/admin/service/revisions.go:133-175 | no script from old to new has fewer additions and removals |
| `LineDiff.UnchangedExactly` | internal/server/admin/service/revisions.go:133-175 | the diff shows no change if and only if the lines are the same |
| `LineDiff.ChangesInOrder` | internal/server/admin/service/revisions.go:154-169 | in every change the removed lines come before the added ones |
| `DiffText.UnifiedDiff` | internal/server/admin/service/revisions.go:94-114 | prints the script of the split lines, one marked line each |
| `DiffText.ComputeDiff` | admin/src/components/DiffViewer.tsx:35-40 | prints the script of the full split, joined by newlines |
| `DiffText.ParsesServerDiff` | admin/src/components/DiffViewer.tsx:6-15 | the page's parser undoes the server's printer: it gives the edit list, from which both line lists are rebuilt |
| `DiffText.ParsesPageDiff` | admin/src/components/DiffViewer.tsx:6-15 | it undoes the page's own printer as well, and both texts are rebuilt in full |
| `DiffText.ParsesAnyText` | admin/src/components/DiffViewer.tsx:6-15 | any text is read line by line without the empty ones: a marked line as an edit of that kind, any other as kept |
| `DiffText.LinesGiveText` | internal/server/admin/service/revisions.go:121-131 | the split lines give the text back, with a final newline if it had none |
| `DiffText.SameFormatExactly` | admin/src/components/DiffViewer.tsx:34-40 | the page shows the same edits for both printers if and only if neither text is empty or ends with a newline, although the comment promises the same format |
| `Callbacks.CallbackContainer.Get` | internal/server/container/callback.go:23-33 | looks up the flat table without changing it |
| `Callbacks.CallbackContainer.Take` | internal/server/container/callback.go:36-56 | removes and returns exactly that entry; the nested map still refines the flat one and has no empty inner map |
| `Callbacks.CallbackContainer.Set` | internal/server/container/callback.go:59-67 | stores one entry of the flat table |
| `Callbacks.CallbackContainer.Remove` | internal/server/container/callback.go:70-75 | drops all entries of one connection |
| `Callbacks.NestsTake` | internal/server/container/callback.go:50-53 | deleting the last callback of a connection together with its inner map keeps the nested map a refinement of the flat one, with no empty inner map |
| `Callbacks.StepKeeps` | internal/server/tunnel/http.go:989-1070 | every step keeps each callback in exactly one place: the table, a holder, run, or dropped; and a connection once closed stays closed |
| `Callbacks.AtMostOnce` | internal/server/channels/monitor/auth.go:522-550 | in every interleaving of responses, duplicates, the timeout, failed sends and closing connections a callback runs at most once |
| `Callbacks.ExactlyOnceAfterTimer` | internal/server/tunnel/http.go:991-1001 | once the timer's handler is over and nobody holds the callback, it has run exactly once if and only if it was not dropped, and only a failed send or a close drops it |
| `Callbacks.TimerSettles` | internal/server/tunnel/http.go:991-1001 | from every state with an armed timer, firing it makes the callback run |
| `Callbacks.ResponseSettles` | internal/server/channels/monitor/auth.go:522-550 | a whole response, binary or legacy, takes the callback of a pending request, which then runs and answers if the connection is open; any other frame, and a response to nothing pending, changes nothing |
| `Callbacks.CloseDrops` | internal/server/tunnel/http.go:457-460 | the end of a connection drops the callbacks pending on it and no other |
| `Callbacks.TwoAnswersExactly` | internal/server/tunnel/http.go:1004-1070 | over every run a request gets at most two answers, and two exactly when its callback wrote one and left the connection open, and the 404 of the failed send still found it open; never in the other order, since the 404 closes the connection |
| `Callbacks.TwoAnswersHappen` | internal/server/tunnel/http.go:989-1014 | that happens: sending stalls, the timeout answers 504, then the send fails and answers 404 |
| `ListenerLife.StepKeeps` | internal/server/tunnel/tcp.go:52-136 | every step of creation, recovery and destruction keeps the account of who looks after which listener |
| `ListenerLife.EveryListenerHeld` | internal/server/tunnel/tcp.go:127-136 | every open public listener is the source server of a live container or in the hands of exactly one unfinished goroutine |
| `ListenerLife.FlightEnds` | internal/server/tunnel/tcp.go:160-186 | from any state and in any interleaving, a goroutine that is not serving is over after at most eight steps of its own, however its calls turn out, and never comes to serve |
| `ListenerLife.NoneLeftAtQuiescence` | internal/server/container/tunnel.go:32-48 | when a destroyed container's goroutines are over, no listener of it is open |
| `ListenerLife.DeadForGood` | internal/server/container/tunnel.go:36-47 | after Destroy the container never comes back and no listener becomes its source server |
| `ListenerLife.NoneBoundAfterDestroyExactly` | internal/server/tunnel/tcp.go:88-98 | no listener is bound for a destroyed container in any continuation if and only if its goroutine was not between recording the port and listening |
| `ListenerLife.DestroyCanComeBetween` | internal/server/tunnel/tcp.go:88-98 | that moment is reachable |
| `ListenerLife.RecoveryNeverRebinds` | internal/server/tunnel/tcp.go:160-186 | recovery after a failed accept never succeeds, since the old listener is closed only on return: the container has no source server from then on |
| `ListenerLife.RecoveryHappens` | internal/server/tunnel/tcp.go:160-186 | a live container whose serving goroutine is recovering is reached by a run |
| `ListenerLife.OneListenerEver` | internal/server/tunnel/tcp.go:52-136 | each container binds at most one listener in its life |
| `ListenerLife.CreationServes` | internal/server/tunnel/tcp.go:52-136 | whatever else goes on, a new container whose calls succeed is served: on the port it asked for, or an available one, a listener is bound, made its source server and accepted on |
| `TcpRelay.StepKeeps` | internal/client/handlers.go:850-911 | every step of the two channels, the monitor loop, the dial, the reader and the relay keeps the account of entries and bytes |
| `TcpRelay.NoFrameFindsNoEntry` | internal/client/client.go:564-575 | in every interleaving of any number of streams no data frame finds its stream unregistered before that stream's own dial failure or close |
| `FrameFates.PrefixExactly` | internal/client/handlers.go:850-911 | for frames that are each written, cut or not written, the bytes out begin the bytes in, whatever those are, if and only if nothing is written after a frame that was not written whole |
| `TcpRelay.EveryByteAccounted` | internal/client/handlers.go:850-911 | in every run the frames relayed are the chunks read without the refused and lost ones, the bytes written are what the fate of each finished frame lets through, in order, and all other frames are in the hand of the reader or in the channel |
| `RelayProgress.AccountExactly` | internal/server/tunnel/tcp.go:418-451 | told from the steps of a run: which chunks a stream was offered, what the bandwidth limit and the channel made of each, how many frames were given up on, and whether it is closed |
| `RelayProgress.NothingLostWithoutCause` | internal/client/handlers.go:850-911 | as long as no wait ran out, no dial or write failed and the relay did not end, the bytes written, in hand and in the channel are the bytes relayed |
| `RelayProgress.ChannelArrives` | internal/client/handlers.go:850-911 | from any moment of any run at which the upstream is connected, everything in hand and in the channel can be written, in order |
| `TcpRelay.WrittenInOrderExactly` | internal/client/handlers.go:850-911 | in every run, what is written upstream begins what was relayed, whatever the bytes, if and only if no frame was written after one whose wait for a connection had run out |
| `TcpRelay.RelayedInOrderExactly` | internal/server/tunnel/tcp.go:418-451 | in every run, what is relayed begins what the user sent, whatever the bytes, if and only if no chunk was relayed after one the bandwidth limit refused |
| `TcpRelay.WrittenIsUsersPrefix` | internal/server/tunnel/tcp.go:418-451 | with neither, what is written begins what the user sent |
| `TcpRelay.SkippedFrameLeavesGap` | internal/client/handlers.go:868-892 | the first condition does fail: a frame given up before the dial, then one written |
| `TcpRelay.DroppedChunkLeavesGap` | internal/server/tunnel/tcp.go:432-440 | so does the second: a chunk refused twice by the bandwidth limit, then one relayed |
| `SemanticStream.FinOnLastOnly` | internal/server/tunnel/http.go:729-781 | FIN is on exactly one frame, the last, and the frames carry head and body in order |
| `SemanticStream.SendBody` | internal/server/tunnel/http.go:734-779 | for every sequence of reads (sizes and errors) and of sends, the loop over its counters computes the reference run of turns |
| `SemanticStream.ProcessRequestStream` | internal/server/tunnel/http.go:729-781 | so does the whole request, head included |
| `SemanticStream.LoopExactly` | internal/server/tunnel/http.go:740-776 | each turn of the body loop is what the next read gives of the unread bytes, at most a chunk and at most what is missing, and what the next send makes of it; it goes on only after a turn without failure, and its outcome is that of the last turn |
| `SemanticStream.CompletesExactly` | internal/server/tunnel/http.go:740-776 | when no send fails and no read breaks, the body goes out whole if and only if it is all there |
| `SemanticStream.StreamedSends` | internal/server/tunnel/http.go:729-781 | whatever the reads and sends do, the wire has the framed head and body with FIN last if every byte went out, else a beginning of it without any FIN; success means all went out, a failed send or a short body that not all did |
| `SemanticStream.FinOutExactly` | internal/server/tunnel/http.go:745-755 | FIN is out if and only if the head and every byte of the body are |
| `SemanticStream.FailsAfterFinExactly` | internal/server/tunnel/http.go:745-776 | a request fails with its FIN out if and only if the read that completed the body also reported an error other than the end, and its frame went out |
| `SemanticStream.FailsAfterFinHappens` | internal/server/tunnel/http.go:745-776 | that happens with a body of one byte |
| `SemanticStream.StreamClient.HandleHead` | internal/client/handlers.go:247-293 | one stream moves as the reference step does: duplicates, failed dials and failed writes included |
| `SemanticStream.StreamClient.HandleBody` | internal/client/handlers.go:295-323 | likewise for a body frame: the session is taken out and put back only when more is to come |
| `SemanticStream.RequestWholeOrNothing` | internal/client/handlers.go:247-323 | a streamed request reaches the upstream whole (head ++ body) if and only if no dial or write failed, and never leaves a session |
| `SemanticStream.SessionExactly` | internal/client/handlers.go:247-323 | an open session, whatever frames come: duplicate heads change nothing, body frames are written in order, and the first that ends the request or fails to be written ends the session, handing the connection on or dropping it |
| `SemanticStream.StraysIgnored` | internal/client/handlers.go:247-323 | without a session, body frames and heads that get nowhere change nothing |
| `SemanticStream.StreamsDoNotInterfere` | internal/client/handlers.go:247-323 | in the one table of sessions and the one log of handed-over responses, frames of many requests in any order leave each stream where its own frames alone would |
| `SemanticStream.WholeAmongOthers` | internal/client/handlers.go:247-323 | so a request whose own frames come in order and whose own dial and writes succeed reaches its upstream whole, whatever frames of other requests come between |
| `SemanticStream.PiecesJoin` | internal/client/handlers.go:424-437 | the chunks of the reply spell the body |
| `SemanticStream.PiecesSmall` | internal/client/handlers.go:424-437 | no chunk of the reply is empty or over 32 KiB, and all but the last are that long |
| `SemanticStream.SendResponse` | internal/client/handlers.go:412-438 | the reply loop succeeds if and only if each of its sends does; the frames before the first that fails are out, and no other |
| `ResponseSession.StreamResponder.Begin` | internal/server/tunnel/http.go:693-710 | callback, session and timer are set up together, for one request only |
| `ResponseSession.StreamResponder.FinishSession` | internal/server/tunnel/http.go:295-301 | ends the session and takes the callback, no other request is touched |
| `ResponseSession.StreamResponder.Dispatch` | internal/server/tunnel/http.go:304-341 | one frame: its request moves as the reference step does, over the limit and with failed writes included; other requests only see their connection closed |
| `ResponseSession.StreamResponder.HandleResponse` | internal/server/channels/monitor/auth.go:522-535 | a whole response takes the callback and runs it: the timer is stopped and the answer relayed, and the entry of the session stays |
| `ResponseSession.StreamResponder.TimeOut` | internal/server/tunnel/http.go:700-709 | the timer, if it still runs, removes the entry and answers through the callback |
| `ResponseSession.StreamResponder.SendError` | internal/server/tunnel/http.go:712-724 | a failed send stops the timer, removes entry and callback and closes the connection with the error page |
| `ResponseSession.StreamResponder.Close` | internal/server/tunnel/http.go:457-470 | the loop removes exactly the sessions of one connection with their timers, and its callbacks |
| `ResponseSession.SessionsFollow` | internal/server/tunnel/http.go:295-341 | in the tables that all requests share, each request is after any run where its own calls, and its connection being closed by another, would bring it |
| `ResponseSession.OpenExactly` | internal/server/tunnel/http.go:295-341 | the entry of a session stays exactly until a last frame, a frame that does not get through, the timeout with nothing come before it, a failed send or the end of the connection; until then its timer runs if and only if nothing has come, and its callback is there if and only if no whole response has come |
| `ResponseSession.LeftBehindExactly` | internal/server/tunnel/http.go:668-689 | over every run, an entry is left without callback and timeout if and only if a whole response came for the streamed request and none of those events did |
| `ResponseSession.EntryLeftExactly` | internal/server/channels/monitor/auth.go:522-535 | the same in the shared tables, for a run of calls of any requests |
| `ResponseSession.LeftBehindHappens` | internal/server/channels/monitor/auth.go:522-535 | it happens: one whole response does it, and the timeout no longer removes the entry |
| `ResponseSession.BrowserExactly` | internal/server/tunnel/http.go:304-341 | what each happening brings the browser of an open connection: a frame of an open session, a whole response or a timeout that still finds the callback, or the part of it and the error page when it does not get through; and exactly then the connection is closed |
| `ResponseSession.ClosedReceivesNothing` | internal/server/tunnel/http.go:304-341 | once the connection is closed nothing reaches the browser, over every run |
| `ResponseSession.ResponseArrives` | internal/server/tunnel/http.go:304-341 | the browser receives exactly head ++ body, then session, timer and callback are gone and anything further from the client or the timer is ignored |
| `ResponseSession.ResponseCut` | internal/server/tunnel/http.go:320-341 | when a frame does not come through the browser has exactly what came before it, the part that a failed write delivered, then the error page if it got through; the session is over, its connection closed, and what comes later is ignored |
| `JsonPath.GetByPath` | admin/src/schema/renderers.tsx:5-14 | the loop reads what the recursive definition reads |
| `JsonPath.SetByPath` | admin/src/schema/renderers.tsx:17-36 | copying down and writing back gives the recursive definition's tree |
| `JsonPath.DotJoins` | admin/src/schema/renderers.tsx:38-44 | parsing a path with a dot is parsing both sides, for all texts |
| `JsonPath.IndexJoins` | admin/src/schema/renderers.tsx:38-44 | digits in brackets add one key to what stands before them |
| `JsonPath.NameParses` | admin/src/schema/renderers.tsx:38-44 | a name without dot or bracket is one key |
| `JsonPath.PathsCompose` | admin/src/schema/renderers.tsx:5-14 | reading a path that goes on is reading the rest of it in what the first part gives |
| `JsonPath.MadeOnTheWay` | admin/src/schema/renderers.tsx:17-36 | below a missing key an array is made if the next key is all digits, an object otherwise; an array stays one and anything else becomes an object |
| `JsonPath.ArrayGrows` | admin/src/schema/renderers.tsx:17-36 | setting an index makes the array just long enough, with nothing in between, and keeps the rest |
| `JsonPath.GetAfterSetExactly` | admin/src/schema/renderers.tsx:5-36 | reading back what was set works, for every tree and value, if and only if the path is empty or has a segment |
| `JsonPath.SetLeavesOthers` | admin/src/schema/renderers.tsx:17-36 | setting one path changes nothing at any disjoint path |
| `JsonPath.SetBackExactly` | admin/src/schema/renderers.tsx:17-36 | overwriting a path and setting back what was there restores the tree if and only if every key of the path was present |
| `Secrets.ClientPathParses` | admin/src/schema/renderers.tsx:38-44 | the path written for client i parses to its three segments, for every i |
| `Secrets.MaskSecretsInValues` | admin/src/pages/config/secrets.ts:11-34 | the loops over groups, fields and clients compute the reference masking, missing schema and empty values included |
| `Secrets.CollectSecrets` | admin/src/pages/config/secrets.ts:52-72 | keeps every live secret under its path |
| `Secrets.RestoreSecrets` | admin/src/pages/config/useConfigState.ts:95-101 | puts the kept secrets back one by one, in the order given |
| `Secrets.MaskClientsInTurn` | admin/src/pages/config/secrets.ts:23-31 | masking all clients in one new array is masking their paths one after the other |
| `Secrets.MaskingMasks` | admin/src/pages/config/secrets.ts:11-34 | masking puts the placeholder at the places of all secrets and nowhere else, for any number of clients, if no path takes a string apart when its turn comes |
| `Secrets.Unmask` | admin/src/pages/config/useConfigState.ts:95-101 | putting one value back unmasks that place and no other |
| `Secrets.CollectedAre` | admin/src/pages/config/secrets.ts:52-72 | exactly the live secrets are kept, with their values |
| `Secrets.AllPathsAre` | admin/src/pages/config/secrets.ts:11-72 | what is masked and kept are the paths of exactly the secret fields of the schema and every client |
| `SecretRestore.NothingShows` | admin/src/pages/config/secrets.ts:11-34 | at every secret path that enters no string the masked form shows nothing, an empty string or the placeholder |
| `SecretRestore.NoNameShows` | admin/src/pages/config/secrets.ts:11-34 | with a schema whose secret paths hold no index, at every secret path and for every client |
| `SecretRestore.RestoredExactly` | admin/src/pages/config/useConfigState.ts:94-103 | for every tree, schema, number of clients and order of restoring, restoring the kept secrets into the masked form gives back the tree if and only if there was a tree, every path that found something to mask at its turn led into no string, and no secret found inside a string is restored before that string |
| `SecretRestore.RestoredAsKeptExactly` | admin/src/pages/config/useConfigState.ts:94-103 | in the order in which they were kept, if and only if the second holds |
| `SecretRestore.NamesRestored` | admin/src/pages/config/useConfigState.ts:94-103 | for a schema whose secret paths hold no index, always, in any order, if and only if there was a tree |
| `SecretRestore.ShippedSchemaRestored` | internal/server/admin/service/schema.go:70-89 | so for the two secrets of the schema the program ships |
| `SecretRestore.NoSchemaRestored` | admin/src/pages/config/secrets.ts:11-12 | before the schema has arrived the round trip works as well and keeps no secret |
| `Secrets.OneSecretExactly` | admin/src/pages/config/secrets.ts:11-22 | the round trip of one secret works if and only if its path enters no string |
| `Secrets.StringTakenApart` | admin/src/pages/config/secrets.ts:16-20 | a path into a string would fail: masking takes the string apart for good |
| `HttpFraming.InsertContentLength0IfUnframedEmpty` | internal/client/http1_response_framing.go:31-69 | the early returns decide as the reference condition does |
| `HttpFraming.ContainsIsHeader` | internal/client/http1_response_framing.go:38-43 | searching the lowered block for a line break and a name finds exactly the header lines of that name |
| `HttpFraming.StatusIs` | internal/client/http1_response_framing.go:12-23 | the status code read from a head that begins with version, code and reason is the code written there, up to the largest integer |
| `HttpFraming.AtoiDecimal` | internal/client/http1_response_framing.go:21 | reading a decimal number gives it back |
| `HttpFraming.LowerExactly` | internal/client/http1_response_framing.go:37 | lowering both makes two texts equal if and only if they are the same but for the case of letters |
| `HttpFraming.ChangedExactly` | internal/client/http1_response_framing.go:31-69 | the head is changed if and only if it has a blank line, no header line that names the length, is not HTTP/1.0 and its status allows a body |
| `HttpFraming.StatusLineChangedExactly` | internal/client/http1_response_framing.go:31-69 | for any version, code and reason, the head is changed if and only if it ends, no header line names the length, the version is not HTTP/1.0 in any case, and the code is none of 0, 100 to 103, 204 and 304 |
| `HttpFraming.BlankLineMoves` | internal/client/http1_response_framing.go:62-68 | the first blank line moves by exactly nineteen bytes, and what follows is as it was |
| `HttpFraming.OneLineMore` | internal/client/http1_response_framing.go:62-68 | the header lines are the old ones and one last line, Content-Length: 0 |
| `HttpFraming.Idempotent` | internal/client/http1_response_framing.go:31-69 | doing it twice is doing it once, for every byte string |
| `HttpFraming.SameStatus` | internal/client/http1_response_framing.go:12-23 | the status line and the status code read from it are untouched |

## Left out

- WebSocket, TCP and HTTP input and output, dialing, hijacking, reconnecting: connections are byte sequences, queues of frames or outcomes; a failed write may have delivered part of its bytes, which is modelled for the upstream side of the TCP relay and for streamed responses.
- Brotli, gzip, base64, JSON, YAML and `net/http` parsing: where one is crossed, what was put in comes out.
- Go's mutexes and memory model: each locked section is one step. A goroutine that still holds a stream which another has just removed is not modelled.
- The backpressure callback and its signals: it calls back into the stream whose lock is held, so windows and reassembly are modelled apart. `GetWindowState` shares live state with its caller, and `CreateStream` overwrites an existing stream; neither is modelled.
- Routing of a received frame to its handler: only the path of streamed frames into reassembly is modelled, not the direct path, which returns before the receive window is released.
- `StreamManager.Destroy` and a chunk that arrives for a stream destroyed before it was finished: storing into the dropped chunk map panics in the program, so `Reassembly.Stream.AddChunk` asks that a destroyed stream is finished, which cleanup guarantees.
- An empty payload: it is split into no chunks, so nothing is sent and nothing is delivered.
- Rounding of floating-point numbers in the token bucket: levels, rates and times are reals.
- One direction of the limiter: upload and download are the same code on separate buckets. A missing limit entry in an update, which the program would dereference, is not modelled.
- ConcurrentLimiter.DebitsBounded: limits do not change there and client buckets exist from the start; first use is covered by `Limiter.FirstUseEqualsUpFront`, and limit changes between the two sections of bucket creation by `LazyBuckets`, where only the rates of buckets count, not their levels.
- Limiter.BandwidthLimiter.GetClientBucket: its two locked sections are one step there; `LazyBuckets` takes them apart.
- Limiter.BucketsMatchLimits: speaks of operations that do not overlap; `LazyBuckets.LimitedBucketsMatch` speaks of overlapping ones, with a limit object of its own for each client.
- StreamManagement.StreamManager.Cleanup: the pass is one uninterrupted step there; `StreamTable.DeliveredPerLife` lets anything come between marking a stream and removing it. The error callback is unset for received frames, as in the program, so an eviction is silent there.
- FlowWindow.FlowController.TrySend: the backpressure callback on a refusal is not modelled.
- FlowWindow.FlowController.OnAck: that it lifts backpressure is not modelled.
- FlowWindow.FlowController.Receive: the backpressure callback on a refusal is not modelled.
- FlowWindow.FlowController.ReleaseReceiveWindow: that it lifts backpressure is not modelled.
- The line diff compares lines as character sequences: UTF-8 in the server against UTF-16 in the page makes no difference to equality of valid text and is not modelled.
- The WebSocket upgrade path of `processRequest`, and the race of the timeout's handler with a response that arrives while it runs, where both can write: each handler of a streamed response is one step, and exactly-once is claimed for the buffered path only.
- Listeners and containers, and the client's tables for the TCP relay, are step relations on values rather than objects: what matters there is the order of steps of several goroutines. `TunnelContainer.Remove`, which drops a container without closing its listener, and two concurrent `CreateServer` calls for one container, which the program does not make, are not modelled. Two open listeners are taken never to share a port.
- TcpRelay.EveryByteAccounted: the bounded wait for a local connection appears as a step that may happen while the connection is awaited, without its thirteen seconds; a data channel whose handshake the server completed but the client gave up and repeated is not modelled.
- JsonPath.SetByPath: the program writes through references into fresh copies; the model copies down and writes back. The order of object keys, inherited properties, the `length` of arrays and strings, and the limit of array indices are not modelled.
- SecretRestore.RestoredExactly: deleting a client in the form, which shifts the indices under which its secret is kept, is not modelled; the order in which a script engine lists the kept paths is a parameter.
- HttpFraming.InsertContentLength0IfUnframedEmpty: case and blanks outside ASCII in response heads are not modelled.
- `responseHeadForBufferedUpstreamBody`, which mostly calls `net/http`.
- Command line, configuration files, admin API and pages, notifications, statistics, capability negotiation, domain mapping: they would add only easy members.
