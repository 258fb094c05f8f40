# cc2ws: a verified model of the core

cc2ws accepts HTTP requests in the style of the large-language-model APIs, opens one WebSocket to an
upstream for each, sends the request body as one text message and turns the frames that come back into an
HTTP response. Around that sit a ring logger with live subscribers, a server handle that frontends start,
stop and reconfigure, a configuration file and a self-updater. This project models the Go package
`internal/core` and proves what it does, for every input, every environment and every interleaving.

`dafny verify dfyconfig.toml` checks the whole project.

## How it is laid out

| files | what they hold |
|---|---|
| `Sse`, `SseRoundTrip` | A server-sent-events decoder written from sections 9.2.5 and 9.2.6 of the HTML Living Standard, and exactly which printed streams it gives back. It is the independent reading of the bytes the pumps print. |
| `Json`, `Decimal` | JSON and decimal printing, as far as the proxy's own documents need it. |
| `JsonReader` | A JSON reader of its own, and the proof that it undoes the printing. |
| `HttpWriter` | The server's response writer (the first status wins, a write commits 200) and `statusRecorder` as classes, specified by a fold over the calls they receive. |
| `Upstream` | The upstream connection with its per-read idle deadline, over a script of what upstream will do and a clock. |
| `ErrorStatus` | The status search in an upstream error body, with Go's case-folding and merging of repeated members. |
| `Frames` | The two pumps as loops over the connection and the writer, each in its stream and its buffering mode. |
| `ErrorTexts` | What the proxy's own events and envelopes say to a client that reads them as JSON. |
| `Proxy`, `ProxyOutcome`, `ClientView` | The handler and the request log around it; what ends up on the wire; what a client decodes from it. |
| `LogDelivery` | The logger's fan-out as a transition system with consumers that receive at any time, also while an emission holds the lock. |
| `LogRuns` | Who is registered after a run, and what one emission brings to each subscriber. |
| `Logger` | The logger as a class over a real array ring; each method is a run of `LogDelivery`. |
| `LockOrder` | The handle's mutex and the logger's mutex together, with logging nested inside `Start`. |
| `Config` | Upstream normalisation, validation, and loading, saving and building configurations. |
| `Options` | Values that may be absent. |
| `Lifecycle` | `Start`, `Stop` and `SetConfig` by any number of threads, critical section by critical section, with the goroutines of the servers they start. |
| `LifecycleRuns` | Where a run can go from any reachable state: to quiescence, and back to a running server. |
| `ConfigHistory` | What a run leaves in the configuration file and in the handle, from the schedule of its steps. |
| `Handle` | The handle as a class; each critical section is a step of `Lifecycle`, and the whole operations get their contracts for a thread that is alone. |
| `Version`, `Updater` | Version tags as `fmt.Sscanf` reads them; finding, checking and applying an update. |

The environment is a parameter everywhere: what the client sends, how dialling and writing go, when each
upstream message arrives, how many writes the client still accepts, whether somebody else holds an address,
whether the file can be written, what GitHub answers. Failing calls take the branch the program takes.

## Where the program and its comments part ways

The model follows the code.

- `internal/core/logger.go:36` calls `head` the index of the oldest entry. It is the next slot to write, and
  the two coincide only once the ring is full (`HeadUntilFull`).
- `internal/core/logger.go:29-32` says that a slow subscriber is dropped. It loses entries, is announced once
  and stays subscribed (`Delivery`, `StdoutExactly`).
- `internal/core/proxy.go:115-118` says that a 504 written without a recorder is safe either way. After a
  timeout in mid-stream it appends a JSON envelope to the event stream (`BareOutcome`, `BareGoesWrong`).
- `internal/core/config.go:28-31` says that path, query and fragment are stripped. A bare trailing `?` is not,
  and every URL dialled from then on carries it in front of the request's path (`DialsRequestPathExactly`,
  `BareQuerySurvives`).
- `internal/core/handle.go:14` calls all methods safe for concurrent use. No step breaks an invariant, but
  overlapping calls can surprise, and each surprise has a concrete run and its exact condition. A stopped handle
  may come back by itself (`RestartUndoesStop`) exactly when a `SetConfig` that found it running is still on its
  way (`StoppedComesBackExactly`). A second `Stop` returns early (`SecondStopReturnsEarly`), and an address stays
  taken exactly while some `Stop` holds a server listening on it (`BusyMeansStopInFlight`). File and handle may
  differ (`FileAndHandleDiffer`), and agree exactly when the last write and the last commit belong together
  (`FileAgreesExactly`, `FileAgreesBySchedule`). A handle may report a dead server as running
  (`RunningAfterServeFails`, `RunningMeans`).
- A 504 that replaces a stream still carries the `Cache-Control` and `Connection` headers that
  `internal/core/frames.go:104-109` had set for it (`HeadersByCause`).
- `internal/core/frames.go:225-227` promises one event per typed frame. A client recovers the stream exactly
  when no type and no frame holds a line break (`TypedClientRecovers`, `PrettyPrintedFrameIsLost`).

## Model

| member | source | states |
|---|---|---|
| Sse.FrameDecodes | internal/core/frames.go:247-251 | At an event boundary, a printed frame without line breaks is read back by a conforming decoder as exactly one event of that type and data, leaving it at a boundary again. |
| SseRoundTrip.StreamDecodesExactly | internal/core/frames.go:232-258 | Decoding a printed stream gives back the whole list of (type, frame), an empty type read as "message", if and only if no type and no frame contains CR or LF. |
| SseRoundTrip.AppendedFrameRecovered | internal/core/frames.go:136-169 | From any decoder state that upstream bytes can leave, the appended error frame is recovered as one further event if and only if no data is buffered and any unfinished line is neither a data nor an event field and the buffered type is already the frame's. |
| SseRoundTrip.DecodeConcat | internal/core/frames.go:194-198 | Decoding distributes over concatenation whenever the first part ends at an event boundary, also when its last line end is half of a CRLF. |
| SseRoundTrip.MeantWeight | internal/core/frames.go:251 | The intended events hold at least as many characters as the plain characters printed for them, and strictly more once some frame has a line break; this is what rules such streams out. |
| Json.MarshalIsOneLine | internal/core/frames.go:159-166 | Whatever message the proxy puts into its own documents, they print without a line break. |
| JsonReader.ReadOfMarshal | internal/core/frames.go:143-165 | Whatever document the proxy prints, a reader of its own gets the same document back: strings with their escapes, numbers, lists and members in order. |
| JsonReader.ValueReadBack | internal/core/frames.go:143-165 | The same inside a longer text, whatever follows that does not go on with a digit. |
| Decimal.ValueOfPrint | internal/core/updater.go:140-141 | Reading a printed number gives it back. |
| ErrorStatus.MapErrorStatus | internal/core/frames.go:72-89 | The status of a buffered upstream error body always lies in 400..599. |
| ErrorStatus.NumericStatus | internal/core/frames.go:91-102 | A number in 400..599 yields its truncation, and everything else 0. |
| ErrorStatus.FoldIsCaseless | internal/core/frames.go:73-79 | Two member names count as the same if and only if they agree letter by letter up to case, the long s and the Kelvin sign included. |
| ErrorStatus.BrokenExactly | internal/core/frames.go:73-82 | Unmarshalling the body meets a type error if and only if some member folding to `error` is neither an object nor null, whatever comes before or after it. |
| ErrorStatus.BrokenErrorIsBadGateway | internal/core/frames.go:80-82 | Such an `error` makes the reply a 502 even when the body names another status. |
| ErrorStatus.NoObjectIsBadGateway | internal/core/frames.go:80-82 | A body that is no JSON object gives a 502. |
| ErrorStatus.AbsorbExactly | internal/core/frames.go:73-82 | Unmarshalling ends with the last top-level `status` and with the last `status` and `code` among the members of all `error` objects, names compared without case. |
| ErrorStatus.StatusPrecedence | internal/core/frames.go:80-88 | Without a type error the status is the truncation of the first of error.status, error.code and the top-level status that is a number in 400..599, and 502 when none of them is. |
| HttpWriter.StatusRecorder.WriteHeader | internal/core/logging.go:27-31 | The recorder notes the status and the commitment and passes the call on; the wire keeps its first status. |
| HttpWriter.StatusRecorder.Write | internal/core/logging.go:33-36 | The recorder notes the commitment, and the inner writer gets the data. |
| HttpWriter.StatusRecorder.Flush | internal/core/logging.go:38-42 | A flush passes through and leaves the recorder's fields alone, although it commits the wire. |
| Upstream.IsTimeoutExactly | internal/core/frames.go:43-57 | An error counts as a timeout if and only if its chain holds a context deadline, or a timing-out network error with no other network error in front of it. |
| Upstream.IdleConn.ReadMessage | internal/core/proxy.go:48-51 | The n-th read returns the n-th message of the run, or its first error once they are used up, and the clock shows the time waited so far under a deadline renewed at every call. |
| Upstream.ReadNumber | internal/core/proxy.go:48-51 | The specification of a whole run agrees with reading it one call at a time. |
| Upstream.TimeoutExactly | internal/core/proxy.go:38-50 | The messages of a run are those that arrive, in order and unchanged, before the first that is not there within `idle` of the call for it or is a fault; the run times out if and only if that one is late or the fault is itself a timeout, and a late one ends it exactly `idle` after the call, however long the run was. |
| Upstream.SilenceTimesOut | internal/core/frames.go:59-66 | A run times out after k messages if and only if k messages arrive in time and the next is late or a timing-out fault. |
| Upstream.NoTotalCap | internal/core/proxy.go:38-42 | For any total duration and any positive idle time there is a run that takes that long and does not time out. |
| Frames.ErrorFrameIsOneLine | internal/core/frames.go:136-169 | The proxy's own terminal frame has a terminal type and is free of line breaks in all three dialects. |
| Frames.WriteErrorFrame | internal/core/frames.go:136-169 | Prints the error frame of its dialect and flushes it; what that frame says is `ErrorFrameAnnounces`. |
| ErrorTexts.ErrorFrameAnnounces | internal/core/frames.go:136-169 | Read as JSON, the frame names the upstream timeout and the message in the members of its dialect: for Responses also type, sequence number, start time and a failed response; for OpenAI a code and no type; for Anthropic a type and no code. |
| ErrorTexts.EnvelopeReads | internal/core/proxy.go:149-157 | Read as JSON, the envelope is an error of type `proxy_error` with the message. |
| Frames.ChunksEffect | internal/core/frames.go:194-198 | Writing and flushing chunks commits 200 at the first, delivers the prefix that the client still takes, and leaves nothing unflushed. |
| Frames.EachChunkIsFlushed | internal/core/frames.go:194-198 | After each chunk everything the client has taken is pushed out, not only at the end of the stream. |
| Frames.EndStream | internal/core/frames.go:185-193 | After a read error the error frame is added if and only if it was a timeout and something had been sent. |
| Frames.Relay | internal/core/frames.go:194-198 | A chunk is written and flushed, or refused exactly when the client's last write is used up. |
| Frames.StreamSseBytes | internal/core/frames.go:180-199 | The loop sends every upstream message verbatim up to the first refused write, then the error frame after a timeout if anything was sent, and reports the matching error at the matching time. |
| Frames.BufferSseBytes | internal/core/frames.go:201-222 | The loop replies with the concatenated body and the status found in it, or with nothing at all when the read times out. |
| Frames.PumpSseBytes | internal/core/frames.go:179-223 | Both modes of the SSE-bytes pump against their specification, headers included. |
| Frames.StopAt | internal/core/frames.go:254-256 | The first message of a terminal type: none before it is terminal, and it is, unless there is none. |
| Frames.StreamTypedJson | internal/core/frames.go:233-258 | The loop prints each message with its type up to and including the first terminal one, reads no further, ignores refused writes, and after a timeout adds the error frame with the number of frames before it. |
| Frames.AggregateTypedJson | internal/core/frames.go:259-300 | The loop over unmarshallable and other messages, with its two result variables, replies from the first well-formed terminal message alone, and with nothing when the read times out before one. |
| Frames.PumpTypedJson | internal/core/frames.go:232-301 | Both modes of the typed pump against their specification, headers included. |
| Proxy.WriteProxyError | internal/core/proxy.go:149-157 | Sets the type, writes the status and writes the JSON envelope, in that order. |
| Proxy.Handle | internal/core/proxy.go:59-124 | The handler closure makes exactly the calls of its specification: the early error replies, the pump, and the 504 only when no recorder has seen the response committed. |
| Proxy.ServeLogged | internal/core/logging.go:46-56 | Serving a request through the recorder: the response is the fold of those calls, and the status logged is the recorder's. |
| ProxyOutcome.PumpEffect | internal/core/proxy.go:98-103 | In either mode and for any client, the pump's calls amount to sending the stream's chunks after its headers; stopping at a refused write leaves the same response as going on. |
| ProxyOutcome.WrappedOutcome | internal/core/proxy.go:59-124 | For every exchange, route and client, the wrapped handler ends in exactly the one reply the exchange calls for, a JSON envelope alone or an event stream without one. The status on the wire, which is also the recorded one, is 400 for an unread body, 504 for a dial whose error chain times out and 502 for any other, 502 for a failed write, 504 when upstream falls silent before its first message, and 200 otherwise. |
| ProxyOutcome.BodyByCause | internal/core/proxy.go:61-120 | The body of every error reply reads as an envelope with the message of its cause. |
| ProxyOutcome.HeadersByCause | internal/core/frames.go:104-109 | The headers on the wire: the three of an event stream; `application/json` alone for an early error; and for the 504 that replaces a stream, `application/json` beside the two others the pump had already set. |
| ProxyOutcome.ClosingExactly | internal/core/frames.go:59-66 | The pump sees a timeout if and only if upstream falls silent after its last message. |
| ProxyOutcome.Serve | internal/core/logging.go:46-56 | The same about the objects: after serving, the wire holds the expected reply, and the logged status is its status and the one its cause calls for. |
| ProxyOutcome.HandlerIsOrderly | internal/core/proxy.go:59-124 | On every run the status line is written at most once and never after body bytes, and nothing is flushed before it. |
| ProxyOutcome.OrderlyKeepsAgreement | internal/core/logging.go:27-36 | For any handler that keeps to this order, the recorder's flag and status equal the wire's after every call. |
| ProxyOutcome.FlushFirstDisagrees | internal/core/logging.go:38-42 | A handler that flushes first makes the log report a status the client never saw. |
| ProxyOutcome.BareOutcome | internal/core/proxy.go:110-119 | Without a recorder, for any client, the reply is the expected one unless the read times out after the first message and the client takes one more write than the stream; exactly then the body is the stream followed by a JSON envelope. |
| ProxyOutcome.BareGoesWrong | internal/core/proxy.go:115-119 | On every SSE-bytes route and for every idle time, one message followed by silence is such an exchange. |
| ClientView.TypedClientRecovers | internal/core/frames.go:225-258 | On a typed route a client recovers all of upstream's events up to the terminal one, plus the proxy's own if there is one, if and only if no upstream type or frame holds a line break. |
| ClientView.TypedClientReads | internal/core/frames.go:225-258 | When those messages hold no line break, the client reads exactly them, each whole and under its own type ("message" for none), up to and including the first of the five types that end the stream, and after them the timeout announcement of the route's dialect if and only if upstream fell silent before such a type. |
| ClientView.TerminalEventIsLast | internal/core/frames.go:236-256 | At most one event of a type that ends the stream is sent, and it is last; it exists if and only if upstream sent one or fell silent after its first message; the proxy's own announces the timeout with the number of events before it and the start time. |
| ClientView.PrettyPrintedFrameIsLost | internal/core/frames.go:251 | A frame printed over several lines is not recovered. |
| ClientView.SseClientRecovers | internal/core/frames.go:180-199 | On an SSE-bytes route the body is upstream's text, however it was split, followed after a timeout by the one error frame that announces it in the route's dialect; the client then recovers upstream's events plus that one if and only if upstream's text leaves its parser ready to take a frame. |
| ClientView.UnfinishedEventIsLost | internal/core/frames.go:186-191 | When upstream falls silent between a data line and the blank line after it, the client does not get the error event. |
| ClientView.ModesStopTogether | internal/core/frames.go:236-285 | Streaming and aggregating stop at the same message if and only if the one the stream stops at unmarshals without an error. |
| ClientView.AggregateReply | internal/core/frames.go:286-300 | The aggregated status is 200 if and only if no failure event ended the stream, and the body is then the completed event's response or "{}"; otherwise the status is the one found in that event, in 400..599, and the body is that whole event. |
| ClientView.BufferedReply | internal/core/frames.go:212-221 | The buffered reply is 200 with the concatenated body if and only if that body is no object with an `error` member, and else has the status found in it. |
| LogDelivery.StepKeepsInv | internal/core/logger.go:76-148 | Every step (beginning an emission, offering to one subscriber, ending, subscribing, unsubscribing, receiving) keeps the delivery and loss invariants. |
| LogDelivery.ReachableInv | internal/core/logger.go:76-148 | So they hold after every interleaving. |
| LogDelivery.Delivery | internal/core/logger.go:76-148 | What a subscriber has received followed by what is buffered is its snapshot (the last `min(n, cap)` of the n entries before it) followed by the accepted live entries; while nothing was lost, that is one contiguous slice of the emission history from `max(0, n - cap)` on, reaching to the present between emissions; the dropped flag is set if and only if something was lost. |
| LogDelivery.AcceptedInOrder | internal/core/logger.go:80-90 | Live entries are a subsequence of what was emitted since the subscription: in order and without repeats. |
| LogDelivery.LosslessExactly | internal/core/logger.go:80-90 | A subscriber has lost nothing if and only if at every emission a receiver stood waiting, or its snapshot plus the emissions since it subscribed, that one included, less what it had received by then, was at most `cap`; with `cap > 0` the second condition alone decides. |
| LogDelivery.SilentSubscriber | internal/core/logger.go:131-139 | A subscriber that neither receives nor waits gets exactly the first `cap - snapshot` live entries; on a full ring, and on an unbuffered channel, not even the first. |
| LogDelivery.StdoutExactly | internal/core/logger.go:79-88 | Standard output shows every entry once, in order, and exactly one notice for each channel that ever lost an entry. |
| LogRuns.RegisteredExactly | internal/core/logger.go:138-146 | After any run a channel is registered if and only if it was subscribed and not unsubscribed since. |
| LogRuns.EmissionServesAll | internal/core/logger.go:76-92 | A completed emission offers its entry exactly once to every channel registered when it began, which has it at its end or has lost it, and leaves every other channel alone, whatever the consumers do meanwhile. |
| LogRuns.LiveEntryArrives | internal/core/logger.go:76-140 | Once subscribed and not unsubscribed, a subscriber that has lost nothing has the latest entry at the end of what went through its channel. |
| LogDelivery.EmissionCompletes | internal/core/logger.go:76-92 | An emission that holds the lock can serve its subscribers in any order whatsoever and let go, without one receive. |
| LogDelivery.NothingBlocksUnderLock | internal/core/logger.go:80-90 | Every pending offer is possible at once, full channel or not, and a snapshot always fits a fresh channel. |
| Logger.HeadUntilFull | internal/core/logger.go:36-37 | `head < cap` and `count <= cap`; both equal the number of entries until the ring is full, and from then on `head` is the slot of the oldest entry. |
| Logger.PushHolds | internal/core/logger.go:94-103 | Writing at `head` and advancing it modulo `cap` keeps entry number j in slot j mod `cap` for the last `count` entries. |
| Logger.SlotOf | internal/core/logger.go:113-116 | The slot that the copying loop reads i-th holds the i-th of the kept entries, also across the wrap-around. |
| Logger.ModDistinct | internal/core/logger.go:98-99 | Two entries less than `cap` apart never share a slot, so a push overwrites none that is kept. |
| Logger.Logger.constructor | internal/core/logger.go:47-56 | A new logger is in the initial state, also with no slots. |
| Logger.Logger.Push | internal/core/logger.go:94-103 | The array then holds the history with the entry appended; with no slots it does nothing and divides by nothing. |
| Logger.Logger.SnapshotLocked | internal/core/logger.go:105-118 | Returns exactly the last `min(n, cap)` entries emitted, oldest first. |
| Logger.Logger.TrySend | internal/core/logger.go:81-89 | The non-blocking send with its default branch is one offer of the transition system: handed over, buffered, or lost and announced. |
| Logger.Logger.FanOut | internal/core/logger.go:80-90 | The loop over the subscribers, in any order and with consumers receiving in between, is a run that serves each of them once. |
| Logger.Logger.Emit | internal/core/logger.go:76-92 | One emission is a run that begins it, offers to each subscriber among receives, and ends it; every registered channel is offered the entry once and no other is touched; ring, output and channels follow. |
| Logger.Logger.Logf | internal/core/logger.go:63-73 | Entries of a level below the threshold, in the order debug, info, warn, error, leave everything as it was; others are appended to the history. |
| Logger.Logger.Subscribe | internal/core/logger.go:131-140 | Filling a fresh channel with the last `min(n, cap)` entries and registering it, beside those already registered, is one step for every capacity, so nothing falls between snapshot and live entries. |
| Logger.Logger.Unsubscribe | internal/core/logger.go:141-146 | The channel and its dropped flag are gone, and nothing else. |
| LockOrder.StepKeepsInv | internal/core/handle.go:53-86 | With emissions nested inside the handle's critical sections, each mutex is held by exactly the thread in its section after every step. |
| LockOrder.MutualExclusion | internal/core/handle.go:53-86 | No two threads are ever inside the handle's, or inside the logger's, critical sections. |
| LockOrder.WorkShrinks | internal/core/logger.go:76-92 | Each step of a holder brings the release one step nearer, and no consumer can push it away again. |
| LockOrder.NeverStuck | internal/core/logger.go:76-92 | From every reachable state of logger and handle together, the holders reach a state with both mutexes free in exactly as many steps as are left, without one receive by a consumer. |
| Config.NormalizeInPlace | internal/core/config.go:32-60 | Editing the parsed URL field by field yields the pair (base, WebSocket URL) of the specification, or its error. |
| Config.NormalizeByScheme | internal/core/config.go:32-60 | Exactly https, wss, http and ws with a host are accepted; the first two become https and wss, the others http and ws, in front of user, host and a bare `?`; each refusal has its own error. |
| Config.NormalizeIsFixpoint | internal/core/config.go:28-60 | Normalising either of the two outputs again gives the same pair. |
| Config.DialsRequestPathExactly | internal/core/proxy.go:127-133 | The dialled URL is the upstream's authority with the request's path and query if and only if the configured upstream had no bare trailing `?`. |
| Config.BareQuerySurvives | internal/core/config.go:48-59 | Under a parser that meets the assumption, a bare trailing `?` survives normalisation in both outputs and stands in front of the path of every dialled URL. |
| Config.PreparedMatches | internal/core/handle.go:122-130 | Whatever pair a caller passes in, `SetConfig` goes on with a base and a WebSocket URL that belong together. |
| Config.PrepareExactly | internal/core/handle.go:122-130 | A configuration is accepted if and only if its upstream normalises, language, theme and level are among the listed ones and both timeouts are positive; nothing but the two URLs changes. |
| Config.LoadedMatches | internal/core/config.go:86-130 | So does loading from file and environment. |
| Config.LoadLayers | internal/core/config.go:86-130 | Every setting of a loaded configuration comes from its own variable, else from its own member of the file, else from its default. |
| Config.LoadFailsExactly | internal/core/config.go:86-130 | Loading fails if and only if no upstream is given or it does not normalise, a duration does not parse, or a switch is neither on nor off. |
| Config.BuiltMatches | internal/core/config.go:285-314 | So does building from the form's fields. |
| Config.BuiltExactly | internal/core/config.go:285-314 | The form's fields each end up in their own setting, if and only if the result is acceptable. |
| Config.SaveLoadExactly | internal/core/config.go:193-220 | Saving and then loading with an empty environment gives the configuration back if and only if its base and WebSocket URL belong together. |
| Config.AcceptedConfigSurvives | internal/core/handle.go:117-133 | So every configuration that `SetConfig` accepts survives a restart of the program unchanged. |
| Lifecycle.StepKeepsInv | internal/core/handle.go:53-143 | Every critical section and every step of a server's goroutine keeps the lifecycle invariants. |
| Lifecycle.ReachableInv | internal/core/handle.go:53-143 | So they hold in every interleaving of any number of threads. |
| Lifecycle.ServersConserved | internal/core/handle.go:53-109 | Each server ever started is installed in the handle or in the hands of exactly one `Stop`, never both, or else it has ended and its listener is closed. |
| Lifecycle.RunningMeans | internal/core/handle.go:34-38 | The three fields are nil together; a running handle's server accepts connections if and only if its `Serve` has not returned. |
| Lifecycle.PicksPortExactly | internal/core/handle.go:62 | An address leaves the port to the system if and only if its port is empty or all zeros. |
| Lifecycle.ServesCurrentConfig | internal/core/handle.go:122-143 | A server built from another configuration than the current one has a `SetConfig` about to restart it; at quiescence a running server serves the current configuration, overlapping calls included. |
| Lifecycle.StopReleasesPort | internal/core/handle.go:90-109 | When a `Stop` that took a server returns, that server's goroutine has ended and its listener is closed. |
| Lifecycle.BusyMeansStopInFlight | internal/core/handle.go:53-65 | With nothing installed, an address with a fixed port is taken if and only if some `Stop` under way still holds a server that listens on it. |
| Lifecycle.HotRestartFindsPortFree | internal/core/handle.go:138-141 | So a restart with no other operation in flight finds no server of ours listening anywhere and cannot fail to bind because of its own old one. |
| Lifecycle.StopCanFinish | internal/core/handle.go:102-108 | A waiting `Stop` is at most three goroutine steps away from returning; it needs no other thread. |
| Lifecycle.RunningAfterServeFails | internal/core/handle.go:69-79 | A run after which the handle is quiescent and reports running although its server has ended. |
| Lifecycle.SecondStopReturnsEarly | internal/core/handle.go:90-101 | A run in which a second `Stop` is through while the first still shuts down; a `Start` after it can bind if and only if the address leaves the port to the system. |
| Lifecycle.RestartUndoesStop | internal/core/handle.go:134-141 | A run in which `SetConfig` starts a server again that another thread has stopped. |
| LifecycleRuns.StoppedComesBackExactly | internal/core/handle.go:134-142 | From a reachable state with nothing installed, some run in which nobody calls `Start` on purpose installs a server if and only if some `SetConfig` that found the handle running has not yet come to its `Start`. |
| LifecycleRuns.ThreadCanFinish | internal/core/handle.go:53-143 | Every operation under way can be brought to its end by its own thread and the servers' goroutines alone. |
| LifecycleRuns.QuiescenceReachable | internal/core/handle.go:53-143 | From every reachable state there is a run to quiescence that begins nothing new. |
| Lifecycle.FileAndHandleDiffer | internal/core/handle.go:131-137 | A run of two overlapping calls that leaves one configuration in the file and another in the handle. |
| ConfigHistory.RunIsTracked | internal/core/handle.go:117-137 | After every run, what file, handle and threads hold is what the schedule of writes and commits says. |
| ConfigHistory.FileAgreesExactly | internal/core/handle.go:131-137 | After every run, overlapping calls and failed writes included, the file holds what the last write left and the handle what the last commit put in force; they agree if and only if both belong to the same call or happen to be the same configuration. |
| ConfigHistory.FileAgreesBySchedule | internal/core/handle.go:131-137 | When no write fails and no two calls bring the same configuration, they agree if and only if the last write and the last commit belong to the same call, or there is neither. |
| ConfigHistory.FileFollowsHandle | internal/core/handle.go:131-137 | In particular they agree at quiescence when no two calls overlap between write and commit and failed writes leave the file alone. |
| ConfigHistory.RunKeepsPairs | internal/core/handle.go:117-137 | In every run, also of a handle created with an empty upstream, the handle, its servers and the configurations on their way hold the initial configuration or a matching pair, and once anything has been committed the handle holds a matching pair. |
| Handle.Handle.Start | internal/core/handle.go:53-87 | One step of the lifecycle: succeeds at once when running, otherwise exactly when the address can be bound, an address without a fixed port always counting as free of our own servers, and then a new server runs on the current configuration; a failed or idle `Start` changes nothing. |
| Handle.Handle.TakeServer | internal/core/handle.go:90-98 | One step: the caller leaves with the server and the three fields are nil. |
| Handle.Handle.Advance | internal/core/handle.go:69-79 | The goroutine's progress keeps to the steps of the lifecycle and touches no other server. |
| Handle.Handle.ShutDownAndWait | internal/core/handle.go:102-108 | When it returns, the server taken has ended, its address is free, and no other server was touched. |
| Handle.Handle.Stop | internal/core/handle.go:90-109 | Idempotent; afterwards nothing is installed, configuration and file are as before, and the server that ran has ended. |
| Handle.Handle.Commit | internal/core/handle.go:134-137 | One step: the configuration is replaced and whether a server ran is noted. |
| Handle.Handle.SaveAndCommit | internal/core/handle.go:131-137 | A failed save leaves the handle alone and in the file whatever the write left there; a good one puts the configuration into both. |
| Handle.Handle.Restart | internal/core/handle.go:138-141 | The old server has ended, and a new one runs on the current configuration unless somebody else holds the address. |
| Handle.Handle.SetConfig | internal/core/handle.go:111-143 | An unacceptable configuration changes nothing, and one that cannot be saved nothing but the file; otherwise the given one, changed in nothing but the two URLs, is in force and in the file, the old server has ended, and a server runs on the new one exactly when one ran before and the address can be had. |
| Version.Scan3OfPrint | internal/core/updater.go:138-141 | Scanning a printed A.B.C, with any suffix that does not go on with a digit, gives back A, B and C. |
| Version.ScanIntForms | internal/core/updater.go:140-141 | Blanks before a number are skipped, a line break is not, and a sign is read. |
| Version.VersionNewerIsLexicographic | internal/core/updater.go:134-150 | On printed tags, a release is newer if and only if its numbers are lexicographically greater. |
| Version.VersionNewerIsStrictWeakOrder | internal/core/updater.go:134-161 | Away from "dev" it is a strict weak order on all strings, so no tag is newer than itself. |
| Version.DevSeesEverything | internal/core/updater.go:131-137 | A development build sees every tag as newer. |
| Version.PrefixIsOptional | internal/core/updater.go:138-139 | A leading "v" makes no difference on either side. |
| Version.HugeNumberStopsScan | internal/core/updater.go:140-141 | A number beyond 64 bits stops the scan in any of the three places: it and what follows count as 0. |
| Updater.FindChecksumLine | internal/core/updater.go:227-235 | Succeeds if and only if some line parses for the name, and returns the first such line. |
| Updater.AssetUrl | internal/core/updater.go:164-168 | The URL is that of the last asset of the wanted name, and empty if there is none of that name. |
| Updater.AssetNames | internal/core/updater.go:122-129 | The asset name for a platform, with `.exe` on Windows only. |
| Updater.ParseOfEntry | internal/core/updater.go:217-225 | A printed checksum line parses to its digest for its own name and for no other. |
| Updater.ThirdWordRefused | internal/core/updater.go:219-225 | A line with a third word is no checksum line. |
| Updater.ManifestRoundTrip | internal/core/updater.go:219-235 | Looking a name up in a printed manifest finds its first entry and that entry's digest, and nothing if it has none. |
| Updater.Check | internal/core/updater.go:154-183 | An update is returned if and only if the release is newer, has a non-empty asset URL and a checksum line, and its fields are those; every other outcome has its own exact condition. |
| Updater.Apply | internal/core/updater.go:189-205 | Nothing is handed to `selfupdate` but a downloaded body whose digest is the one on the line, and then it is; every other case is its own error. |
| Updater.CheckThenApply | internal/core/updater.go:154-205 | An update that `Check` returned carries the first line of the manifest that parses for the asset and the URL of the last asset of that name; it never fails as malformed, and the downloaded body itself is handed to `selfupdate`, once, if and only if its digest is the one on that line. |

## Left out

- Sockets, TLS, the WebSocket library and the internals of `net/http`: replaced by the parameters named above.
  A write is either taken whole or refused, and a client that has refused one write refuses all later ones.
- Upstream runs are finite scripts followed by silence; an upstream that sends for ever is not modelled.
- Text is a sequence of code points; there is no UTF-8 layer, and a message that is not valid UTF-8 is not
  modelled.
- The decoder does not report `id` and `retry`, which touch neither the type nor the data of an event.
- JSON parsing: what unmarshalling a frame or a body yields is a parameter (`probe`, `parse`). Numbers are
  reals, so a status that only rounding to a float64 would move into or out of 400..599 is not modelled.
- `url.Parse`, `Duration.String`, `ParseDuration`, SHA-256 and `selfupdate` are parameters. The fixpoint and
  round-trip lemmas assume that a printed origin parses to itself (`Reparses`, which `ReparsesCanHold` meets
  for a small parser) and that printed durations parse back; the JSON text of the configuration file is not
  modelled, only its members.
- Header forwarding, the route table, `/health`, flag handling in `main`, the GUI, the TUI, translations and
  autostart: filters, constants and rendering without a property of their own.
- The text of log lines and of error messages; the log level of the configuration, which nothing connects to
  the logger.
- Logger.Logger.Emit: channels are numbered buffers in a map of the logger, not heap objects of their own.
- Lifecycle.StopReleasesPort: the ten-second deadline of `Shutdown` is not modelled; the property rests on the
  wait for the goroutine, which has no deadline.
- Lifecycle.StepKeepsInv: a failed write may leave anything in the file; that the program reads such a file as
  an empty one is not modelled.
- Lifecycle.BusyMeansStopInFlight: addresses are compared as written; that two spellings of one address also
  exclude each other is part of the freedom of every bind to fail.
- Handle.Handle.SetConfig: the contract is for a thread that is alone; what overlapping calls keep is stated in
  `Lifecycle`.
- Version.Scan3OfPrint: numbers up to the largest 64-bit integer; a 32-bit `int` is not modelled.
