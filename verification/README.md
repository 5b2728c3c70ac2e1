# Cluster connector tunnel: a Dafny model

The cluster connector tunnels HTTP round trips over NATS. A hub serialises a request, puts it in a JSON
envelope and publishes it; a member of a queue group at the edge performs it and streams the response
back in messages on a reply subject of its own, the last one carrying a `Done` header; a goroutine at the
hub pumps these messages into a pipe, from which the response is read. This project models both sides,
the connection between them, the cache of transports, the envelope, the time budget and the subject
names, and proves what they promise together.

## How it is built

| part | files |
|---|---|
| shared types, messages, the `Done` header | `Prelude`, `Wire` |
| edge: small-step worker, pooled buffered writer, handler, concurrent handlers | `EdgeWorker`, `BufferedWriter`, `EdgeHandler`, `HandlerRuns`, `EdgeRefinement` |
| hub: pump loop, the loop in interleavable steps, and all their schedules | `Pump`, `PumpSteps`, `Schedules` |
| the whole tunnel as a step system, its invariant, its promises | `Protocol`, `ProtocolSafety`, `Tunnel`, `CallProgress` |
| request side: subjects, time budget, pooled request buffer, concurrent requests, edge decoding | `Subjects`, `Timeouts`, `RoundTripper`, `RequestRuns`, `EdgeRespond` |
| a pool shared by concurrent calls | `SharedPool` |
| envelope: base64, UTF-8, JSON | `Base64`, `Utf8`, `JsonText`, `Json`, `Envelope` |
| TLS settings and the transport cache | `TlsSettings`, `CommaLists`, `TlsCache`, `CacheRuns` |
| from a cached transport to the edge | `EndToEnd` |

What the source updates in place is a class here (`NatsWriter`, `BufioWriter` over its 8192-byte array,
`WriterPool`, `Subscription`, `Pipe`, `ByteBuffer` with a slice that aliases its array, `BufferPool`,
`Config`, `TlsTransportCache`), each method proved against a function of the old state. The same functions
are the steps of the tunnel: `EdgeHandler.Handle` publishes exactly the packets of `EdgeWorker.Run`, whose
step `EdgeWorker.Tick` is the edge's step in `Protocol`; the micro-steps of `PumpSteps` follow the loop
that `Pump.PumpLoop` runs.

A run of the tunnel is any sequence of possible steps: calls for any links subscribe and publish (or have
the publish refused), requests are taken by one handler for their link each or get lost, handlers publish
one message at a time with any publish accepted or refused, messages of different handlers overtake each
other at will, a full subscription queue drops them, and each pump checks, waits, times out, fails, takes a
message, and has it read in pieces of any size, or has its reader hang up.

That handlers share writers, and requests share buffers, is the subject of two further step systems, whose
steps are single writes, resets and publishes: `HandlerRuns` shows that each handler goes
through the steps of a worker with a writer of its own, which is what the handlers of `Protocol` have
(`EdgeRefinement`), and `RequestRuns` that each request publishes the envelope that a call of
`RoundTripper.RoundTrip` by itself would.

Library behaviour that is taken as given, and written out in the model:

- `bufio.Writer`: `Write` fills and flushes, and sends a piece that does not fit straight on when nothing
  is buffered; `WriteString` and `ReadFrom` never bypass the buffer; `ReadFrom` flushes when exactly full;
  `Flush` of an empty buffer sends nothing; an error sticks until `Reset`, which forgets error and bytes.
- `http.Response.Write` hands over its pieces one after the other and returns the first write error, or
  an error of its own. A body that fails along with its last bytes is the piece of mode `Text`, since
  those bytes are buffered without the flush at exactly full.
- NATS: a publish copies its data; the messages one handler publishes arrive in that order; a queue group
  hands a request to one member at most; hub and edge of a link use the same naming scheme, and between two
  accounts the imports put the link ID into the response subject and take it out of the handler subject; a
  subscription that dropped messages fails the next `NextMsg`; a header value arrives without the white
  space around it. No other message is lost or made up.
- `io.Pipe`: a write returns once all of it is read, an empty write once a read meets it, or fails when the
  reader closes; the first close decides.
- `sync.Pool`: an object is given to one caller until it is put back, in whatever state it was put back;
  free objects may vanish.
- `xid`: request IDs are fresh for their link and have no dots.
- `tls.X509KeyPair` and the parsing of root certificates are parameters; the first rejects a pair with an
  empty part.

## Where code and documentation differ, or a promise has limits

- A deadline that has passed, and a deadline with no timeout configured, both give 30 s; the comment at
  `pkg/transport/nats.go:154-158` says otherwise. `Timeouts.DocumentedExactly` says exactly when they agree.
- The comment at `pkg/transport/cache.go:32-34` promises the default transport for a configuration without
  TLS options; the code makes a NATS transport for it that ships no settings (`TlsCache.NoneExactly`,
  `TlsCache.TransportWithoutTls`).
- The comment at `pkg/transport/transport.go:56-58` promises that after loading, all three fields are
  populated or were empty; an empty file leaves its field empty, and is read again by the next load.
  `TlsSettings.SecondLoadIsIdleExactly` says exactly when the second load does nothing.
- The edge applies the compression flag only when the envelope has TLS settings
  (`pkg/cmds/run.go:294-313`); `EdgeRespond.RequestTrip` shows it.
- An error whose text is blank ends a truncated response cleanly. `Tunnel.BlankErrorEndsCleanly` is such a
  run; `Tunnel.ClosedExactly` says that a closed call ends cleanly if and only if its response is complete or
  the error reported is blank.
- When the final publish is refused there is no `Done` message (`EdgeWorker.Framing`), and the hub, which
  ignores timeouts, waits for ever: `Tunnel.NotEveryCallEnds` has such a run, and says that however it goes on
  the call stays open, unless its subscription fails or its reader hangs up. `CallProgress.EveryCallEnds` says
  that otherwise a served call comes to its end, if the steps that can be taken for it are taken.
- The cache key leaves out the connection, the timeout and the naming scheme. A hit has connection, names and
  timeout of the one call that made the entry, hence each the caller's own if and only if it is the maker's
  (`CacheRuns.OwnExactly`); `CacheRuns.OthersTransport` is a run in which none is. Connection
  and scheme decide whether there is a response at all:
  `EndToEnd.AnsweredExactly` says exactly when, and `EndToEnd.NotAnswered` has a caller who did everything
  right and gets none.
- Equal keys do not always mean equal settings: `TlsCache.NamesNeeded` and `TlsCache.HypothesesNeeded` have
  the counterexamples, `TlsCache.EqualKeysExactly` the exact condition for loaded configurations, and
  `TlsCache.FullyLoadedExactly` says when loading leaves a configuration so.

## Model

| member | source | states |
|---|---|---|
| `Tunnel.Transparency` | pkg/transport/nats.go:213-249 | in every run of any number of calls and handlers, with every interleaving, refusal, timeout, drop and size of read, what a call's reader has is a prefix of the response of the one handler serving it; a clean end means all of it, or an error report with a blank text; a call nobody serves gets nothing and no clean end |
| `Tunnel.CleanIsWhole` | pkg/cmds/run.go:223-237 | if every error of the run has a text that is not blank, a clean end at the hub means the handler completed and every byte was read, so no truncated response ends cleanly |
| `Tunnel.BlankErrorEndsCleanly` | pkg/transport/nats.go:240-244 | a concrete run in which a response of one byte fails with an empty text and the hub sees a clean end with no byte |
| `Tunnel.NeverCrossTalk` | pkg/transport/nats.go:196-247 | in every run, with calls of any links at one hub, each handler serves a call, only one call, is a member for its link, and took that call's own request; a call has at most one handler; its pump is handed a prefix of exactly that handler's messages in order, and nothing without a handler |
| `Tunnel.EnvelopeArrives` | pkg/transport/nats.go:188-208 | in every run, the handler serving a call decodes from the request it took exactly the envelope that call published |
| `Tunnel.NoReplyLost` | pkg/transport/nats.go:197-210 | in every run, until the pump stops or a full queue drops a message, the messages handed over, queued and on the wire for a call are together, in order, the whole log of its handler |
| `Tunnel.RefusedCall` | pkg/transport/nats.go:208-210 | in every run a call whose request publish was refused has no handler and reads nothing |
| `Tunnel.ClosedExactly` | pkg/transport/nats.go:225-246 | in every run in which a call's subscription does not fail, its reader does not hang up and nothing was dropped: if the pipe is closed, the handler has ended, the reader has all it published, and sees a clean end if and only if the response is complete or the reported text blank, and else that text; if the handler's last publish was refused, the pipe is never closed |
| `Tunnel.SilentNeverCloses` | pkg/cmds/run.go:229-237 | once a handler's last publish was refused, no continuation of the run closes its call |
| `Tunnel.NotEveryCallEnds` | pkg/cmds/run.go:229-237 | a concrete run with an empty response whose one publish is refused: its call is served, and stays open however the run goes on |
| `CallProgress.EveryCallEnds` | pkg/transport/nats.go:213-247 | from any state of any run in which a call is served, with any continuation of the whole tunnel: the steps that move the call on (its handler's, deliveries, its pump's and reader's) are at most its work and two for each timeout; while it is open there is one to take, unless the handler's last publish was refused; undisturbed, it is closed with exactly the handler's bytes and ending |
| `CallProgress.StepWork` | pkg/cmds/run.go:214-260 | each step that moves a call on uses up work, a timeout adds one, and nothing else in the tunnel makes work for it |
| `Tunnel.EverySchedulingEnds` | pkg/transport/nats.go:225-246 | once a handler has ended, however it did, and all it published has arrived: every schedule of its call's loop and draining reader continues the run, takes at most as many steps as there is work plus two for each timeout, can go on until the pipe is closed unless the last publish was refused, and on closing shows exactly the ending |
| `Schedules.EverySchedule` | pkg/transport/nats.go:225-246 | the same for one pump by itself: for every sequence of its steps the bound on its length, a next step while the pipe is open, and the exact bytes and outcome when it is closed |
| `Schedules.ScheduleEnds` | pkg/transport/nats.go:225-246 | the number of steps and the work then left are together at most the work before and two for each timeout |
| `Tunnel.HubTransparent` | pkg/transport/nats.go:236-245 | a pump that was handed a prefix of a handler's messages shows its reader a prefix of the response, and closes cleanly only after that handler's own final message |
| `ProtocolSafety.StepKeepsInv` | pkg/transport/nats.go:196-247 | each of the eight kinds of step keeps the invariant that spans both sides: subjects belong to one call each, at most one request or handler per reply subject, requests carry their own call's data, and hub, queue and wire together hold the handler's log |
| `ProtocolSafety.ReachableInv` | pkg/transport/nats.go:196-247 | every state of every run satisfies that invariant |
| `ProtocolSafety.EdgeTickStreams` | pkg/cmds/run.go:250-260 | a step of a handler adds what it publishes to the log and the wire of the one subject it is for, and leaves those of every other subject as they are |
| `ProtocolSafety.OneReceiver` | pkg/transport/nats.go:200-203 | a packet that can be delivered is the next message of exactly one call; every other call, and what is on the wire for it, stays as it is |
| `Protocol.AwaitedByCall` | pkg/transport/nats.go:197-208 | the response to a call's request is awaited on the subject the call listens on, in both schemes |
| `EdgeWorker.Framing` | pkg/cmds/run.go:223-237 | every handled request, whatever is refused: exactly one final message, the last one, unless the very last publish is refused, and then none; the clean ending exactly when nothing is refused and the response has no fault, and then everything is published; a reported text is the fault or the refusal right before it |
| `EdgeWorker.TickSound` | pkg/cmds/run.go:214-237 | each step of a handler keeps the published bytes a prefix of the response, and the final message last |
| `EdgeWorker.WriterRefinesStream` | pkg/cmds/run.go:160-165 | after every step, up to a refusal or the end, bytes published, then bytes buffered, then pieces to come are the whole response; without refusals the handler only ever ends as its response does |
| `EdgeWorker.MessageSizes` | pkg/cmds/run.go:160-165 | every message before the last carries at least 8192 bytes and at most the larger of 8192 and the longest piece given to `Write`; the final one carries at most 8192 |
| `EdgeWorker.OneMessage` | pkg/cmds/run.go:160-236 | a response of fewer than 8192 bytes, or of 8192 without a `ReadFrom`, is published whole as one final message; a completed one of more than 8192 bytes takes more than one |
| `Wire.HeaderValueEmpty` | pkg/transport/nats.go:240-243 | a `Done` text arrives empty exactly when it was blank |
| `Wire.HeaderValueExactly` | pkg/transport/nats.go:240-243 | any other text arrives from its first to its last character that is no space, tab or line break, character by character, line breaks inside reading as spaces |
| `Wire.TextArrives` | pkg/cmds/run.go:262-276 | an error text without line breaks and with no space at its ends arrives as it is |
| `BufferedWriter.PutInChunks` | pkg/cmds/run.go:223-223 | a piece taken in by `ReadFrom` gives the same messages however its source cuts it |
| `BufferedWriter.PutExactly` | pkg/cmds/run.go:160-165 | which messages a piece makes and what is buffered then, by numbers alone: for `Write` nothing up to 8192 bytes, the whole piece past an empty buffer, else one full buffer and the rest; for `WriteString` and `ReadFrom` the full buffers there are, which for `WriteString` leaves a last one buffered; the messages are published in order up to the first refusal, whose text sticks |
| `BufferedWriter.NatsWriter.Write` | pkg/cmds/run.go:250-260 | one message per write, with an empty `Done` text exactly when final; reports all bytes as written also when the publish is refused |
| `BufferedWriter.NatsWriter.WriteError` | pkg/cmds/run.go:262-276 | one message without data, its `Done` text present exactly when final, and that of the error if there is one |
| `BufferedWriter.BufioWriter.Reset` | pkg/cmds/run.go:221-221 | forgets all bytes and any sticky error of earlier use |
| `BufferedWriter.BufioWriter.Flush` | pkg/cmds/run.go:229-232 | sends what is buffered as one message, nothing when empty, and nothing after an error |
| `BufferedWriter.BufioWriter.Write` | pkg/cmds/run.go:223-223 | buffer, error, connection and messages after a piece, in place, are those of the specification `Put` |
| `BufferedWriter.BufioWriter.WriteString` | pkg/cmds/run.go:223-223 | the same for a piece that may not bypass the buffer |
| `BufferedWriter.BufioWriter.ReadFrom` | pkg/cmds/run.go:223-223 | the same for a piece read into the buffer in chunks of arbitrary sizes |
| `EdgeHandler.PutCarried` | pkg/cmds/run.go:219-224 | a whole piece put into the buffered writer is a stretch of the worker's own run, to the next piece or to its failure |
| `EdgeHandler.WriteResponse` | pkg/cmds/run.go:223-223 | all pieces, up to the first write error, follow the worker's run, and the error returned is that failure or the response's fault |
| `EdgeHandler.Frame` | pkg/cmds/run.go:224-237 | the closing branch taken (error message, last flush, empty message) is the worker's last step, whether the buffer is empty, partly full or exactly full |
| `EdgeHandler.Handle` | pkg/cmds/run.go:214-238 | through a pooled writer in any state, the packets published and the publish attempts used are exactly those of a fresh worker, all on this request's reply subject |
| `EdgeHandler.WriterPool.Get` | pkg/cmds/run.go:219-219 | a writer that no other request holds, free before or new |
| `EdgeHandler.HandleAll` | pkg/cmds/run.go:214-238 | any number of requests through the same pool and connection publish, one after the other, what fresh workers would |
| `EdgeHandler.ReuseIsolated` | pkg/cmds/run.go:160-228 | of any sequence of responses, however earlier ones failed, each one's reply subject has its own messages only, well framed |
| `Pump.Turn` | pkg/transport/nats.go:225-246 | one turn of the loop: bytes that reach the pipe, whether it breaks, and the error it leaves behind |
| `Pump.PumpLoop` | pkg/transport/nats.go:213-247 | bytes and outcome at the reader are those of the specification; on every exit the pipe is closed exactly once and the subscription ended, and neither while it still waits |
| `Pump.TimeoutsStutter` | pkg/transport/nats.go:227-232 | deleting all timeouts changes neither the bytes nor the outcome |
| `Pump.FirstClosingEventDecides` | pkg/transport/nats.go:225-246 | the loop ends if and only if some event ends it, and the first such event decides how |
| `Pump.CleanExactly` | pkg/transport/nats.go:240-244 | a clean close if and only if the first ending event is a fully read message with an empty `Done` text |
| `Pump.FailureExactly` | pkg/transport/nats.go:213-246 | a close with an error if and only if the first ending event fails the loop with that text: the subscription's own, the pipe's when the reader went away, or a non-empty `Done` text |
| `PumpSteps.StepFollows` | pkg/transport/nats.go:225-246 | the interleaved steps, with reads of any size and drops, keep following the loop over the events so far |
| `PumpSteps.StepFaithful` | pkg/transport/nats.go:225-246 | each step keeps what was read equal to what was handed over so far, and a clean close only on a fully read final message |
| `PumpSteps.ProductiveStepsShrink` | pkg/transport/nats.go:225-246 | every step of loop or reader but a timeout or an empty read uses up work: bytes and messages queued, and what the stage still has to go through |
| `Subjects.ResponseHubInjective` | pkg/shared/connector.go:69-96 | hub response subjects are equal exactly for the same link and request, in both schemes, whatever dots link IDs have |
| `Subjects.DotsInUidCollide` | pkg/shared/connector.go:69-73 | with a dot in a request ID two links can share a subject |
| `Subjects.ResponseSidesAgree` | pkg/shared/connector.go:69-96 | for one link, edge and hub subject determine one another and the request |
| `Subjects.ImportedResponse` | pkg/shared/connector.go:69-96 | what the edge publishes on for a request is imported to what the hub listens on |
| `Subjects.ResponseArrivesExactly` | pkg/shared/connector.go:69-96 | for one link, with schemes of their own at hub and edge, it is if and only if the schemes agree |
| `Subjects.HandlersApart` | pkg/shared/connector.go:64-96 | no handler subject is a response subject, on either side, in either scheme |
| `Subjects.HandlerHubInjective` | pkg/shared/connector.go:64-89 | hub handler subjects are equal exactly for the same link |
| `Subjects.HandlerReachedExactly` | pkg/cmds/run.go:177-178 | with the accounts' imports written out by their strings: a request on the hub handler subject of one link gets to what the edge of another subscribes to if and only if it is the same link |
| `Subjects.RequestReachesExactly` | pkg/shared/connector.go:64-89 | the edge listens exactly where its link's hub handler subject leads |
| `Subjects.ImportedExactly` | pkg/shared/connector.go:69-96 | the import of response subjects is that between the two strings of the scheme |
| `Subjects.ResponseReaches` | pkg/shared/connector.go:69-96 | what the edge is told to answer on leads to what the hub listens on, and that is the literal subject with link and request |
| `Timeouts.Timeout` | pkg/transport/nats.go:159-168 | a positive timeout that is the smaller of configured timeout and remaining time when both are positive, and 30 s when one is not |
| `Timeouts.HubTimeoutBudget` | pkg/transport/nats.go:159-168 | with 64-bit saturating subtraction, the hub timeout and no other value is within that budget |
| `Timeouts.EdgeTimeoutBudget` | pkg/cmds/run.go:317-321 | the shipped timeout does not underflow, and the edge waits half a second less than the hub exactly when the hub has more than that, else 30 s |
| `Timeouts.DocumentedExactly` | pkg/transport/nats.go:154-168 | the code meets its comment if and only if there is no deadline, or a future one and a configured timeout, or the deadline is exactly 30 s off |
| `RoundTripper.Envelop` | pkg/transport/nats.go:173-190 | although the request is a slice of the buffer that is reset and overwritten, the buffer ends up with the encoding of the original request, for any buffer contents before |
| `RoundTripper.Encode` | pkg/transport/nats.go:188-190 | appends the encoding of what the slice showed before the first write |
| `RoundTripper.RoundTrip` | pkg/transport/nats.go:170-193 | with a buffer from the pool in any state: the bytes published are the envelope of this request, its TLS settings, shipped timeout and flag; an error of serialising is returned and nothing published |
| `RoundTripper.WriteUnderSlice` | pkg/transport/nats.go:181-190 | reading the slice only after the buffer was written again gives the request if and only if the new bytes needed new storage or agree with it |
| `RoundTripper.BufferPool.Get` | pkg/transport/nats.go:171-173 | a buffer no other call holds, free before or new |
| `RequestRuns.EachPublishesItsOwn` | pkg/transport/nats.go:170-193 | in every interleaving of any number of requests over one pool and store of arrays, with every write, slice, reset, encoding and publish a step of its own: no buffer is in the pool, nor its array in another call's hands, until its call has its answer; every call publishes exactly the envelope around its own request, which the edge decodes; a call that fails to serialise publishes nothing |
| `RequestRuns.StepKeepsInv` | pkg/transport/nats.go:170-193 | each step of any call keeps that what every call has in its buffer, shows through its slice, has rendered or published is its own |
| `HandlerRuns.EachAsAlone` | pkg/cmds/run.go:214-237 | in every interleaving of any number of handlers over one pool of writers and one connection, whatever was left in the writers: on each reply subject is exactly what a worker with a writer of its own would have published by then |
| `HandlerRuns.WorkIsTick` | pkg/cmds/run.go:214-237 | a step of a handler on its shared writer is the step of its own worker, and adds nothing on any other subject |
| `EdgeRefinement.HandlerIsTicks` | pkg/cmds/run.go:214-237 | in every run of the tunnel a handler is a worker for its request after as many steps as the run has for it |
| `EdgeRefinement.SamePublished` | pkg/cmds/run.go:214-237 | a handler with a shared writer and one of the tunnel, each in any run, have published the same if they have the same request and response and were answered the same |
| `EdgeRefinement.WorkMirrored` | pkg/cmds/run.go:214-260 | a step of a handler with a shared writer is matched by the tunnel's step of its handler, which adds the same messages to the wire |
| `EdgeRefinement.BeginMirrored` | pkg/cmds/run.go:177-221 | a handler with a shared writer begins as the tunnel gives its request to a handler |
| `Base64.RoundTrip` | pkg/transport/types.go:41-43 | byte fields decode to what was encoded, for all contents (section 4 of RFC 4648) |
| `Utf8.RoundTrip` | pkg/transport/nats.go:188-188 | every string of Unicode scalar values survives encoding to bytes and back |
| `JsonText.StringRoundTrip` | pkg/transport/types.go:39-49 | every string is read back from its escaped form (section 7 of RFC 8259), and reading stops right after its closing quote |
| `JsonText.NumberRoundTrip` | pkg/transport/types.go:30-30 | every integer is read back as the same literal, whatever may follow it in a JSON text |
| `Json.LineRoundTrip` | pkg/transport/nats.go:188-190 | every value with integer numbers, nested at will, parses back from its printed line |
| `Json.TextExactly` | pkg/cmds/run.go:281-286 | a printed value followed by anything that ends it parses if and only if what follows is space |
| `Base64.AlphabetExactly` | pkg/transport/types.go:41-43 | the 64 digits are those of section 4 of RFC 4648 |
| `Base64.SextetsExactly` | pkg/transport/types.go:41-43 | four digits hold the 24 bits of three bytes, in order |
| `Base64.ForeignRejected` | pkg/cmds/run.go:281-286 | a text with any character that is no digit, padding or line break is rejected |
| `JsonText.OnlySafe` | pkg/transport/nats.go:188-190 | no control character, angle bracket, ampersand or JavaScript line separator occurs in the text of a string |
| `JsonText.OrdinaryStays` | pkg/transport/nats.go:188-190 | all other characters but quote and backslash stand for themselves |
| `Envelope.TlsRoundTrip` | pkg/transport/types.go:37-50 | all six settings are read back |
| `Envelope.EnvelopeMembers` | pkg/transport/types.go:27-34 | the names in the envelope's text, in order |
| `Envelope.SettingsMembers` | pkg/transport/types.go:37-50 | the names in the settings' text, in order: those whose value is not empty |
| `Envelope.EnvelopeRoundTrip` | pkg/transport/types.go:27-50 | decoding the published bytes gives the same request bytes, TLS settings, timeout and compression flag, for every envelope |
| `EdgeRespond.RequestTrip` | pkg/cmds/run.go:281-328 | for every request and configuration that the hub accepts: the edge has the hub's request bytes, stops only at an unreadable request or unparsable roots, else uses the intended TLS settings and a timeout below the hub's when the hub has more than half a second |
| `EdgeRespond.ReachedExactly` | pkg/cmds/run.go:281-328 | for any data at all: it fails at decoding, at an unreadable request, or at settings that are not acceptable, exactly then; else it goes out with the envelope's settings, or the default ones, its flag only along with settings, and its timeout, or 30 s for none |
| `TlsSettings.LoadTLSFiles` | pkg/transport/transport.go:59-81 | the configuration after loading, also after each way of failing midway, is that of the specification |
| `TlsSettings.LoadExactly` | pkg/transport/transport.go:59-97 | what loading computes: the first needed file that is missing is the error; as far as it gets, data are the caller's or else the file's; it marks for reloading exactly when it was marked, or certificate and key are both named as files and neither given as data; nothing else changes |
| `TlsSettings.FilePairStaysHome` | pkg/transport/types.go:78-88 | a certificate and key only named as files are never shipped, with or without a load beforehand |
| `TlsSettings.SecondLoadIsIdleExactly` | pkg/transport/transport.go:59-97 | after a successful load, a second load changes nothing and cannot fail, under all later file systems, if and only if every file the first one read was non-empty |
| `TlsSettings.PersistableTLSConfigFor` | pkg/transport/types.go:54-104 | settings, errors and the configuration left behind, branch by branch; a certificate is shipped only if static |
| `TlsSettings.TLSConfigFor` | pkg/transport/types.go:118-155 | succeeds if and only if roots parse and come without the insecure flag and a shipped pair is valid; then the configuration has exactly the shipped settings, and there is none exactly when these are the defaults |
| `TlsSettings.MeaningSurvives` | pkg/transport/types.go:54-155 | when the hub's build succeeds, the edge's rebuild fails if and only if roots do not parse, and else has the hub's flag, server name, protocols and roots, and the client certificate exactly when it is static |
| `CommaLists.JoinsAgreeExactly` | pkg/transport/cache.go:123-123 | joined lists are equal if and only if their names cut at commas are (an empty list counting as one empty name) |
| `CommaLists.CommaFreeJoinsAgree` | pkg/transport/cache.go:123-123 | for names without commas, equal only for equal lists, but for the empty list and the list of one empty name |
| `TlsCache.TlsConfigKey` | pkg/transport/cache.go:107-136 | loads in place, and makes a key exactly when loading succeeds and there is no proxy: contents for a static configuration, file names for one that reloads |
| `TlsCache.KeysAgreeExactly` | pkg/transport/cache.go:107-136 | two configurations have one key if and only if they agree in flag, CA data, server name, protocol names up to commas, link, compression, and on their pair: file names if both reload, data if neither does |
| `TlsCache.TlsTransportCache.Get` | pkg/transport/cache.go:63-104 | map, result and the caller's configuration after a call are those of the specification, with files changing between the two loads; entries are never replaced by other objects |
| `TlsCache.TlsTransportCache.New` | pkg/transport/transport.go:35-54 | rejects a custom transport or proxy and then changes nothing; else does what `Get` does, and the transport is the cache's for its key |
| `TlsCache.KeyDeterminesSettings` | pkg/transport/cache.go:64-96 | with plain protocol names, no callback, no reloading asked for and non-empty files, the key alone determines the settings or the error, whatever happens to the files after the key was made |
| `TlsCache.EqualKeysEqualSettings` | pkg/transport/cache.go:107-135 | two such configurations with equal keys have equal settings or equal errors, the same link and the same flag |
| `TlsCache.EqualKeysExactly` | pkg/transport/cache.go:107-135 | for any two loaded configurations with one key: the builds agree if and only if both ask for settings or neither does and, if they ask with different protocol names, settings are refused |
| `TlsCache.FullyLoadedExactly` | pkg/transport/transport.go:59-97 | a successful load leaves nothing to read if and only if the files it read were non-empty |
| `TlsCache.NoneExactly` | pkg/transport/types.go:54-57 | the build makes no settings if and only if the configuration asks for none |
| `TlsCache.TransportWithoutTls` | pkg/transport/cache.go:80-103 | a configuration that asks for no settings gets a transport all the same, and a new one ships none |
| `TlsCache.NamesNeeded` | pkg/transport/cache.go:123-123 | two pairs of configurations with one key and different settings, for a protocol name with a comma and for an empty one |
| `TlsCache.HypothesesNeeded` | pkg/transport/cache.go:107-135 | the same for a certificate callback, for reloading asked for beforehand, and for an empty file |
| `CacheRuns.CacheRefinesFreshBuild` | pkg/transport/cache.go:63-104 | over every interleaving the lock allows, with files changing at any time: each finished call has the settings, link and flag, or the error, that building without a cache would give |
| `CacheRuns.OneTransportPerKey` | pkg/transport/cache.go:69-103 | as any run goes on the map only grows, and no entry is replaced |
| `CacheRuns.SameKeySameTransport` | pkg/transport/cache.go:74-78 | two successful calls of a run get the same object if and only if their keys are equal, with or without the hypotheses |
| `CacheRuns.SharedExactly` | pkg/transport/cache.go:69-103 | two successful cacheable calls of a run have one transport if and only if their loaded configurations agree in that sense |
| `CacheRuns.FilesApart` | pkg/transport/cache.go:127-133 | two successful calls whose pairs come from different files never share a transport |
| `CacheRuns.OwnExactly` | pkg/transport/cache.go:74-100 | in every run a call that succeeds has connection, names and timeout of the one call that made the transport (for its key, if it has one), hence its own of each if and only if it is that call's |
| `CacheRuns.OthersTransport` | pkg/transport/cache.go:74-78 | a run of two calls with one key in which the second gets connection, naming scheme and timeout of the first |
| `EndToEnd.CachedTransportServesItsCaller` | pkg/transport/cache.go:63-104 | in every run of calls under the hypotheses: the transport a call gets is for that call's link, and the edge, once a request sent with it gets there, has its bytes and uses the TLS settings and flag its configuration intends |
| `EndToEnd.AnsweredExactly` | pkg/transport/cache.go:74-100 | in every run: a request sent with the transport a call got reaches its link's edge and the response arrives where the transport listens if and only if the maker of the transport had the link's connection and scheme; for a caller who has them, if and only if they are the maker's too |
| `EndToEnd.AllAnswered` | pkg/transport/cache.go:63-104 | if every caller of the run has its link's connection and scheme, every request is answered |
| `EndToEnd.NotAnswered` | pkg/transport/cache.go:74-78 | a run in which a caller who has its link's connection and scheme finds another's transport and is not answered |
| `CacheRuns.ServeOneEach` | pkg/transport/cache.go:80-103 | a call adds nothing, or its own key alone with a new object that has its own names and timeout; a failed one leaves the map as it is; no two keys share an object |

## Left out

- HTTP: `http.Response.Write`, `http.Request.WriteProxy`, `http.ReadRequest`, `http.ReadResponse` and the client that performs the request are foreign code; responses are lists of pieces, readability of a request is a parameter.
- The status response made from an error before a handler writes (`pkg/cmds/run.go:180-212`): it becomes one more response to stream, whose bytes are arbitrary in the model.
- TLS handshakes, X.509 and PEM parsing, hence the text of `createErrorParsingCAData`.
- NATS internals, `NewConnection`, log handlers, reconnects and credentials; a connection that loses messages otherwise than by a full subscription queue.
- How a handler's response depends on its request: a handler gets any response at all.
- The subscription that is not ended when publishing the request is refused (`pkg/transport/nats.go:208-210`): the call stays subscribed in the model too, and messages for its subject would be queued and not read.
- Two publishes at the very same time: the library serialises them, so a publish is one step, and steps of different handlers interleave freely.
- Concurrent changes to one configuration object: each call of `get` has its own.
- Nil and empty slices are one value; they differ only in how the JSON text shows an empty request.
- JSON details that no envelope of the hub contains: byte fields given as arrays of numbers, the depth limit, elements of an earlier array surviving a repeated member.
- `HTTPWrappersForConfig`, `String` of the cache key, the REST, HTTP and client-command wrappers, link creation, callback, command-line flags, health checks, demos, licence and version code: thin wrappers, or easy members.
- Fairness: that a step which can be taken is taken at some time, by the edge, the connection or the reader, is not part of the model; the hub ignores timeouts without limit, so nothing ends a call whose request or messages are lost.
