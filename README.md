# connect-bun bridge, modelled in Dafny

This project models the part of connect-bun that connects Connect RPC handlers
to Bun's native HTTP `Request`/`Response`. The handlers speak in asynchronous
sequences of byte chunks. The model covers:

- the streaming-mode decision: per request, whether the request body is passed
  on as a stream or read into one buffer, and whether the response body is
  streamed or materialized;
- the chunk-sequence adapters `bufferToIterable`, `streamToIterable`,
  `iterableToStream` and `materialize`;
- the dispatch bridge built by `createBunHandler`: the route map, the 404 for
  an unknown path, the body adaptation on both sides, and the mapping of
  handler faults to 500;
- the `upload` handler of the file service, which counts messages and bytes;
- the `flightEvent` handler of the flight service, which echoes the message
  with a seconds/nanos timestamp.

Async iterables and native streams are finite values here. An
`AsyncSeq(items, end)` yields its items in order. It then either reports done
or throws an error. `StepAt(s, i)` is the outcome of the (i+1)-th `next()`
call. `materialize`, `iterableToStream` and `upload` are loops over these
steps. A native `ReadableStream` is given by its controller state:
`Open`, `Closed` or `Errored`, together with the chunks enqueued so far. A
request body is a stream that has settled (closed or errored). A handler is an
arbitrary function from the request it is given to a returned response or a
raised fault. `Handle` reports the response and also the request the handler
was invoked with, if it was invoked at all.

Files:
- `chunks.dfy`: bytes, chunks, async sequences and concatenation.
- `decision.dfy`: the decision policy.
- `adapters.dfy`: the adapters and `materialize`.
- `bridge.dfy`: the route map and the dispatch bridge.
- `file_service.dfy`: `upload`.
- `flight_service.dfy`: `flightEvent`.

Two behaviours of the code are worth stating plainly:
- A non-numeric `content-length` gives `NaN`, and `NaN > 5 MiB` is false, so a
  unary request with such a header is buffered. A missing header, by contrast,
  makes the input streamed. `Decision.UnaryBufferedWhenDeclaredSmall` states
  both.
- `materialize` has fast paths for zero and one chunk only. Two or more chunks
  are all collected and concatenated.

## Model

| member | source | states |
|---|---|---|
| `Decision.IsBigPayload` | src/bun_main.ts:78-82 | A payload is big iff the header is absent or its number is strictly above 5 MiB. A `NaN` header is not big. |
| `Decision.Decide` | src/bun_main.ts:78-91 | Output is streamed iff the kind is server or bidi streaming. Input is streamed iff the kind is client or bidi streaming, or the header is absent, or the length is strictly above 5 MiB. |
| `Decision.OutputModeIgnoresHeader` | src/bun_main.ts:90-91 | The output mode never depends on the content-length header. |
| `Decision.StreamingKindsStreamInput` | src/bun_main.ts:85-88 | Client- and bidi-streaming requests stream their input whatever the header says. |
| `Decision.UnaryBufferedWhenDeclaredSmall` | src/bun_main.ts:78-88 | For unary and server-streaming kinds, input is buffered iff the header is `NaN` or at most 5 MiB. Exactly 5 MiB is buffered, 5 MiB + 1 is streamed, `NaN` is buffered and absent is streamed. |
| `Chunks.ConcatLength` | src/bun_main.ts:30-36 | The concatenated buffer is as long as the sum of the chunk lengths. |
| `Chunks.ConcatAt` | src/bun_main.ts:30-36 | Concatenation keeps the original order: byte j of chunk k sits at the sum of the lengths of the earlier chunks, plus j. |
| `Adapters.BufferToIterable` | src/bun_main.ts:16-18 | The generator yields the buffer on the first `next()` and reports done on the second. |
| `Adapters.Materialized` | src/bun_main.ts:20-37 | Draining succeeds iff the sequence ends normally. A failure carries the sequence's own error. The result length is the sum of the chunk lengths. |
| `Adapters.Materialize` | src/bun_main.ts:20-37 | The loop returns the concatenation of all chunks, or the thrown error. Zero chunks give an empty buffer. Exactly one chunk is returned unchanged. |
| `Adapters.BufferRoundTrip` | src/bun_main.ts:16-28 | Materializing `bufferToIterable(b)` gives back exactly `b`. |
| `Adapters.Settled` | src/bun_main.ts:47-62 | The final stream holds exactly the sequence's items. It is closed iff the sequence ends normally; otherwise it is errored with the thrown error. |
| `Adapters.IterableToStream` | src/bun_main.ts:47-62 | Each chunk is enqueued once, in order. The one call after the last enqueue is `close` if iteration ended normally, or `error(err)` if it threw. The final state is `Settled(it)`. |
| `Adapters.StreamToIterable` | src/bun_main.ts:39-45 | The generator yields the stream's enqueued chunks in order. It then reports done for a closed stream, or throws the stream's error. |
| `Adapters.StreamRoundTrip` | src/bun_main.ts:39-62 | `streamToIterable` and `iterableToStream` are inverse in both directions. No chunk is added, dropped or merged, and the ending is kept. For an errored stream this is about the chunks read before the error (see Left out). |
| `Adapters.ReadAll` | src/bun_main.ts:101 | Reading the whole request body gives what materializing its stream would give: the concatenation, or the stream's error. |
| `Bridge.BuildRouteMap` | src/bun_main.ts:65-68 | The loop builds `RouteMap(routes)`. A path is a key iff some route registers it. |
| `Bridge.RouteMapKeys` | src/bun_main.ts:65-74 | A path is found in the map iff some entry of `router.handlers` has it as `requestPath`. |
| `Bridge.LaterRouteWins` | src/bun_main.ts:65-68 | If several routes share a path, the map holds the last of them. |
| `Bridge.InboundBody` | src/bun_main.ts:94-102 | A null body becomes an empty sequence in both modes. Stream mode gives exactly the stream's chunks and ending. Buffered mode gives one chunk holding the whole body, or the read error. |
| `Bridge.OutboundBody` | src/bun_main.ts:113-121 | An absent body gives no body. Stream mode always gives a stream holding the produced chunks. The stream is closed if production ended normally, and errored with the thrown error otherwise. Buffered mode gives the concatenation, or fails iff production threw. |
| `Bridge.Handle` | src/bun_main.ts:70-131 | An unknown path gives 404 "Not Found" and the handler is not invoked. A routed request reaches its handler or gets a 500. The handler is invoked exactly when the inbound body can be built, and it gets HTTP version "2.0", the request's URL, method and headers, and the inbound body in the decided mode. Every other response is a 500 or carries the handler's status and headers. A success whose status the `Response` constructor accepts carries the handler's status, headers and body, adapted in the decided output mode. |
| `Bridge.InternalErrorIffFault` | src/bun_main.ts:93-130 | A routed request gets 500 "Internal Server Error" iff reading the buffered body, running the handler or materializing its body raised a fault, or the `Response` constructor rejected the handler's status (outside 200 to 599). |
| `Bridge.SuccessResponseBody` | src/bun_main.ts:113-126 | A successful call whose body ends normally answers with the handler's status. For server- and bidi-streaming methods the body is a closed stream of exactly the handler's chunks. For the other kinds it is one buffer holding their concatenation. |
| `Bridge.StreamedFaultKeepsStatus` | src/bun_main.ts:113-126 | If a streamed response body throws and the status is accepted, the response still has the handler's status and its stream ends errored with that error. It does not become a 500. |
| `Bridge.InboundModeAgnostic` | src/bun_main.ts:96-102 | Draining the inbound body gives the same bytes, or the same fault, in stream and in buffered mode. |
| `Bridge.OutboundModeAgnostic` | src/bun_main.ts:115-121 | A streamed response closes iff the buffered one would succeed, and then it carries the same bytes. |
| `FileService.Upload` | src/services/file_service.ts:6-18 | `size` is the total data length of all messages and `chunks` is the number of messages. An empty stream gives (0, 0). A fault from the stream propagates. |
| `FileService.TotalSizeMonotone` | src/services/file_service.ts:10-13 | The running size never decreases as messages arrive. |
| `FileService.TotalSizeIsConcatLength` | src/services/file_service.ts:10-11 | The reported size equals the length of all message data put together. |
| `FlightService.FlightEvent` | src/services/flight_service.ts:6-16 | The acknowledgment is the incoming message, unchanged. `seconds` is floor(ms / 1000). `nanos` is a multiple of 1,000,000 in [0, 999,000,000]. |
| `FlightService.TimestampIsExact` | src/services/flight_service.ts:13-14 | seconds · 10^9 + nanos = ms · 10^6, so the instant is kept exactly, including before the epoch. |

## Left out

- Server start-up and port binding (`Bun.serve`, `createConnectRouter`, registering the two services). This is process wiring with no logic of its own.
- `src/node_main.ts` and `src/file_throughput.ts`. The first is wiring for Node's HTTP adapter. The second is a network benchmark client using timers and floating point.
- Asynchronous scheduling, backpressure and the cancellation signal passed to the handler. Streams are finite sequences and await points are plain steps. A stream that never settles (a hang) is not modelled.
- Logging with `console.log` and `console.error`.
- The clock read in `flightEvent`. The millisecond count is a parameter.
- Connect router internals, the generated protobuf types, `URL` parsing, `Buffer.concat`, `ReadableStream` and `req.arrayBuffer()`. These are foreign code. The request's path is a given field, concatenation is sequence concatenation, and reading the whole body is `ReadAll`.
- JavaScript `Number()` parsing of the header. The header is given as `Absent`, `Num(n)` or `NaN`.
- Decision.IsBigPayload: a header that parses to a fractional number or to `Infinity` has no value in the model. `Num` carries integers only.
- Adapters.Materialize: returning the one chunk "without a copy" is stated as value equality. Buffer identity and aliasing are not modelled.
- Adapters.IterableToStream: a fault from `controller.enqueue` itself (a stream cancelled by its reader) is not modelled. Only faults of the iteration are.
- Bridge.Handle: the headers Bun adds itself to the text responses (a plain-text content type) are not modelled. The bridge sets none.
- FileService.Upload: the protobuf width of `chunks` and `size` is not modelled. Both are unbounded naturals.
- FlightService.FlightEvent: `Math.floor(ms / 1000)` divides in floating point. The model divides exactly. The two agree for every millisecond count a JavaScript `Date` can hold.
- Bridge.Handle: the status check of the `Response` constructor is modelled as the Fetch Standard's range 200 to 599. Any runtime exception to that range (such as accepting 101) is not modelled. The `TypeError` for a non-null body with a null-body status (204, 205, 304) is not modelled either.
- Adapters.StreamToIterable, Adapters.Settled, Adapters.StreamRoundTrip, Bridge.InboundBody, Bridge.OutboundBody: an errored stream is modelled as if its reader had taken every enqueued chunk before the error. A native stream discards the chunks still queued when `controller.error` is called, so a real reader may see only a prefix of them before the error. For closed streams the model is exact.
