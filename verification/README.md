# godot-sse core, modelled in Dafny

This project models the two components that hold the logic of the godot-sse
extension:

- the incremental Server-Sent Events parser `sse::SSEParser`;
- the connection state machine `SSEClient`.

The parser follows the event-stream grammar of the WHATWG HTML Living Standard,
section 9.2.6 ("Interpreting an event stream"). It takes arbitrary chunks and
keeps the unterminated tail in a buffer. It ends lines at `\r\n`, a lone `\r`
or a lone `\n`, and sorts each line into blank, comment or `field:value`. It
builds up `event`, `data`, `id` and `retry`, and on a blank line it enqueues
the finished event.

The client drives one HTTP transport through five states: DISCONNECTED,
CONNECTING, READING_HEADERS, STREAMING and RECONNECT_WAIT. On every frame it
calls the handler of its current state. It reports what happens through
signals, and it reconnects under a policy with an attempt cap.

Layout, one module per file:

- `text.dfy` (`Text`): the string primitives the source relies on. These are
  decimal digits and their rendering, `begins_with`, `find`, `rfind`, ASCII
  `to_lower`, `strip_edges` and Godot's `to_int`.
- `event_stream.dfy` (`EventStream`): the parser's five fields as a value
  `ParserState`, with line classification, field handling, dispatch and feed
  written as functions.
- `sse_parser.dfy` (`SseParser`): the class `SSEParser`. Its fields are
  updated in place. `feed` is a `while` loop with a nested terminator scan,
  and the retry digit check is a loop. Every method is proved to compute the
  matching `EventStream` function.
- `event_stream_props.dfy` (`EventStreamProps`): properties of the parser.
  - Feeding in chunks; where chunk independence fails.
  - Byte order mark handling; data accumulation.
  - Id persistence; the field forms.
  - The unit tests' scenarios, stated for all inputs.
- `url.dfy` (`Url`): `parse_url` as a function returning a target record. A
  formatter is its inverse.
- `connection.dfy` (`Connection`): the client's fields as a value `Client`,
  and each client operation as a function of the old value. The transport is
  modelled two ways:
  - what it answers (a `Reply` per frame, or a result parameter);
  - the calls it receives (a call log).

  Signals are an appended signal log.
- `sse_client.dfy` (`SseClient`): the class `SSEClient`, whose fields the
  operations update in place. The header and content-type scans are loops,
  and so is the hand-over of parsed events. Every method is proved to compute
  the function of the same name in `Connection`.
- `connection_props.dfy` (`ConnectionProps`): properties over whole runs of
  frames, and properties at the client's boundaries:
  - the invariant every operation keeps;
  - the attempt cap;
  - the end of the life cycle;
  - 204 handling;
  - the strict timeout;
  - the id sent on reconnection.

Behaviour of the code a reader may not expect:

- A block whose data is empty is dropped, but an `id` line inside it has
  already set the last event id. Later events carry that id
  (`EventStreamProps.DroppedBlockKeepsId`).
- Splitting the input between the `\r` and `\n` of a CRLF gives a different
  result from feeding it whole: the `\n` becomes an extra blank line
  (`EventStreamProps.CrLfSplitDiffers`). So does splitting a byte order mark
  across the first two chunks (`EventStreamProps.BomSplitDiffers`). Chunk
  independence holds for every other split (`EventStreamProps.ChunkIndependence`).
- A 204 response reports the error `HTTP 204` before `sse_disconnected`
  (`ConnectionProps.NoContentEnds`).
- `parse_url` writes the scheme, port and path into the client even when the
  host turns out empty and the URL is refused (`SseClient.SSEClient.ParseUrl`).
- A transport that fails to connect inside `connect_to_url` is released
  without being closed. A failed reconnection closes the new transport
  (`Connection.ConnectToUrl`, `Connection.Reopen`).

## Model

| member | source | states |
|---|---|---|
| Text.IndexOf | src/sse_client.cpp:75 | `None` exactly when the character is absent; otherwise a position holding it with no earlier occurrence (`find`) |
| Text.LastIndexOf | src/sse_client.cpp:85 | `None` exactly when the character is absent; otherwise a position holding it with no later occurrence (`rfind`) |
| Text.IndexOfFirst | src/sse_client.cpp:75 | the first occurrence is the one `find` returns |
| Text.LastIndexOfLast | src/sse_client.cpp:85 | the last occurrence is the one `rfind` returns |
| Text.ToLower | src/sse_client.cpp:318 | same length; every character lower-cased one by one |
| Text.StripEdges | src/sse_client.cpp:61 | the result is a slice of the input with only control or space characters outside it, and it neither starts nor ends with one, so it is the maximal trim |
| Text.StripEdgesUnchanged | src/sse_client.cpp:61 | a string that is already trimmed is returned unchanged |
| Text.ToIntOfDigits | src/sse_client.cpp:88 | `to_int` of a digit string is its decimal value |
| Text.IntToString | src/sse_client.cpp:275 | a non-negative number renders as digits whose decimal value is the number; a negative one as '-' followed by the digits of its magnitude |
| Text.DecimalValueOfNatToString | src/sse_client.cpp:303 | the decimal rendering of a number reads back as that number |
| EventStream.ClassifyLine | src/sse_parser.cpp:55-77 | a line is blank exactly when empty, and a comment exactly when it starts with ':' |
| EventStream.ClassifyLineSplit | src/sse_parser.cpp:65-77 | a field line is its name without ':', then ': ' or ':' and the value; a line with no colon is a name with an empty value |
| EventStream.LineEnd | src/sse_parser.cpp:31-41 | the first terminator position: no '\r' or '\n' before it |
| EventStream.TerminatorLength | src/sse_parser.cpp:32-39 | a terminator takes one or two characters and stays inside the text |
| EventStream.StripFinalNewline | src/sse_parser.cpp:103-105 | exactly one final '\n' is removed, if there is one |
| EventStream.Dispatch | src/sse_parser.cpp:102-119 | the current event is reset; an event is enqueued at the back only when its data minus one final newline is non-empty; it has type "message" when its type was empty, the last event id and its retry value; the buffer, the id and the flag are unchanged |
| EventStream.ApplyField | src/sse_parser.cpp:79-99 | unknown names change nothing; the id changes only on an `id` field without NUL; the retry changes only on an all-digit `retry` value |
| EventStream.ProcessLine | src/sse_parser.cpp:55-100 | a blank line dispatches; a comment changes nothing; other lines never touch the queue; the queue only grows at its back; the id changes only to a NUL-free `id` value |
| EventStream.RemainderNoTerminator | src/sse_parser.cpp:43-52 | what stays buffered holds no terminator |
| EventStream.RemainderSuffix | src/sse_parser.cpp:43-52 | what stays buffered is exactly the text after the last terminator, or all of it when it has none |
| EventStream.ScanLinesBuffer | src/sse_parser.cpp:26-52 | after scanning, the buffer is that remainder |
| EventStream.ScanLinesQueue | src/sse_parser.cpp:26-52 | scanning only appends deliverable events to the queue |
| EventStream.FeedResult | src/sse_parser.cpp:11-53 | after a feed the first-feed flag is clear, the buffer holds no terminator, and the queue has only grown at its back |
| EventStreamProps.FeedSplit | src/sse_parser.cpp:11-53 | feeding two chunks equals feeding their concatenation, unless the split separates '\r' from '\n' or cuts the byte order mark of the first feed |
| EventStreamProps.ChunkIndependence | src/sse_parser.cpp:11-53 | the same for any sequence of chunks whose splits are safe |
| EventStreamProps.EmptyFeed | src/sse_parser.cpp:14-15 | an empty feed only clears the first-feed flag |
| EventStreamProps.BomIgnored | src/sse_parser.cpp:14-22 | on the first feed a leading byte order mark is ignored |
| EventStreamProps.BomWhole | tests/cpp/test_sse_parser.cpp:88-99 | a first chunk of the byte order mark then a data event yields that event |
| EventStreamProps.BomApart | src/sse_parser.cpp:16-20 | a byte order mark split over the first two chunks is not stripped, and the event is lost |
| EventStreamProps.BomSplitDiffers | src/sse_parser.cpp:16-20 | the two cases above side by side: chunk independence fails for such a split |
| EventStreamProps.CrLfTogether | tests/cpp/test_sse_parser.cpp:72-78 | "data: x\r\n" in one chunk dispatches nothing yet |
| EventStreamProps.CrLfApart | src/sse_parser.cpp:32-35 | "data: x\r" then "\n" dispatches the event: the '\n' is a second, blank line |
| EventStreamProps.CrLfSplitDiffers | src/sse_parser.cpp:32-35 | the two cases above side by side: chunk independence fails between '\r' and '\n' |
| EventStreamProps.AnyTerminator | tests/cpp/test_sse_parser.cpp:72-86 | "\n", "\r\n" and "\r" each end lines: a data line and a blank line yield one event |
| EventStreamProps.FeedLines | src/sse_parser.cpp:24-52 | feeding complete lines then a tail processes the lines in order and buffers the tail |
| EventStreamProps.ClassifyField | src/sse_parser.cpp:65-77 | "name: value" and "name:value" both split into that name and value |
| EventStreamProps.DataAccumulates | src/sse_parser.cpp:81-83 | each data line appends its value and a newline to the data |
| EventStreamProps.DataBlock | src/sse_parser.cpp:81-83 | data lines then a blank line enqueue one event whose data is the values joined by newlines, or nothing when that is empty |
| EventStreamProps.FeedDataBlock | tests/cpp/test_sse_parser.cpp:109-122 | the same when the block of `data: v` lines is fed as text: two empty values give "\n", one gives no event |
| EventStreamProps.OneEmptyData | tests/cpp/test_sse_parser.cpp:109-114 | feeding "data:\n\n" between events enqueues nothing |
| EventStreamProps.TwoEmptyData | tests/cpp/test_sse_parser.cpp:116-122 | feeding "data:\ndata:\n\n" between events enqueues one "message" event whose data is "\n" |
| EventStreamProps.DispatchAssembled | src/sse_parser.cpp:102-119 | dispatching assembled data enqueues it without its final newline, with the default type and the last id |
| EventStreamProps.IdPersists | src/sse_parser.cpp:84-87 | lines without an id field keep the last id, and every event they dispatch carries it |
| EventStreamProps.IdLine | tests/cpp/test_sse_parser.cpp:173-183 | an id line sets the last id, unless its value holds a NUL, in which case nothing changes |
| EventStreamProps.EventLine | src/sse_parser.cpp:79-80 | an event line sets the type of the current event |
| EventStreamProps.RetryLine | tests/cpp/test_sse_parser.cpp:131-138 | a retry line sets the retry value when its value is all digits and otherwise changes nothing |
| EventStreamProps.UnknownFieldLine | tests/cpp/test_sse_parser.cpp:140-146 | a line with an unknown field name changes nothing |
| EventStreamProps.UnknownFieldBlock | tests/cpp/test_sse_parser.cpp:140-146 | an unknown field then a blank line enqueues nothing |
| EventStreamProps.FieldLine | src/sse_parser.cpp:65-99 | "name: value" is handled as that field |
| EventStreamProps.BlankLineAtRest | tests/cpp/test_sse_parser.cpp:155-161 | a blank line with nothing assembled changes nothing |
| EventStreamProps.FullEvent | tests/cpp/test_sse_parser.cpp:34-43 | id, event, data and retry lines then a blank line enqueue one event with all four |
| EventStreamProps.IdAcrossEvents | tests/cpp/test_sse_parser.cpp:192-201 | an id line before two events gives both of them that id |
| EventStreamProps.DroppedBlockKeepsId | src/sse_parser.cpp:84-87 | an id in a block with no data still applies to the next event |
| SseParser.FindLineEnd | src/sse_parser.cpp:31-41 | the scan finds the first terminator at or after the start, with skip 2 for "\r\n" and 1 otherwise, or reports none |
| SseParser.CheckDigits | src/sse_parser.cpp:89-95 | true exactly for a non-empty all-digit value |
| SseParser.SSEParser.constructor | src/sse_parser.cpp:5-6 | the new parser is in the initial state |
| SseParser.SSEParser.Feed | src/sse_parser.cpp:11-53 | the new state is `EventStream.Feed` of the old state and the chunk |
| SseParser.SSEParser.ScanBuffer | src/sse_parser.cpp:26-52 | the loop processes every complete line of the buffer and keeps the remainder |
| SseParser.SSEParser.ProcessLine | src/sse_parser.cpp:55-100 | the new state is `EventStream.ProcessLine` of the old one |
| SseParser.SSEParser.DispatchEvent | src/sse_parser.cpp:102-119 | the new state is `EventStream.Dispatch` of the old one |
| SseParser.SSEParser.TakeEvents | src/sse_parser.cpp:121-125 | returns the queue in order and leaves it empty, with all else unchanged |
| SseParser.SSEParser.HasEvents | src/sse_parser.cpp:127-129 | true exactly when the queue is non-empty |
| SseParser.SSEParser.Reset | src/sse_parser.cpp:131-137 | restores the initial state |
| Url.ParseUrl | src/sse_client.cpp:60-94 | refused exactly when the trimmed text starts with neither scheme; TLS exactly for https; the path starts with '/'; the host holds no '/' |
| Url.SplitPath | src/sse_client.cpp:75-83 | host:port and path split at the first '/', with path "/" when there is none |
| Url.SplitPort | src/sse_client.cpp:85-91 | the last ':' separates the host from a port read by `to_int`; without ':' the default port is kept |
| Url.SplitAuthority | src/sse_client.cpp:75-91 | keeps the TLS flag; the path starts with '/'; the host holds no '/' |
| Url.ParseFormat | src/sse_client.cpp:60-94 | parsing a formatted target gives that target back, and the URL is accepted |
| Url.SchemeSplit | src/sse_client.cpp:63-73 | the scheme sets TLS and the default port 443 or 80, then the rest is split |
| Url.DefaultPort | src/sse_client.cpp:63-70 | a URL without a port gets 443 for https and 80 for http |
| Url.TrimmedFirst | src/sse_client.cpp:61 | surrounding whitespace does not change the result |
| Connection.Cleanup | src/sse_client.cpp:141-147 | the transport is closed if held and released; the parser is reset; state, signals, last id, timers, settings and destination are unchanged |
| Connection.StartReconnect | src/sse_client.cpp:224-245 | it always cleans up; with auto-reconnect off it goes to DISCONNECTED with one `Disconnected` signal; at the cap, `Error("Max reconnect attempts reached")` then `Disconnected`; otherwise the count goes up by one, the wait timer is 0 and the state is RECONNECT_WAIT, so the count never passes a non-negative cap |
| Connection.ConnectToUrl | src/sse_client.cpp:96-128 | ALREADY_IN_USE with nothing changed unless disconnected; INVALID_PARAMETER on a refused URL with no transport call and nothing changed but the target, which takes the split URL when the scheme was known; otherwise it records the destination, count 0, timer 0 and a reset parser, connects to the parsed host and port, and is CONNECTING exactly when that succeeds; the last id is kept |
| Connection.Disconnect | src/sse_client.cpp:130-139 | no change when disconnected; otherwise cleanup, DISCONNECTED and exactly one `Disconnected` signal |
| Connection.IsConnected | src/sse_client.cpp:149-151 | true exactly when the state is not DISCONNECTED |
| Connection.RequestHeaders | src/sse_client.cpp:208-222 | Accept, then Cache-Control, then `Last-Event-ID:` with the id only when it is non-empty, then the custom headers in order |
| Connection.ErrorAndReconnect | src/sse_client.cpp:250-251 | the error is signalled first; the policy then yields RECONNECT_WAIT or DISCONNECTED; the transport is released |
| Connection.PollConnecting | src/sse_client.cpp:247-278 | READING_HEADERS exactly when within the timeout, connected and the request is sent; CONNECTING exactly when within the timeout and still resolving or connecting, and then only the timer has changed |
| Connection.SendRequest | src/sse_client.cpp:258-269 | sends the built request with GET or POST; on success the timer is 0 and the state is READING_HEADERS; on failure "Failed to send request" goes to the policy |
| Connection.PollReadingHeaders | src/sse_client.cpp:280-298 | STREAMING exactly when within the timeout with a 200 and an event-stream content type; waiting exactly while within the timeout with no response and the connection not lost, and then only the timer has changed |
| Connection.CheckResponse | src/sse_client.cpp:300-333 | STREAMING exactly on 200 with a content type that lower-cased starts with `content-type:` and contains `text/event-stream`, then count 0 and `Connected`; 204 signals `HTTP 204` then `Disconnected` whatever the policy; other failures signal their error and go to the policy |
| Connection.Receive | src/sse_client.cpp:346-357 | one event: a non-empty id becomes the last id; a retry value becomes the delay in seconds; the event is signalled; nothing else changes |
| Connection.Deliver | src/sse_client.cpp:346-357 | handing over events changes only the last id, the delay and the signal log |
| Connection.DeliverSignals | src/sse_client.cpp:353-356 | one signal per event, in queue order |
| Connection.DeliverLastId | src/sse_client.cpp:347-349 | the last id is that of the last event with a non-empty id, or the previous one |
| Connection.DeliverRetry | src/sse_client.cpp:350-352 | the delay is that of the last event with a retry value, divided by 1000, or the previous one |
| Connection.LastIdStep | src/sse_client.cpp:347-349 | one more event keeps the last-id relation |
| Connection.LastRetryStep | src/sse_client.cpp:350-352 | one more event keeps the delay relation |
| Connection.PollStreaming | src/sse_client.cpp:335-364 | a body chunk is fed and every parsed event is handed over in order; a lost connection signals "Server closed connection" and goes to the policy; otherwise nothing changes |
| Connection.PollReconnectWait | src/sse_client.cpp:366-371 | nothing but the wait timer changes until it reaches the delay; then CONNECTING exactly when the new connection succeeds |
| Connection.Reopen | src/sse_client.cpp:372-386 | connects to the stored host; on success a reset parser, timeout timer 0 and CONNECTING; on failure the transport is closed and "Reconnect failed" goes to the policy |
| Connection.Tick | src/sse_client.cpp:189-206 | a disconnected client does nothing in a frame |
| ConnectionProps.FreshInv | src/sse_client.cpp:8-20 | a new client keeps the invariant and is not connected |
| ConnectionProps.ConnectInv | src/sse_client.cpp:96-128 | connecting keeps the invariant: a transport is held exactly in the three connected states, and the parser is reset and empty outside streaming |
| ConnectionProps.DisconnectInv | src/sse_client.cpp:130-139 | disconnecting keeps the invariant |
| ConnectionProps.ConnectingInv | src/sse_client.cpp:247-278 | the CONNECTING handler keeps the invariant |
| ConnectionProps.ReadingHeadersInv | src/sse_client.cpp:280-333 | the READING_HEADERS handler keeps the invariant |
| ConnectionProps.StreamingInv | src/sse_client.cpp:335-364 | the STREAMING handler keeps the invariant: the parser's queue is emptied and its buffer holds no terminator |
| ConnectionProps.ReconnectWaitInv | src/sse_client.cpp:366-386 | the RECONNECT_WAIT handler keeps the invariant |
| ConnectionProps.TickInv | src/sse_client.cpp:189-206 | every frame keeps the invariant |
| ConnectionProps.RunInv | src/sse_client.cpp:189-206 | any sequence of frames keeps the invariant |
| ConnectionProps.DisconnectedStays | src/sse_client.cpp:189-206 | frames never move a disconnected client |
| ConnectionProps.TickCap | src/sse_client.cpp:234-242 | every frame keeps the attempt count within a non-negative cap |
| ConnectionProps.RunCap | src/sse_client.cpp:234-242 | any sequence of frames keeps the count within the cap |
| ConnectionProps.ConnectCap | src/sse_client.cpp:110 | connecting keeps the count within the cap |
| ConnectionProps.NoContentEnds | src/sse_client.cpp:301-312 | a 204 signals `HTTP 204` then `Disconnected`, closes the transport, and no later frame changes anything |
| ConnectionProps.TimeoutIsStrict | src/sse_client.cpp:248-253 | a timer equal to the connect timeout does not abandon the attempt |
| ConnectionProps.TimeoutAbandons | src/sse_client.cpp:248-253 | a timer past the connect timeout abandons the attempt with "Connection timeout" or "Response timeout" |
| ConnectionProps.StreamingIgnoresTime | src/sse_client.cpp:197-198 | while streaming, the elapsed time has no effect |
| ConnectionProps.TickKeeps | src/sse_client.cpp:189-206 | both logs only grow, the destination is kept, and outside streaming the last id and the settings are kept |
| ConnectionProps.ReconnectSendsLastId | src/sse_client.cpp:213-215 | a request sent with a held id carries `Last-Event-ID:` and that id as its third header |
| ConnectionProps.ConnectRecordsTarget | src/sse_client.cpp:96-128 | connecting to a formatted URL records that target and connects to its host, port and TLS setting |
| SseClient.HasEventStreamContentType | src/sse_client.cpp:315-323 | the scan finds a header exactly when some header is an event-stream content type |
| SseClient.SSEClient.constructor | src/sse_client.cpp:8-20 | the new client is `Connection.Fresh` |
| SseClient.SSEClient.ParseUrl | src/sse_client.cpp:60-94 | succeeds exactly on an accepted URL; writes the target whenever the scheme is known, and changes nothing otherwise |
| SseClient.SSEClient.ConnectToUrl | src/sse_client.cpp:96-128 | the new state and result are `Connection.ConnectToUrl` of the old state |
| SseClient.SSEClient.DisconnectFromServer | src/sse_client.cpp:130-139 | the new state is `Connection.Disconnect` of the old one |
| SseClient.SSEClient.CleanupConnection | src/sse_client.cpp:141-147 | the new state is `Connection.Cleanup` of the old one |
| SseClient.SSEClient.IsConnectedToServer | src/sse_client.cpp:149-151 | the answer is `Connection.IsConnected` |
| SseClient.SSEClient.BuildRequestHeaders | src/sse_client.cpp:208-222 | the loop builds `Connection.RequestHeaders` of the held id and custom headers |
| SseClient.SSEClient.StartReconnect | src/sse_client.cpp:224-245 | the new state is `Connection.StartReconnect` of the old one |
| SseClient.SSEClient.Process | src/sse_client.cpp:189-206 | the new state is `Connection.Tick` of the old one |
| SseClient.SSEClient.PollConnecting | src/sse_client.cpp:247-278 | the new state is `Connection.PollConnecting` of the old one |
| SseClient.SSEClient.SendRequest | src/sse_client.cpp:258-269 | the new state is `Connection.SendRequest` of the old one |
| SseClient.SSEClient.PollReadingHeaders | src/sse_client.cpp:280-333 | the new state is `Connection.PollReadingHeaders` of the old one |
| SseClient.SSEClient.CheckResponse | src/sse_client.cpp:300-333 | the new state is `Connection.CheckResponse` of the old one |
| SseClient.SSEClient.PollStreaming | src/sse_client.cpp:335-364 | the new state is `Connection.PollStreaming` of the old one |
| SseClient.SSEClient.DeliverEvents | src/sse_client.cpp:346-357 | the loop over the events computes `Connection.Deliver` |
| SseClient.SSEClient.PollReconnectWait | src/sse_client.cpp:366-386 | the new state is `Connection.PollReconnectWait` of the old one |
| SseClient.SSEClient.Reopen | src/sse_client.cpp:372-386 | the new state is `Connection.Reopen` of the old one |

## Left out

- Godot bindings: `_bind_methods`, property and signal registration, and `GDCLASS` are not modelled. Signals are entries of the signal log.
- `set_process` is not modelled. `Connection.Tick` on a DISCONNECTED client changes nothing, which matches a client whose processing is off.
- Setters and getters (src/sse_client.cpp:153-187) only assign or read fields. They are the plain fields of `Client.settings` and `Client.lastEventId`.
- The destructor and its clean-up are not modelled.
- HTTPClient and TLS are not modelled: no DNS, sockets, TLS or HTTP framing. Two things stand in for them:
  - the transport's answers: a `Reply` per frame, or a result parameter;
  - the calls it receives: connect, request and close in the call log.
  `poll`, `get_status` and `read_response_body_chunk` carry no logic of their own and are not logged.
- `String::utf8` conversions are the identity. Bytes and characters are both `char`, and the byte order mark is three characters.
- `to_lower` is ASCII only, and `strip_edges` removes characters up to code 32. `to_int` follows Godot's digit scan: a '-' before any digit flips the sign, other characters are skipped, and the scan stops at '.'.
- Text.ToInt: the value is an unbounded integer. Godot's `to_int` accumulates in 64 bits, and `parse_url` stores the port in a 32-bit `int` (src/sse_client.cpp:88), so a port beyond either range is not truncated here.
- EventStream.ProcessLine: the retry value is an unbounded natural number; the exception `std::stoi` throws above INT_MAX is not modelled.
- SseParser.SSEParser.ProcessLine: the same retry divergence as above.
- Connection.StartReconnect: the attempt count is an unbounded integer; 32-bit overflow of the count is not modelled (it is at most the cap whenever the cap is non-negative).
- Timers and the reconnection delay are `real`. IEEE rounding of the sums and of `retry_ms / 1000.0` is not modelled; the comparisons are kept exactly (`>` for the timeout, `<` for the wait).
- The class fields are grouped into records (request, timers, settings). This changes no behaviour.
- The mock server (tests/server/mock_sse_server.py) is I/O plumbing and is not part of this model. The unit tests are not modelled as a component; their scenarios are lemmas in `EventStreamProps`.
