/** The connection life cycle of the event-stream client, as a state machine
    over a value that holds every field the client keeps. The HTTP transport is
    not modelled: what it answers during a tick is a parameter, and what the
    client asks of it (connect, request, close) is appended to a call log. The
    signals the client emits are appended to a signal log. */
module Connection {
  import opened Text
  import opened EventStream
  import Url

  datatype State = Disconnected | Connecting | ReadingHeaders | Streaming | ReconnectWait

  /** The transport's status, in the order the engine numbers it. */
  datatype Status =
    | StatusDisconnected | StatusResolving | StatusCantResolve | StatusConnecting
    | StatusCantConnect | StatusConnected | StatusRequesting | StatusBody
    | StatusConnectionError | StatusTlsHandshakeError

  function StatusNumber(s: Status): (n: nat)
    ensures n < 10
  {
    match s
    case StatusDisconnected => 0
    case StatusResolving => 1
    case StatusCantResolve => 2
    case StatusConnecting => 3
    case StatusCantConnect => 4
    case StatusConnected => 5
    case StatusRequesting => 6
    case StatusBody => 7
    case StatusConnectionError => 8
    case StatusTlsHandshakeError => 9
  }

  /** Result codes: success, the two the client raises itself, and whatever
      other code the transport reports. */
  datatype Error = Ok | AlreadyInUse | InvalidParameter | TransportError(code: int)

  datatype Signal =
    | SseConnected
    | SseDisconnected
    | SseEventReceived(eventType: string, data: string, id: string)
    | SseError(message: string)

  datatype HttpMethod = Get | Post

  datatype TransportCall =
    | ConnectToHost(host: string, port: int, useTls: bool)
    | Request(verb: HttpMethod, path: string, headers: seq<string>, body: string)
    | Close

  /** What the transport answers during one tick; each state consults only
      its own part of it. */
  datatype Reply = Reply(
    status: Status,
    requestResult: Error,
    hasResponse: bool,
    responseCode: int,
    responseHeaders: seq<string>,
    chunk: string,
    connectResult: Error)

  /** The request the client sends: the application's extra header lines,
      the method text and the body. */
  datatype RequestParams = RequestParams(customHeaders: seq<string>, requestMethod: string, body: string)

  /** The reconnection state: attempts since the last success, the time spent
      waiting to reconnect and the time spent on the current attempt. */
  datatype Timers = Timers(reconnectCount: int, reconnectTimer: real, timeoutTimer: real)

  /** The properties the application sets; a stream can change the delay. */
  datatype Settings = Settings(autoReconnect: bool, reconnectTime: real, maxReconnectAttempts: int,
                               connectTimeout: real)

  /** Every field of the client, grouped as the client declares them. `open`
      says whether a transport is held. */
  datatype Client = Client(
    state: State,
    open: bool,
    parser: ParserState,
    url: string,
    target: Url.Target,
    request: RequestParams,
    lastEventId: string,
    timers: Timers,
    settings: Settings,
    signals: seq<Signal>,
    calls: seq<TransportCall>)

  /** A newly constructed client: disconnected, no transport, auto-reconnect on
      after 3 seconds, at most 5 attempts, a 10 second connect timeout. */
  const Fresh: Client := Client(
    Disconnected, false, Initial, "", Url.Target(false, 80, "", ""), RequestParams([], "", ""), "",
    Timers(0, 0.0, 0.0), Settings(true, 3.0, 5, 10.0), [], [])

  const TimeoutMessage: string := "Connection timeout"
  const RequestFailedMessage: string := "Failed to send request"
  const ResponseTimeoutMessage: string := "Response timeout"
  const LostMessage: string := "Connection lost before response"
  const ContentTypeMessage: string := "Invalid Content-Type"
  const ClosedMessage: string := "Server closed connection"
  const ReconnectFailedMessage: string := "Reconnect failed"
  const MaxAttemptsMessage: string := "Max reconnect attempts reached"
  const FailedStatusPrefix: string := "Connection failed: status "

  /** The invariant the life cycle keeps: a transport is held exactly in the
      three connected states, the parser holds something only while streaming,
      its queue is always handed over, and its buffer never holds a terminator. */
  predicate Inv(c: Client) {
    && (c.open <==> c.state == Connecting || c.state == ReadingHeaders || c.state == Streaming)
    && (c.state != Streaming ==> c.parser == Initial)
    && c.parser.pending == []
    && NoTerminator(c.parser.buffer)
    && c.timers.reconnectCount >= 0
  }

  /** What connect_to_url records about the stream to open. */
  function Destination(c: Client): (string, Url.Target, RequestParams) {
    (c.url, c.target, c.request)
  }

  function Emit(c: Client, s: Signal): (r: Client)
    ensures r.signals == c.signals + [s]
  {
    c.(signals := c.signals + [s])
  }

  function Call(c: Client, t: TransportCall): (r: Client)
    ensures r.calls == c.calls + [t]
  {
    c.(calls := c.calls + [t])
  }

  /** Closes and releases the transport if one is held, and resets the parser. */
  function Cleanup(c: Client): (r: Client)
    ensures !r.open && r.parser == Initial
    ensures r.calls == c.calls + (if c.open then [Close] else [])
    ensures r.state == c.state && r.signals == c.signals && r.lastEventId == c.lastEventId
    ensures r.timers == c.timers && r.settings == c.settings && Destination(r) == Destination(c)
  {
    var d := if c.open then Call(c, Close).(open := false) else c;
    d.(parser := Initial)
  }

  /** The reconnection policy: give up with auto-reconnect off, or with a
      non-negative cap the attempt count has reached; otherwise count one more
      attempt and wait. The transport is released either way. */
  function StartReconnect(c: Client): (r: Client)
    ensures !r.open && r.parser == Initial
    ensures r.calls == c.calls + (if c.open then [Close] else [])
    ensures r.state == ReconnectWait <==>
      c.settings.autoReconnect && (c.settings.maxReconnectAttempts < 0 || c.timers.reconnectCount < c.settings.maxReconnectAttempts)
    ensures r.state != ReconnectWait ==> r.state == Disconnected && r.timers.reconnectCount == c.timers.reconnectCount
    ensures !c.settings.autoReconnect ==> r.signals == c.signals + [SseDisconnected]
    ensures c.settings.autoReconnect && r.state == Disconnected ==>
      r.signals == c.signals + [SseError(MaxAttemptsMessage), SseDisconnected]
    ensures r.state == ReconnectWait ==>
      r.signals == c.signals && r.timers.reconnectCount == c.timers.reconnectCount + 1 && r.timers.reconnectTimer == 0.0
    ensures c.settings.maxReconnectAttempts >= 0 && r.state == ReconnectWait ==> r.timers.reconnectCount <= c.settings.maxReconnectAttempts
    ensures r.lastEventId == c.lastEventId && r.settings == c.settings && Destination(r) == Destination(c)
  {
    var d := Cleanup(c);
    if !d.settings.autoReconnect then
      Emit(d.(state := Disconnected), SseDisconnected)
    else if d.settings.maxReconnectAttempts >= 0 && d.timers.reconnectCount >= d.settings.maxReconnectAttempts then
      Emit(Emit(d.(state := Disconnected), SseError(MaxAttemptsMessage)), SseDisconnected)
    else
      d.(timers := d.timers.(reconnectCount := d.timers.reconnectCount + 1, reconnectTimer := 0.0), state := ReconnectWait)
  }

  /** Opening a stream: refused while a connection is under way, refused for a
      URL without a known scheme or host, otherwise the destination is recorded,
      the attempt count, timeout timer and parser start afresh and the transport
      starts connecting; its failure is returned with the client still
      disconnected. The last event id is kept. */
  function ConnectToUrl(c: Client, url: string, headers: seq<string>, requestMethod: string, body: string,
                        connectResult: Error): (r: (Client, Error))
    ensures c.state != Disconnected ==> r == (c, AlreadyInUse)
    ensures c.state == Disconnected && !Url.Accepted(url) ==>
      r.1 == InvalidParameter && r.0.state == Disconnected && r.0.calls == c.calls && r.0.parser == c.parser
    ensures c.state == Disconnected && !Url.Accepted(url) ==>
      && r.0 == c.(target := r.0.target)
      && (Url.ParseUrl(url).SchemeRejected? ==> r.0.target == c.target)
      && (Url.ParseUrl(url).Split? ==> r.0.target == Url.ParseUrl(url).target)
    ensures r.1 == Ok <==> c.state == Disconnected && Url.Accepted(url) && connectResult == Ok
    ensures c.state == Disconnected && Url.Accepted(url) ==>
      && r.1 == connectResult
      && r.0.state == (if connectResult == Ok then Connecting else Disconnected)
      && r.0.open == (connectResult == Ok)
      && Destination(r.0) == (url, Url.ParseUrl(url).target, RequestParams(headers, requestMethod, body))
      && r.0.timers.reconnectCount == 0 && r.0.timers.timeoutTimer == 0.0 && r.0.parser == Initial
      && r.0.calls == c.calls + [ConnectToHost(r.0.target.host, r.0.target.port, r.0.target.useTls)]
    ensures r.0.signals == c.signals && r.0.lastEventId == c.lastEventId && r.0.settings == c.settings
  {
    if c.state != Disconnected then (c, AlreadyInUse)
    else
      match Url.ParseUrl(url)
      case SchemeRejected => (c, InvalidParameter)
      case Split(t) =>
        var d := c.(target := t);
        if t.host == [] then (d, InvalidParameter)
        else Start(d, url, headers, requestMethod, body, connectResult)
  }

  /** Once the URL is accepted: the URL and the request are stored, the
      attempt and timeout counts and the parser start afresh, and the
      transport is asked to connect to the target. */
  function Start(c: Client, url: string, headers: seq<string>, requestMethod: string, body: string,
                 connectResult: Error): (Client, Error)
  {
    var e := c.(url := url, request := RequestParams(headers, requestMethod, body),
                timers := c.timers.(reconnectCount := 0, timeoutTimer := 0.0), parser := Initial);
    var f := Call(e, ConnectToHost(c.target.host, c.target.port, c.target.useTls));
    if connectResult != Ok then (f.(open := false), connectResult)
    else (f.(open := true, state := Connecting), Ok)
  }

  /** Closing on the application's request: nothing happens when already
      disconnected; otherwise the transport is released and exactly one
      disconnected signal is emitted. */
  function Disconnect(c: Client): (r: Client)
    ensures c.state == Disconnected ==> r == c
    ensures c.state != Disconnected ==>
      && r.state == Disconnected && !r.open && r.parser == Initial
      && r.signals == c.signals + [SseDisconnected]
      && r.calls == c.calls + (if c.open then [Close] else [])
    ensures r.lastEventId == c.lastEventId && r.settings == c.settings
  {
    if c.state == Disconnected then c
    else Emit(Cleanup(c).(state := Disconnected), SseDisconnected)
  }

  function IsConnected(c: Client): (b: bool)
    ensures b <==> c.state != Disconnected
  {
    c.state != Disconnected
  }

  const AcceptHeader: string := "Accept: text/event-stream"
  const CacheHeader: string := "Cache-Control: no-cache"
  const LastEventIdPrefix: string := "Last-Event-ID: "

  /** The request headers: the stream type, no caching, the last event id when
      one is held, then the application's own headers in their order. */
  function RequestHeaders(lastEventId: string, custom: seq<string>): (r: seq<string>)
    ensures |r| == 2 + (if lastEventId == [] then 0 else 1) + |custom|
    ensures r[0] == AcceptHeader && r[1] == CacheHeader
    ensures r[|r| - |custom|..] == custom
    ensures lastEventId != [] ==> r[2] == LastEventIdPrefix + lastEventId
  {
    [AcceptHeader, CacheHeader] + (if lastEventId == [] then [] else [LastEventIdPrefix + lastEventId]) + custom
  }

  const ContentTypePrefix: string := "content-type:"
  const EventStreamType: string := "text/event-stream"

  /** A response header line announcing an event stream, compared without
      regard to ASCII case. */
  predicate IsEventStreamContentType(line: string) {
    var h := ToLower(line);
    StartsWith(h, ContentTypePrefix) && Contains(h, EventStreamType)
  }

  predicate ValidContentType(headers: seq<string>) {
    exists i :: 0 <= i < |headers| && IsEventStreamContentType(headers[i])
  }

  /** What every handler keeps: the last event id, the settings and the
      destination are untouched, and both logs only grow at their end. */
  predicate Keeps(c: Client, r: Client) {
    && r.lastEventId == c.lastEventId && r.settings == c.settings && Destination(r) == Destination(c)
    && c.signals <= r.signals && c.calls <= r.calls
  }

  /** A failure is reported first, then the reconnection policy decides. */
  function ErrorAndReconnect(c: Client, message: string): (r: Client)
    ensures r.state == ReconnectWait <==>
      c.settings.autoReconnect && (c.settings.maxReconnectAttempts < 0 || c.timers.reconnectCount < c.settings.maxReconnectAttempts)
    ensures r.state == ReconnectWait || r.state == Disconnected
    ensures !r.open && r.parser == Initial && r.calls == c.calls + (if c.open then [Close] else [])
    ensures |r.signals| > |c.signals| && r.signals[|c.signals|] == SseError(message)
    ensures Keeps(c, r)
  {
    StartReconnect(Emit(c, SseError(message)))
  }

  /** The request a connected transport is sent: POST only for the method
      text "POST", the stored path and body, and the built headers. */
  function RequestFor(c: Client): TransportCall {
    Request(if c.request.requestMethod == "POST" then Post else Get, c.target.path,
            RequestHeaders(c.lastEventId, c.request.customHeaders), c.request.body)
  }

  /** CONNECTING: the timeout timer runs; only once it exceeds the connect
      timeout is the attempt abandoned. When the transport is connected the
      request is sent; resolving and connecting just wait; any other status
      abandons the attempt. */
  function PollConnecting(c: Client, delta: real, status: Status, requestResult: Error): (r: Client)
    requires c.state == Connecting
    ensures r.state == ReadingHeaders <==>
      c.timers.timeoutTimer + delta <= c.settings.connectTimeout && status == StatusConnected && requestResult == Ok
    ensures r.state == Connecting <==>
      c.timers.timeoutTimer + delta <= c.settings.connectTimeout && (status == StatusConnecting || status == StatusResolving)
    ensures r.state == Connecting ==> r == c.(timers := c.timers.(timeoutTimer := c.timers.timeoutTimer + delta))
    ensures Keeps(c, r)
  {
    var d := CountTimeout(c, delta);
    if d.timers.timeoutTimer > c.settings.connectTimeout then ErrorAndReconnect(d, TimeoutMessage)
    else FollowStatus(d, status, requestResult)
  }

  /** The time of a frame added to the timeout timer. */
  function CountTimeout(c: Client, delta: real): Client {
    c.(timers := c.timers.(timeoutTimer := c.timers.timeoutTimer + delta))
  }

  /** The report of a transport status that abandons an attempt. */
  function StatusMessage(status: Status): string {
    FailedStatusPrefix + IntToString(StatusNumber(status))
  }

  /** Within the timeout the transport's status decides: connected sends the
      request, resolving or connecting waits, anything else is a failure. */
  function FollowStatus(c: Client, status: Status, requestResult: Error): Client
    requires c.state == Connecting
  {
    if status == StatusConnected then SendRequest(c, requestResult)
    else if status == StatusConnecting || status == StatusResolving then c
    else ErrorAndReconnect(c, StatusMessage(status))
  }

  /** The connected transport is sent the request; if it is accepted the
      response headers are awaited with the timeout timer back at 0. */
  function SendRequest(c: Client, requestResult: Error): (r: Client)
    requires c.state == Connecting
    ensures |r.calls| > |c.calls| && r.calls[|c.calls|] == RequestFor(c)
    ensures r.state == ReadingHeaders <==> requestResult == Ok
    ensures r.state == ReadingHeaders ==>
      r.timers.timeoutTimer == 0.0 && r.signals == c.signals && r.calls == c.calls + [RequestFor(c)]
    ensures requestResult != Ok ==>
      && (r.state == ReconnectWait || r.state == Disconnected)
      && |r.signals| > |c.signals| && r.signals[|c.signals|] == SseError(RequestFailedMessage)
    ensures Keeps(c, r)
  {
    var d := Call(c, RequestFor(c));
    if requestResult != Ok then ErrorAndReconnect(d, RequestFailedMessage)
    else AwaitHeaders(d)
  }

  /** The request is out: the response is awaited with the timeout timer at 0. */
  function AwaitHeaders(c: Client): Client {
    c.(timers := c.timers.(timeoutTimer := 0.0), state := ReadingHeaders)
  }

  /** READING_HEADERS: the same strict timeout; while no response has come a
      lost connection abandons the attempt and anything else waits; a response
      is then judged. */
  function PollReadingHeaders(c: Client, delta: real, status: Status, hasResponse: bool,
                              code: int, headers: seq<string>): (r: Client)
    requires c.state == ReadingHeaders
    ensures r.state == Streaming <==>
      c.timers.timeoutTimer + delta <= c.settings.connectTimeout && hasResponse && code == 200 && ValidContentType(headers)
    ensures r.state == ReadingHeaders <==>
      && c.timers.timeoutTimer + delta <= c.settings.connectTimeout && !hasResponse
      && status != StatusConnectionError && status != StatusDisconnected
    ensures r.state == ReadingHeaders ==> r == c.(timers := c.timers.(timeoutTimer := c.timers.timeoutTimer + delta))
    ensures Keeps(c, r)
  {
    var d := CountTimeout(c, delta);
    if d.timers.timeoutTimer > c.settings.connectTimeout then ErrorAndReconnect(d, ResponseTimeoutMessage)
    else if !hasResponse then
      if status == StatusConnectionError || status == StatusDisconnected then ErrorAndReconnect(d, LostMessage)
      else d
    else CheckResponse(d, code, headers)
  }

  function HttpMessage(code: int): string {
    "HTTP " + IntToString(code)
  }

  /** Judging a response: a code other than 200 is reported, and 204 ends the
      stream for good whatever the policy says while any other code goes to
      the policy; a 200 without an event-stream content type goes to the
      policy too; otherwise streaming starts with the attempt count at 0. */
  function CheckResponse(c: Client, code: int, headers: seq<string>): (r: Client)
    requires c.state == ReadingHeaders
    ensures r.state == Streaming <==> code == 200 && ValidContentType(headers)
    ensures r.state == Streaming ==> r.timers.reconnectCount == 0 && r.signals == c.signals + [SseConnected] && r.calls == c.calls
    ensures code == 204 ==>
      && r.state == Disconnected && !r.open && r.parser == Initial
      && r.signals == c.signals + [SseError(HttpMessage(code)), SseDisconnected]
    ensures r.state != Streaming ==>
      && (r.state == ReconnectWait || r.state == Disconnected)
      && |r.signals| > |c.signals|
      && r.signals[|c.signals|] == SseError(if code != 200 then HttpMessage(code) else ContentTypeMessage)
    ensures code != 204 && r.state != Streaming ==>
      (r.state == ReconnectWait <==>
       c.settings.autoReconnect && (c.settings.maxReconnectAttempts < 0 || c.timers.reconnectCount < c.settings.maxReconnectAttempts))
    ensures Keeps(c, r)
  {
    if code != 200 then
      var e := Emit(c, SseError(HttpMessage(code)));
      if code == 204 then Emit(Cleanup(e).(state := Disconnected), SseDisconnected)
      else StartReconnect(e)
    else if !ValidContentType(headers) then ErrorAndReconnect(c, ContentTypeMessage)
    else Emit(c.(timers := c.timers.(reconnectCount := 0), state := Streaming), SseConnected)
  }

  /** The signal that hands one event to the application. */
  function Announce(e: Event): Signal {
    SseEventReceived(e.eventType, e.data, e.id)
  }

  function Announced(events: seq<Event>): seq<Signal> {
    seq(|events|, i requires 0 <= i < |events| => Announce(events[i]))
  }

  /** id is the id of the last event that carries a non-empty one, or the
      previous id when none does. */
  predicate LastIdIs(previous: string, events: seq<Event>, id: string) {
    || (id == previous && forall i :: 0 <= i < |events| ==> events[i].id == [])
    || exists i :: 0 <= i < |events| && events[i].id == id && id != [] &&
         forall j :: i < j < |events| ==> events[j].id == []
  }

  /** time is the retry value, in seconds, of the last event that carries
      one, or the previous delay when none does. */
  predicate LastRetryIs(previous: real, events: seq<Event>, time: real) {
    || (time == previous && forall i :: 0 <= i < |events| ==> events[i].retryMs < 0)
    || exists i :: 0 <= i < |events| && events[i].retryMs >= 0 && time == events[i].retryMs as real / 1000.0 &&
         forall j :: i < j < |events| ==> events[j].retryMs < 0
  }

  /** One parsed event reaches the application: a non-empty id becomes the id
      the next connection sends, a retry value becomes the reconnection delay
      in seconds, and the event is signalled. */
  function Receive(c: Client, e: Event): (r: Client)
    ensures r == c.(lastEventId := r.lastEventId, settings := c.settings.(reconnectTime := r.settings.reconnectTime),
                    signals := r.signals)
    ensures r.signals == c.signals + [Announce(e)]
    ensures r.lastEventId == (if e.id != [] then e.id else c.lastEventId)
    ensures r.settings.reconnectTime == (if e.retryMs >= 0 then e.retryMs as real / 1000.0 else c.settings.reconnectTime)
  {
    var d := if e.id != [] then c.(lastEventId := e.id) else c;
    var f := if e.retryMs >= 0 then d.(settings := d.settings.(reconnectTime := e.retryMs as real / 1000.0)) else d;
    Emit(f, Announce(e))
  }

  /** The events of one chunk reach the application in order. */
  function Deliver(c: Client, events: seq<Event>): (r: Client)
    ensures r == c.(lastEventId := r.lastEventId, settings := c.settings.(reconnectTime := r.settings.reconnectTime),
                    signals := r.signals)
    decreases |events|
  {
    if events == [] then c else Receive(Deliver(c, events[..|events| - 1]), events[|events| - 1])
  }

  /** Delivering signals every event, in order. */
  lemma {:induction false} DeliverSignals(c: Client, events: seq<Event>)
    ensures Deliver(c, events).signals == c.signals + Announced(events)
    decreases |events|
  {
    if events == [] {
      assert Announced(events) == [];
    } else {
      var n := |events| - 1;
      var front := events[..n];
      DeliverSignals(c, front);
      assert Deliver(c, events).signals == Deliver(c, front).signals + [Announce(events[n])];
      assert Announced(events) == Announced(front) + [Announce(events[n])];
    }
  }

  /** Delivering leaves the id of the last event that has one. */
  lemma {:induction false} DeliverLastId(c: Client, events: seq<Event>)
    ensures LastIdIs(c.lastEventId, events, Deliver(c, events).lastEventId)
    decreases |events|
  {
    if events != [] {
      var n := |events| - 1;
      var front := events[..n];
      var d := Deliver(c, front);
      DeliverLastId(c, front);
      assert Deliver(c, events).lastEventId == (if events[n].id != [] then events[n].id else d.lastEventId);
      assert events == front + [events[n]];
      LastIdStep(c.lastEventId, front, events[n], d.lastEventId);
    }
  }

  /** Delivering leaves the delay of the last event that sets one. */
  lemma {:induction false} DeliverRetry(c: Client, events: seq<Event>)
    ensures LastRetryIs(c.settings.reconnectTime, events, Deliver(c, events).settings.reconnectTime)
    decreases |events|
  {
    if events != [] {
      var n := |events| - 1;
      var front := events[..n];
      var d := Deliver(c, front);
      DeliverRetry(c, front);
      assert Deliver(c, events).settings.reconnectTime ==
        (if events[n].retryMs >= 0 then events[n].retryMs as real / 1000.0 else d.settings.reconnectTime);
      assert events == front + [events[n]];
      LastRetryStep(c.settings.reconnectTime, front, events[n], d.settings.reconnectTime);
    }
  }

  lemma LastIdStep(previous: string, front: seq<Event>, e: Event, id: string)
    requires LastIdIs(previous, front, id)
    ensures LastIdIs(previous, front + [e], if e.id != [] then e.id else id)
  {
    var events := front + [e];
    if e.id != [] {
      assert events[|front|] == e;
    } else if id == previous && forall i :: 0 <= i < |front| ==> front[i].id == [] {
      assert forall i :: 0 <= i < |events| ==> events[i].id == [] by {
        forall i | 0 <= i < |events|
          ensures events[i].id == []
        {
          if i < |front| {
            assert events[i] == front[i];
          }
        }
      }
    } else {
      var i :| 0 <= i < |front| && front[i].id == id && id != [] &&
        forall j :: i < j < |front| ==> front[j].id == [];
      assert events[i] == front[i];
      assert forall j :: i < j < |events| ==> events[j].id == [] by {
        forall j | i < j < |events|
          ensures events[j].id == []
        {
          if j < |front| {
            assert events[j] == front[j];
          }
        }
      }
    }
  }

  lemma LastRetryStep(previous: real, front: seq<Event>, e: Event, time: real)
    requires LastRetryIs(previous, front, time)
    ensures LastRetryIs(previous, front + [e], if e.retryMs >= 0 then e.retryMs as real / 1000.0 else time)
  {
    var events := front + [e];
    if e.retryMs >= 0 {
      assert events[|front|] == e;
    } else if time == previous && forall i :: 0 <= i < |front| ==> front[i].retryMs < 0 {
      assert forall i :: 0 <= i < |events| ==> events[i].retryMs < 0 by {
        forall i | 0 <= i < |events|
          ensures events[i].retryMs < 0
        {
          if i < |front| {
            assert events[i] == front[i];
          }
        }
      }
    } else {
      var i :| 0 <= i < |front| && front[i].retryMs >= 0 && time == front[i].retryMs as real / 1000.0 &&
        forall j :: i < j < |front| ==> front[j].retryMs < 0;
      assert events[i] == front[i];
      assert forall j :: i < j < |events| ==> events[j].retryMs < 0 by {
        forall j | i < j < |events|
          ensures events[j].retryMs < 0
        {
          if j < |front| {
            assert events[j] == front[j];
          }
        }
      }
    }
  }

  /** STREAMING: a non-empty chunk is fed to the parser and every event it
      completes is delivered; a closed or failed connection is reported and
      goes to the policy; anything else waits. No timeout applies here. */
  function PollStreaming(c: Client, status: Status, chunk: string): (r: Client)
    requires c.state == Streaming
    ensures r.state == Streaming <==> status != StatusDisconnected && status != StatusConnectionError
    ensures status == StatusBody && chunk != [] ==>
      var p := Feed(c.parser, chunk);
      && r == c.(parser := p.(pending := []), lastEventId := r.lastEventId,
                 settings := c.settings.(reconnectTime := r.settings.reconnectTime), signals := r.signals)
      && r.signals == c.signals + Announced(p.pending)
      && LastIdIs(c.lastEventId, p.pending, r.lastEventId)
      && LastRetryIs(c.settings.reconnectTime, p.pending, r.settings.reconnectTime)
    ensures status == StatusDisconnected || status == StatusConnectionError ==>
      && (r.state == ReconnectWait || r.state == Disconnected) && !r.open
      && |r.signals| > |c.signals| && r.signals[|c.signals|] == SseError(ClosedMessage)
    ensures !(status == StatusBody && chunk != []) && status != StatusDisconnected && status != StatusConnectionError ==>
      r == c
    ensures c.signals <= r.signals && c.calls <= r.calls && Destination(r) == Destination(c)
  {
    if status == StatusBody then
      if chunk == [] then c
      else
        var p := Feed(c.parser, chunk);
        var d := c.(parser := p.(pending := []));
        DeliverSignals(d, p.pending);
        DeliverLastId(d, p.pending);
        DeliverRetry(d, p.pending);
        Deliver(d, p.pending)
    else if status == StatusDisconnected || status == StatusConnectionError then
      ErrorAndReconnect(c, ClosedMessage)
    else c
  }

  /** RECONNECT_WAIT: the wait timer runs until it reaches the reconnection
      delay; then the transport connects again. */
  function PollReconnectWait(c: Client, delta: real, connectResult: Error): (r: Client)
    requires c.state == ReconnectWait
    ensures c.timers.reconnectTimer + delta < c.settings.reconnectTime ==> r == c.(timers := c.timers.(reconnectTimer := c.timers.reconnectTimer + delta))
    ensures r.state == Connecting <==> c.timers.reconnectTimer + delta >= c.settings.reconnectTime && connectResult == Ok
    ensures r.state == ReconnectWait || r.state == Connecting || r.state == Disconnected
    ensures Keeps(c, r)
  {
    var d := CountWait(c, delta);
    if d.timers.reconnectTimer < c.settings.reconnectTime then d else Reopen(d, connectResult)
  }

  /** The time of a frame added to the reconnect timer. */
  function CountWait(c: Client, delta: real): Client {
    c.(timers := c.timers.(reconnectTimer := c.timers.reconnectTimer + delta))
  }

  /** A new transport connects to the stored host: on success with a fresh
      parser and the timeout timer at 0; on failure it is closed again, the
      failure is reported and the policy decides. */
  function Reopen(c: Client, connectResult: Error): (r: Client)
    ensures var connect := ConnectToHost(c.target.host, c.target.port, c.target.useTls);
      |r.calls| > |c.calls| && r.calls[|c.calls|] == connect
    ensures r.state == Connecting <==> connectResult == Ok
    ensures r.state == Connecting ==>
      && r.open && r.parser == Initial && r.timers.timeoutTimer == 0.0 && r.signals == c.signals
      && r.calls == c.calls + [ConnectToHost(c.target.host, c.target.port, c.target.useTls)]
    ensures connectResult != Ok ==>
      && (r.state == ReconnectWait || r.state == Disconnected) && !r.open
      && r.calls == c.calls + [ConnectToHost(c.target.host, c.target.port, c.target.useTls), Close]
      && |r.signals| > |c.signals| && r.signals[|c.signals|] == SseError(ReconnectFailedMessage)
    ensures Keeps(c, r)
  {
    var e := Dial(c);
    if connectResult != Ok then ErrorAndReconnect(e, ReconnectFailedMessage)
    else Resume(e)
  }

  /** A new transport is asked to connect to the stored target. */
  function Dial(c: Client): Client {
    Call(c, ConnectToHost(c.target.host, c.target.port, c.target.useTls)).(open := true)
  }

  /** The new connection is pending: a fresh parser, the timeout timer at 0. */
  function Resume(c: Client): Client {
    c.(parser := Initial, timers := c.timers.(timeoutTimer := 0.0), state := Connecting)
  }

  /** One frame: the handler of the current state runs; a disconnected client
      does nothing. */
  function Tick(c: Client, delta: real, reply: Reply): (r: Client)
    ensures c.state == Disconnected ==> r == c
  {
    match c.state
    case Connecting => PollConnecting(c, delta, reply.status, reply.requestResult)
    case ReadingHeaders =>
      PollReadingHeaders(c, delta, reply.status, reply.hasResponse, reply.responseCode, reply.responseHeaders)
    case Streaming => PollStreaming(c, reply.status, reply.chunk)
    case ReconnectWait => PollReconnectWait(c, delta, reply.connectResult)
    case Disconnected => c
  }
}
