/** The event-stream client as an object: its fields are updated in place by
    every operation, and each operation is proved to compute the function of
    the same name in Connection, where the properties are stated. The transport
    is represented by what it answers (parameters) and the calls it receives
    (the call log); signals go to the signal log. */
module SseClient {
  import opened Text
  import opened EventStream
  import Url
  import opened Connection
  import SseParser

  /** Scans the response header lines for an event-stream content type,
      stopping at the first one found. */
  method HasEventStreamContentType(headers: seq<string>) returns (valid: bool)
    ensures valid <==> ValidContentType(headers)
  {
    valid := false;
    for i := 0 to |headers|
      invariant !valid
      invariant forall k :: 0 <= k < i ==> !IsEventStreamContentType(headers[k])
    {
      var h := ToLower(headers[i]);
      if StartsWith(h, ContentTypePrefix) && Contains(h, EventStreamType) {
        valid := true;
        return;
      }
    }
  }

  class SSEClient {
    var state: State
    var open: bool
    const parser: SseParser.SSEParser
    var url: string
    var target: Url.Target
    var request: RequestParams
    var lastEventId: string
    var timers: Timers
    var settings: Settings
    var signals: seq<Signal>
    var calls: seq<TransportCall>

    /** The value of every field, the parser's included. */
    function Model(): Client
      reads this, parser
    {
      Client(state, open, parser.State(), url, target, request, lastEventId, timers, settings, signals, calls)
    }

    constructor()
      ensures Model() == Fresh
    {
      state := Disconnected;
      open := false;
      parser := new SseParser.SSEParser();
      url := "";
      target := Url.Target(false, 80, "", "");
      request := RequestParams([], "", "");
      lastEventId := "";
      timers := Timers(0, 0.0, 0.0);
      settings := Settings(true, 3.0, 5, 10.0);
      signals, calls := [], [];
    }

    /** Splits the URL into the target fields; they are written even when the
        host turns out empty, but not when the scheme is unknown. */
    method ParseUrl(text: string) returns (ok: bool)
      modifies this
      ensures ok <==> Url.Accepted(text)
      ensures Url.ParseUrl(text).SchemeRejected? ==> Model() == old(Model())
      ensures Url.ParseUrl(text).Split? ==> Model() == old(Model()).(target := Url.ParseUrl(text).target)
    {
      match Url.ParseUrl(text)
      case SchemeRejected =>
        return false;
      case Split(t) =>
        target := t;
        ok := t.host != [];
    }

    method ConnectToUrl(text: string, headers: seq<string>, verb: string, content: string, connectResult: Error)
      returns (err: Error)
      modifies this, parser
      ensures (Model(), err) == Connection.ConnectToUrl(old(Model()), text, headers, verb, content, connectResult)
    {
      ghost var m := Model();
      if state != Disconnected {
        return AlreadyInUse;
      }
      var ok := ParseUrl(text);
      if !ok {
        return InvalidParameter;
      }
      err := Start(text, headers, verb, content, connectResult);
    }

    method Start(text: string, headers: seq<string>, verb: string, content: string, connectResult: Error)
      returns (err: Error)
      modifies this, parser
      ensures (Model(), err) == Connection.Start(old(Model()), text, headers, verb, content, connectResult)
    {
      Record(text, headers, verb, content);
      open := true;
      calls := calls + [ConnectToHost(target.host, target.port, target.useTls)];
      if connectResult != Ok {
        open := false;
        return connectResult;
      }
      state := Connecting;
      return Ok;
    }

    /** What connect_to_url stores before opening the transport: the URL, the
        request, fresh attempt and timeout counts and a fresh parser. */
    method Record(text: string, headers: seq<string>, verb: string, content: string)
      modifies this, parser
      ensures Model() == old(Model()).(url := text, request := RequestParams(headers, verb, content),
                                       timers := old(timers).(reconnectCount := 0, timeoutTimer := 0.0),
                                       parser := Initial)
    {
      url := text;
      request := RequestParams(headers, verb, content);
      timers := timers.(reconnectCount := 0, timeoutTimer := 0.0);
      parser.Reset();
    }

    method DisconnectFromServer()
      modifies this, parser
      ensures Model() == Disconnect(old(Model()))
    {
      if state == Disconnected {
        return;
      }
      CleanupConnection();
      state := Disconnected;
      signals := signals + [SseDisconnected];
    }

    method CleanupConnection()
      modifies this, parser
      ensures Model() == Cleanup(old(Model()))
    {
      if open {
        calls := calls + [Close];
        open := false;
      }
      parser.Reset();
    }

    method IsConnectedToServer() returns (b: bool)
      ensures b == IsConnected(Model())
    {
      b := state != Disconnected;
    }

    /** The request headers, built one line at a time. */
    method BuildRequestHeaders() returns (headers: seq<string>)
      ensures headers == RequestHeaders(lastEventId, request.customHeaders)
    {
      headers := [AcceptHeader, CacheHeader];
      if lastEventId != [] {
        headers := headers + [LastEventIdPrefix + lastEventId];
      }
      ghost var fixed := headers;
      var custom := request.customHeaders;
      for i := 0 to |custom|
        invariant headers == fixed + custom[..i]
      {
        headers := headers + [custom[i]];
        assert custom[..i + 1] == custom[..i] + [custom[i]];
      }
      assert custom[..|custom|] == custom;
    }

    method StartReconnect()
      modifies this, parser
      ensures Model() == Connection.StartReconnect(old(Model()))
    {
      CleanupConnection();
      if !settings.autoReconnect {
        state := Disconnected;
        signals := signals + [SseDisconnected];
        return;
      }
      if settings.maxReconnectAttempts >= 0 && timers.reconnectCount >= settings.maxReconnectAttempts {
        state := Disconnected;
        signals := signals + [SseError(MaxAttemptsMessage)];
        signals := signals + [SseDisconnected];
        return;
      }
      timers := timers.(reconnectCount := timers.reconnectCount + 1, reconnectTimer := 0.0);
      state := ReconnectWait;
    }

    method ErrorAndReconnect(message: string)
      modifies this, parser
      ensures Model() == Connection.ErrorAndReconnect(old(Model()), message)
    {
      signals := signals + [SseError(message)];
      StartReconnect();
    }

    /** One frame: the handler of the current state runs. */
    method Process(delta: real, reply: Reply)
      modifies this, parser
      ensures Model() == Tick(old(Model()), delta, reply)
    {
      match state
      case Connecting => PollConnecting(delta, reply.status, reply.requestResult);
      case ReadingHeaders =>
        PollReadingHeaders(delta, reply.status, reply.hasResponse, reply.responseCode, reply.responseHeaders);
      case Streaming => PollStreaming(reply.status, reply.chunk);
      case ReconnectWait => PollReconnectWait(delta, reply.connectResult);
      case Disconnected =>
    }

    method PollConnecting(delta: real, status: Status, requestResult: Error)
      requires state == Connecting
      modifies this, parser
      ensures Model() == Connection.PollConnecting(old(Model()), delta, status, requestResult)
    {
      CountTimeout(delta);
      if timers.timeoutTimer > settings.connectTimeout {
        ErrorAndReconnect(TimeoutMessage);
      } else {
        FollowStatus(status, requestResult);
      }
    }

    method CountTimeout(delta: real)
      modifies this
      ensures Model() == Connection.CountTimeout(old(Model()), delta)
    {
      timers := timers.(timeoutTimer := timers.timeoutTimer + delta);
    }

    method FollowStatus(status: Status, requestResult: Error)
      requires state == Connecting
      modifies this, parser
      ensures Model() == Connection.FollowStatus(old(Model()), status, requestResult)
    {
      if status == StatusConnected {
        SendRequest(requestResult);
      } else if status == StatusConnecting || status == StatusResolving {
        return;
      } else {
        ErrorAndReconnect(StatusMessage(status));
      }
    }

    method SendRequest(requestResult: Error)
      requires state == Connecting
      modifies this, parser
      ensures Model() == Connection.SendRequest(old(Model()), requestResult)
    {
      var headers := BuildRequestHeaders();
      var verb := if request.requestMethod == "POST" then Post else Get;
      calls := calls + [Request(verb, target.path, headers, request.body)];
      if requestResult != Ok {
        ErrorAndReconnect(RequestFailedMessage);
        return;
      }
      AwaitHeaders();
    }

    method AwaitHeaders()
      modifies this
      ensures Model() == Connection.AwaitHeaders(old(Model()))
    {
      timers := timers.(timeoutTimer := 0.0);
      state := ReadingHeaders;
    }

    method PollReadingHeaders(delta: real, status: Status, hasResponse: bool, code: int, headers: seq<string>)
      requires state == ReadingHeaders
      modifies this, parser
      ensures Model() == Connection.PollReadingHeaders(old(Model()), delta, status, hasResponse, code, headers)
    {
      CountTimeout(delta);
      if timers.timeoutTimer > settings.connectTimeout {
        ErrorAndReconnect(ResponseTimeoutMessage);
        return;
      }
      if !hasResponse {
        if status == StatusConnectionError || status == StatusDisconnected {
          ErrorAndReconnect(LostMessage);
        }
        return;
      }
      CheckResponse(code, headers);
    }

    method CheckResponse(code: int, headers: seq<string>)
      requires state == ReadingHeaders
      modifies this, parser
      ensures Model() == Connection.CheckResponse(old(Model()), code, headers)
    {
      if code != 200 {
        signals := signals + [SseError(HttpMessage(code))];
        if code == 204 {
          CleanupConnection();
          state := Disconnected;
          signals := signals + [SseDisconnected];
        } else {
          StartReconnect();
        }
        return;
      }
      var valid := HasEventStreamContentType(headers);
      if !valid {
        ErrorAndReconnect(ContentTypeMessage);
        return;
      }
      timers := timers.(reconnectCount := 0);
      state := Streaming;
      signals := signals + [SseConnected];
    }

    method PollStreaming(status: Status, chunk: string)
      requires state == Streaming
      modifies this, parser
      ensures Model() == Connection.PollStreaming(old(Model()), status, chunk)
    {
      if status == StatusBody {
        if chunk != [] {
          parser.Feed(chunk);
          var events := parser.TakeEvents();
          DeliverEvents(events);
        }
      } else if status == StatusDisconnected || status == StatusConnectionError {
        ErrorAndReconnect(ClosedMessage);
      }
    }

    /** Hands every event to the application in order. */
    method DeliverEvents(events: seq<Event>)
      modifies this
      ensures Model() == Deliver(old(Model()), events)
    {
      ghost var start := Model();
      for i := 0 to |events|
        invariant Model() == Deliver(start, events[..i])
      {
        ReceiveEvent(events[i]);
        assert events[..i + 1][..i] == events[..i];
      }
      assert events[..|events|] == events;
    }

    /** One event: its id and delay are taken over, then it is signalled. */
    method ReceiveEvent(e: Event)
      modifies this
      ensures Model() == Receive(old(Model()), e)
    {
      if e.id != [] {
        lastEventId := e.id;
      }
      if e.retryMs >= 0 {
        settings := settings.(reconnectTime := e.retryMs as real / 1000.0);
      }
      signals := signals + [SseEventReceived(e.eventType, e.data, e.id)];
    }

    method PollReconnectWait(delta: real, connectResult: Error)
      requires state == ReconnectWait
      modifies this, parser
      ensures Model() == Connection.PollReconnectWait(old(Model()), delta, connectResult)
    {
      CountWait(delta);
      if timers.reconnectTimer < settings.reconnectTime {
        return;
      }
      Reopen(connectResult);
    }

    method CountWait(delta: real)
      modifies this
      ensures Model() == Connection.CountWait(old(Model()), delta)
    {
      timers := timers.(reconnectTimer := timers.reconnectTimer + delta);
    }

    method Reopen(connectResult: Error)
      modifies this, parser
      ensures Model() == Connection.Reopen(old(Model()), connectResult)
    {
      Dial();
      if connectResult != Ok {
        ErrorAndReconnect(ReconnectFailedMessage);
        return;
      }
      Resume();
    }

    method Dial()
      modifies this
      ensures Model() == Connection.Dial(old(Model()))
    {
      open := true;
      calls := calls + [ConnectToHost(target.host, target.port, target.useTls)];
    }

    method Resume()
      modifies this, parser
      ensures Model() == Connection.Resume(old(Model()))
    {
      parser.Reset();
      timers := timers.(timeoutTimer := 0.0);
      state := Connecting;
    }
  }
}
