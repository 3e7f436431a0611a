/** Properties of the client's life cycle that span operations or frames: the
    invariant every operation keeps, the bound on reconnection attempts, the
    end of the life cycle, and the behaviour the client promises at its
    boundaries (204, the strict timeout, the id sent on reconnection). */
module ConnectionProps {
  import opened Text
  import opened EventStream
  import Url
  import opened Connection

  /** The frames an application drives: each supplies the elapsed time and
      what the transport answers. */
  datatype Frame = Frame(delta: real, reply: Reply)

  /** The client after a sequence of frames. */
  function Run(c: Client, frames: seq<Frame>): Client
    decreases |frames|
  {
    if frames == [] then c else Run(Tick(c, frames[0].delta, frames[0].reply), frames[1..])
  }

  /** A newly constructed client keeps the invariant and is not connected. */
  lemma FreshInv()
    ensures Inv(Fresh) && !IsConnected(Fresh)
  {
  }

  /** The parser a client holds outside streaming is the fresh one, so it keeps
      the parser part of the invariant. */
  lemma InitialParser()
    ensures Initial.pending == [] && NoTerminator(Initial.buffer)
  {
  }

  /** Opening a stream keeps the invariant, whether it is refused, fails or
      starts connecting. */
  lemma ConnectInv(c: Client, url: string, headers: seq<string>, requestMethod: string, body: string,
                   connectResult: Error)
    requires Inv(c)
    ensures Inv(ConnectToUrl(c, url, headers, requestMethod, body, connectResult).0)
  {
    InitialParser();
  }

  /** Closing keeps the invariant. */
  lemma DisconnectInv(c: Client)
    requires Inv(c)
    ensures Inv(Disconnect(c))
  {
    InitialParser();
  }

  /** The policy always leaves a client that satisfies the invariant, given
      one whose attempt count is not negative. */
  lemma ErrorAndReconnectInv(c: Client, message: string)
    requires c.timers.reconnectCount >= 0
    ensures Inv(ErrorAndReconnect(c, message))
  {
    InitialParser();
  }

  lemma ConnectingInv(c: Client, delta: real, status: Status, requestResult: Error)
    requires Inv(c) && c.state == Connecting
    ensures Inv(PollConnecting(c, delta, status, requestResult))
  {
    var d := CountTimeout(c, delta);
    if d.timers.timeoutTimer > c.settings.connectTimeout {
      ErrorAndReconnectInv(d, TimeoutMessage);
    } else if status == StatusConnected {
      if requestResult != Ok {
        ErrorAndReconnectInv(Call(d, RequestFor(d)), RequestFailedMessage);
      }
    } else if status != StatusConnecting && status != StatusResolving {
      ErrorAndReconnectInv(d, StatusMessage(status));
    }
  }

  lemma ReadingHeadersInv(c: Client, delta: real, status: Status, hasResponse: bool, code: int,
                          headers: seq<string>)
    requires Inv(c) && c.state == ReadingHeaders
    ensures Inv(PollReadingHeaders(c, delta, status, hasResponse, code, headers))
  {
    InitialParser();
    var d := CountTimeout(c, delta);
    if d.timers.timeoutTimer > c.settings.connectTimeout {
      ErrorAndReconnectInv(d, ResponseTimeoutMessage);
    } else if !hasResponse {
      if status == StatusConnectionError || status == StatusDisconnected {
        ErrorAndReconnectInv(d, LostMessage);
      }
    } else if code == 200 && !ValidContentType(headers) {
      ErrorAndReconnectInv(d, ContentTypeMessage);
    }
  }

  lemma StreamingInv(c: Client, status: Status, chunk: string)
    requires Inv(c) && c.state == Streaming
    ensures Inv(PollStreaming(c, status, chunk))
  {
    if status == StatusBody && chunk != [] {
      FeedResult(c.parser, chunk);
    } else if status == StatusDisconnected || status == StatusConnectionError {
      ErrorAndReconnectInv(c, ClosedMessage);
    }
  }

  lemma ReconnectWaitInv(c: Client, delta: real, connectResult: Error)
    requires Inv(c) && c.state == ReconnectWait
    ensures Inv(PollReconnectWait(c, delta, connectResult))
  {
    InitialParser();
    var d := CountWait(c, delta);
    if d.timers.reconnectTimer >= c.settings.reconnectTime && connectResult != Ok {
      ErrorAndReconnectInv(Dial(d), ReconnectFailedMessage);
    }
  }

  /** Every frame keeps the invariant. */
  lemma TickInv(c: Client, delta: real, reply: Reply)
    requires Inv(c)
    ensures Inv(Tick(c, delta, reply))
  {
    match c.state
    case Connecting => ConnectingInv(c, delta, reply.status, reply.requestResult);
    case ReadingHeaders =>
      ReadingHeadersInv(c, delta, reply.status, reply.hasResponse, reply.responseCode, reply.responseHeaders);
    case Streaming => StreamingInv(c, reply.status, reply.chunk);
    case ReconnectWait => ReconnectWaitInv(c, delta, reply.connectResult);
    case Disconnected =>
  }

  /** Any number of frames keeps the invariant. */
  lemma {:induction false} RunInv(c: Client, frames: seq<Frame>)
    requires Inv(c)
    ensures Inv(Run(c, frames))
    decreases |frames|
  {
    if frames != [] {
      TickInv(c, frames[0].delta, frames[0].reply);
      RunInv(Tick(c, frames[0].delta, frames[0].reply), frames[1..]);
    }
  }

  /** Once disconnected, no frame changes anything: only the application can
      start a new stream. */
  lemma {:induction false} DisconnectedStays(c: Client, frames: seq<Frame>)
    requires c.state == Disconnected
    ensures Run(c, frames) == c
    decreases |frames|
  {
    if frames != [] {
      DisconnectedStays(Tick(c, frames[0].delta, frames[0].reply), frames[1..]);
    }
  }

  /** The bound the reconnection policy keeps. */
  predicate WithinCap(c: Client) {
    c.settings.maxReconnectAttempts >= 0 ==> c.timers.reconnectCount <= c.settings.maxReconnectAttempts
  }

  lemma ErrorAndReconnectCap(c: Client, message: string)
    requires WithinCap(c)
    ensures WithinCap(ErrorAndReconnect(c, message))
  {
  }

  lemma ConnectingCap(c: Client, delta: real, status: Status, requestResult: Error)
    requires WithinCap(c) && c.state == Connecting
    ensures WithinCap(PollConnecting(c, delta, status, requestResult))
  {
    var d := CountTimeout(c, delta);
    if d.timers.timeoutTimer > c.settings.connectTimeout {
      ErrorAndReconnectCap(d, TimeoutMessage);
    } else if status == StatusConnected {
      ErrorAndReconnectCap(Call(d, RequestFor(d)), RequestFailedMessage);
    } else if status != StatusConnecting && status != StatusResolving {
      ErrorAndReconnectCap(d, StatusMessage(status));
    }
  }

  lemma ReadingHeadersCap(c: Client, delta: real, status: Status, hasResponse: bool, code: int,
                          headers: seq<string>)
    requires WithinCap(c) && c.state == ReadingHeaders
    ensures WithinCap(PollReadingHeaders(c, delta, status, hasResponse, code, headers))
  {
    var d := CountTimeout(c, delta);
    if d.timers.timeoutTimer > c.settings.connectTimeout {
      ErrorAndReconnectCap(d, ResponseTimeoutMessage);
    } else if !hasResponse {
      ErrorAndReconnectCap(d, LostMessage);
    } else if code == 200 {
      ErrorAndReconnectCap(d, ContentTypeMessage);
    }
  }

  /** With a non-negative cap the attempt count never passes it: a frame
      either keeps the count, resets it on a successful response, or counts an
      attempt only while the count is below the cap. */
  lemma TickCap(c: Client, delta: real, reply: Reply)
    requires WithinCap(c)
    ensures WithinCap(Tick(c, delta, reply))
  {
    match c.state
    case Connecting => ConnectingCap(c, delta, reply.status, reply.requestResult);
    case ReadingHeaders =>
      ReadingHeadersCap(c, delta, reply.status, reply.hasResponse, reply.responseCode, reply.responseHeaders);
    case Streaming => ErrorAndReconnectCap(c, ClosedMessage);
    case ReconnectWait =>
      var d := CountWait(c, delta);
      ErrorAndReconnectCap(Dial(d), ReconnectFailedMessage);
    case Disconnected =>
  }

  /** Over any number of frames the attempt count stays within the cap. */
  lemma {:induction false} RunCap(c: Client, frames: seq<Frame>)
    requires WithinCap(c)
    ensures WithinCap(Run(c, frames))
    decreases |frames|
  {
    if frames != [] {
      TickCap(c, frames[0].delta, frames[0].reply);
      RunCap(Tick(c, frames[0].delta, frames[0].reply), frames[1..]);
    }
  }

  /** Opening a stream starts the count at 0, within any cap. */
  lemma ConnectCap(c: Client, url: string, headers: seq<string>, requestMethod: string, body: string,
                   connectResult: Error)
    requires WithinCap(c)
    ensures WithinCap(ConnectToUrl(c, url, headers, requestMethod, body, connectResult).0)
  {
  }

  /** A 204 response ends the stream for good, even with auto-reconnect on:
      the code is reported, the transport released and the client
      disconnected, and later frames change nothing. */
  lemma NoContentEnds(c: Client, delta: real, reply: Reply, frames: seq<Frame>)
    requires c.state == ReadingHeaders && c.open
    requires c.timers.timeoutTimer + delta <= c.settings.connectTimeout
    requires reply.hasResponse && reply.responseCode == 204
    ensures var r := Tick(c, delta, reply);
      && r.state == Disconnected && !r.open
      && r.signals == c.signals + [SseError("HTTP 204"), SseDisconnected]
      && r.calls == c.calls + [Close]
      && Run(r, frames) == r
  {
    var r := Tick(c, delta, reply);
    assert HttpMessage(204) == "HTTP 204" by {
      assert IntToString(204) == "204" by {
        assert NatToString(204) == NatToString(20) + [DigitChar(4)];
        assert NatToString(20) == NatToString(2) + [DigitChar(0)];
      }
    }
    DisconnectedStays(r, frames);
  }

  /** The connect timeout is strict: a transport still connecting when the
      timer reaches exactly the timeout keeps the attempt alive. */
  lemma TimeoutIsStrict(c: Client, delta: real, reply: Reply)
    requires c.state == Connecting
    requires c.timers.timeoutTimer + delta == c.settings.connectTimeout
    requires reply.status == StatusConnecting
    ensures Tick(c, delta, reply) == c.(timers := c.timers.(timeoutTimer := c.settings.connectTimeout))
  {
  }

  /** Past the timeout the attempt is abandoned whatever the transport says. */
  lemma TimeoutAbandons(c: Client, delta: real, reply: Reply)
    requires c.state == Connecting || c.state == ReadingHeaders
    requires c.timers.timeoutTimer + delta > c.settings.connectTimeout
    ensures var r := Tick(c, delta, reply);
      && (r.state == ReconnectWait || r.state == Disconnected) && !r.open
      && r.signals[|c.signals|] == SseError(if c.state == Connecting then TimeoutMessage else ResponseTimeoutMessage)
  {
  }

  /** Streaming has no timer: the elapsed time does not matter. */
  lemma StreamingIgnoresTime(c: Client, delta1: real, delta2: real, reply: Reply)
    requires c.state == Streaming
    ensures Tick(c, delta1, reply) == Tick(c, delta2, reply)
  {
  }

  /** Outside streaming no frame changes the last event id, the application's
      settings or the destination; in every state the logs only grow. */
  lemma TickKeeps(c: Client, delta: real, reply: Reply)
    ensures var r := Tick(c, delta, reply);
      && c.signals <= r.signals && c.calls <= r.calls && Destination(r) == Destination(c)
      && (c.state != Streaming ==> r.lastEventId == c.lastEventId && r.settings == c.settings)
  {
  }

  /** A reconnection resumes the stream: once the new transport is connected,
      the request it is sent carries the last event id seen. */
  lemma ReconnectSendsLastId(c: Client, delta: real, reply: Reply)
    requires c.state == Connecting && c.lastEventId != []
    requires c.timers.timeoutTimer + delta <= c.settings.connectTimeout
    requires reply.status == StatusConnected
    ensures var r := Tick(c, delta, reply);
      && |r.calls| > |c.calls|
      && r.calls[|c.calls|].Request?
      && |r.calls[|c.calls|].headers| >= 3
      && r.calls[|c.calls|].headers[2] == LastEventIdPrefix + c.lastEventId
  {
    var d := CountTimeout(c, delta);
    assert Tick(c, delta, reply) == SendRequest(d, reply.requestResult);
    var h := RequestHeaders(d.lastEventId, d.request.customHeaders);
    assert |h| >= 3 && h[2] == LastEventIdPrefix + c.lastEventId;
  }

  /** Whatever the transport answers, opening a stream to a URL written from
      a target records exactly that target. */
  lemma ConnectRecordsTarget(c: Client, t: Url.Target, headers: seq<string>, requestMethod: string, body: string,
                             connectResult: Error)
    requires c.state == Disconnected && Url.Writable(t)
    ensures var r := ConnectToUrl(c, Url.FormatUrl(t), headers, requestMethod, body, connectResult);
      && r.0.target == t
      && r.0.calls == c.calls + [ConnectToHost(t.host, t.port, t.useTls)]
      && r.1 == connectResult
  {
    Url.ParseFormat(t);
  }
}
