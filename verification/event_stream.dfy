/** The interpretation of a text/event-stream body, as SSEParser performs it,
    stated on values: the parser's five fields form a ParserState, and each of
    its operations is a function from the old state to the new one. The class
    SseParser.SSEParser is proved to compute exactly these functions. */
module EventStream {
  import opened Text

  /** One parsed message. retryMs is -1 when the event carried no valid retry field. */
  datatype Event = Event(eventType: string, data: string, id: string, retryMs: int)

  const NoRetry: int := -1

  /** The value a freshly constructed event record holds. */
  const EmptyEvent: Event := Event("", "", "", NoRetry)

  /** The UTF-8 byte order mark EF BB BF, one character per byte. */
  const Bom: string := ['\U{EF}', '\U{BB}', '\U{BF}']

  /** The parser's fields: the unterminated tail of the input, the event being
      assembled, the queue of dispatched events, the last event id and whether
      the next feed is the first since construction or reset. */
  datatype ParserState = ParserState(
    buffer: string,
    current: Event,
    pending: seq<Event>,
    lastEventId: string,
    firstFeed: bool)

  /** The state after construction and after reset. */
  const Initial: ParserState := ParserState("", EmptyEvent, [], "", true)

  predicate IsTerminator(c: char) {
    c == '\r' || c == '\n'
  }

  predicate NoTerminator(s: string) {
    forall i :: 0 <= i < |s| ==> !IsTerminator(s[i])
  }

  /** An event the parser may enqueue: its data and its type are never empty. */
  predicate Deliverable(e: Event) {
    e.data != [] && e.eventType != []
  }

  /** The queue `after` is `before` with deliverable events appended at its back. */
  predicate Extends(before: seq<Event>, after: seq<Event>) {
    && |before| <= |after|
    && after[..|before|] == before
    && forall i :: |before| <= i < |after| ==> Deliverable(after[i])
  }

  lemma ExtendsTransitive(a: seq<Event>, b: seq<Event>, c: seq<Event>)
    requires Extends(a, b) && Extends(b, c)
    ensures Extends(a, c)
  {
    assert c[..|b|][..|a|] == c[..|a|];
  }

  lemma SuffixOfSuffix(s: string, k: nat, t: string)
    requires k <= |s| && |t| <= |s| - k && t == s[k..][|s| - k - |t|..]
    ensures t == s[|s| - |t|..]
  {
  }

  /** The position of the first '\r' or '\n' of s, or |s| when there is none. */
  function LineEnd(s: string): (e: nat)
    ensures e <= |s|
    ensures NoTerminator(s[..e])
    ensures e < |s| ==> IsTerminator(s[e])
  {
    if s == [] || IsTerminator(s[0]) then 0
    else
      var e := LineEnd(s[1..]);
      assert s[..e + 1] == [s[0]] + s[1..][..e];
      e + 1
  }

  /** The line ends at the first terminator. */
  lemma {:induction false} LineEndAtFirst(s: string, e: nat)
    requires e < |s| && IsTerminator(s[e])
    requires forall k :: 0 <= k < e ==> !IsTerminator(s[k])
    ensures LineEnd(s) == e
    decreases e
  {
    if e > 0 {
      assert !IsTerminator(s[0]);
      LineEndAtFirst(s[1..], e - 1);
    }
  }

  /** How many characters the terminator at e takes: two for "\r\n", one for a
      lone '\r' or '\n'. A '\r' that ends s counts as a lone '\r'. */
  function TerminatorLength(s: string, e: nat): (n: nat)
    requires e < |s| && IsTerminator(s[e])
    ensures 1 <= n <= 2 && e + n <= |s|
    ensures IsTerminator(s[e + n - 1])
  {
    if s[e] == '\r' && e + 1 < |s| && s[e + 1] == '\n' then 2 else 1
  }

  /** The three kinds of line: blank, comment, and field with its value. */
  datatype Line = Blank | Comment | Field(name: string, value: string)

  /** Splits a line at its first ':'; the value loses at most one leading space. */
  function ClassifyLine(line: string): (r: Line)
    ensures r.Blank? <==> line == []
    ensures r.Comment? <==> line != [] && line[0] == ':'
  {
    if line == [] then Blank
    else if line[0] == ':' then Comment
    else
      match IndexOf(line, ':')
      case None => Field(line, [])
      case Some(colon) =>
        var start := if colon + 1 < |line| && line[colon + 1] == ' ' then colon + 2 else colon + 1;
        Field(line[..colon], line[start..])
  }

  /** A field line is its name, then (if it has a colon) ':' and at most one
      space, then its value; the name holds no ':'. */
  lemma ClassifyLineSplit(line: string)
    requires ClassifyLine(line).Field?
    ensures var Field(name, value) := ClassifyLine(line);
      && ':' !in name
      && (':' !in line ==> name == line && value == [])
      && (':' in line ==>
            line == name + ": " + value ||
            (line == name + ":" + value && (value == [] || value[0] != ' ')))
  {
    match IndexOf(line, ':')
    case None =>
    case Some(colon) =>
      if colon + 1 < |line| && line[colon + 1] == ' ' {
        assert line == line[..colon] + ": " + line[colon + 2..];
      } else {
        assert line == line[..colon] + ":" + line[colon + 1..];
      }
  }

  /** The accumulated data with one final '\n' removed, if it has one. */
  function StripFinalNewline(d: string): (r: string)
    ensures r == d || r + "\n" == d
    ensures d != [] && d[|d| - 1] == '\n' ==> r + "\n" == d
  {
    if d != [] && d[|d| - 1] == '\n' then d[..|d| - 1] else d
  }

  /** A blank line: the event assembled so far is enqueued unless its data is
      empty; either way the next event starts from scratch. */
  function Dispatch(p: ParserState): (r: ParserState)
    ensures r.current == EmptyEvent
    ensures r.buffer == p.buffer && r.lastEventId == p.lastEventId && r.firstFeed == p.firstFeed
    ensures StripFinalNewline(p.current.data) == [] ==> r.pending == p.pending
    ensures StripFinalNewline(p.current.data) != [] ==>
      |r.pending| == |p.pending| + 1 && r.pending[..|p.pending|] == p.pending &&
      var e := r.pending[|p.pending|];
      && Deliverable(e)
      && e.data == StripFinalNewline(p.current.data)
      && (e.eventType == p.current.eventType || (p.current.eventType == [] && e.eventType == "message"))
      && e.id == p.lastEventId
      && e.retryMs == p.current.retryMs
  {
    var data := StripFinalNewline(p.current.data);
    if data == [] then
      p.(current := EmptyEvent)
    else
      var eventType := if p.current.eventType == [] then "message" else p.current.eventType;
      var e := Event(eventType, data, p.lastEventId, p.current.retryMs);
      assert (p.pending + [e])[..|p.pending|] == p.pending;
      p.(pending := p.pending + [e], current := EmptyEvent)
  }

  /** A field line: event, data, id and retry are recognised, any other name is ignored. */
  function ApplyField(p: ParserState, name: string, value: string): (r: ParserState)
    ensures r.buffer == p.buffer && r.pending == p.pending && r.firstFeed == p.firstFeed
    ensures name !in {"event", "data", "id", "retry"} ==> r == p
    ensures r.lastEventId != p.lastEventId ==> name == "id" && r.lastEventId == value && '\0' !in value
    ensures r.current.retryMs != p.current.retryMs ==> name == "retry" && IsDigits(value)
  {
    if name == "event" then
      p.(current := p.current.(eventType := value))
    else if name == "data" then
      p.(current := p.current.(data := p.current.data + value + "\n"))
    else if name == "id" then
      if '\0' in value then p else p.(lastEventId := value)
    else if name == "retry" then
      if IsDigits(value) then p.(current := p.current.(retryMs := DecimalValue(value))) else p
    else
      p
  }

  /** One complete line, without its terminator. */
  function ProcessLine(p: ParserState, line: string): (r: ParserState)
    ensures r.buffer == p.buffer && r.firstFeed == p.firstFeed
    ensures line == [] ==> r == Dispatch(p)
    ensures line != [] ==> r.pending == p.pending
    ensures Extends(p.pending, r.pending)
    ensures line != [] && line[0] == ':' ==> r == p
    ensures r.lastEventId != p.lastEventId ==>
      ClassifyLine(line) == Field("id", r.lastEventId) && '\0' !in r.lastEventId
  {
    match ClassifyLine(line)
    case Blank => Dispatch(p)
    case Comment => p
    case Field(name, value) => ApplyField(p, name, value)
  }

  /** Processes every complete line of s in order; what follows the last
      terminator becomes the buffer. */
  function ScanLines(p: ParserState, s: string): ParserState
    decreases |s|
  {
    var e := LineEnd(s);
    if e == |s| then p.(buffer := s)
    else ScanLines(ProcessLine(p, s[..e]), s[e + TerminatorLength(s, e)..])
  }

  /** One step of ScanLines: the first line is processed, the rest is scanned. */
  lemma ScanLinesStep(p: ParserState, s: string, e: nat, n: nat)
    requires e == LineEnd(s) < |s| && n == TerminatorLength(s, e)
    ensures ScanLines(p, s) == ScanLines(ProcessLine(p, s[..e]), s[e + n..])
  {
  }

  /** What is left of s once every complete line is taken off its front. */
  function Remainder(s: string): string
    decreases |s|
  {
    var e := LineEnd(s);
    if e == |s| then s else Remainder(s[e + TerminatorLength(s, e)..])
  }

  /** b is what follows the last terminator of s, or all of s. */
  predicate TailOf(s: string, b: string) {
    |b| <= |s| && b == s[|s| - |b|..] && (b == s || IsTerminator(s[|s| - |b| - 1]))
  }

  /** A tail of what follows a terminator is a tail of the whole text. */
  lemma TailStep(s: string, next: nat, t: string, b: string)
    requires 0 < next <= |s| && IsTerminator(s[next - 1]) && t == s[next..]
    requires TailOf(t, b)
    ensures TailOf(s, b)
  {
    SuffixOfSuffix(s, next, b);
    if b != t {
      assert s[|s| - |b| - 1] == t[|t| - |b| - 1];
    }
  }

  /** What stays buffered holds no terminator. */
  lemma {:induction false} RemainderNoTerminator(s: string)
    ensures NoTerminator(Remainder(s))
    decreases |s|
  {
    var e := LineEnd(s);
    if e == |s| {
      RemainderWhole(s);
    } else {
      RemainderNoTerminator(s[e + TerminatorLength(s, e)..]);
    }
  }

  /** What stays buffered is exactly what follows the last terminator of s,
      and all of s when s has none. */
  lemma {:induction false} RemainderSuffix(s: string)
    ensures TailOf(s, Remainder(s))
    decreases |s|
  {
    var e := LineEnd(s);
    if e == |s| {
      RemainderWhole(s);
    } else {
      var next := e + TerminatorLength(s, e);
      var t := s[next..];
      RemainderSuffix(t);
      assert Remainder(s) == Remainder(t);
      TailStep(s, next, t, Remainder(t));
    }
  }

  /** Text without a terminator is its own remainder. */
  lemma RemainderWhole(s: string)
    requires LineEnd(s) == |s|
    ensures Remainder(s) == s && NoTerminator(s) && s == s[|s| - |s|..]
  {
    assert s[..|s|] == s;
  }

  /** Scanning leaves the remainder of s in the buffer. */
  lemma {:induction false} ScanLinesBuffer(p: ParserState, s: string)
    ensures ScanLines(p, s).buffer == Remainder(s)
    decreases |s|
  {
    var e := LineEnd(s);
    if e < |s| {
      ScanLinesBuffer(ProcessLine(p, s[..e]), s[e + TerminatorLength(s, e)..]);
    }
  }

  /** Scanning only appends deliverable events at the back of the queue. */
  lemma {:induction false} ScanLinesQueue(p: ParserState, s: string)
    ensures Extends(p.pending, ScanLines(p, s).pending)
    decreases |s|
  {
    var e := LineEnd(s);
    if e < |s| {
      var q := ProcessLine(p, s[..e]);
      var rest := s[e + TerminatorLength(s, e)..];
      assert Extends(p.pending, q.pending);
      ScanLinesQueue(q, rest);
      ExtendsTransitive(p.pending, q.pending, ScanLines(q, rest).pending);
    }
  }

  /** Scanning keeps the first-feed flag. */
  lemma {:induction false} ScanLinesFlag(p: ParserState, s: string)
    ensures ScanLines(p, s).firstFeed == p.firstFeed
    decreases |s|
  {
    var e := LineEnd(s);
    if e < |s| {
      ScanLinesFlag(ProcessLine(p, s[..e]), s[e + TerminatorLength(s, e)..]);
    }
  }

  lemma ProcessLineIgnoresBuffer(p: ParserState, b: string, line: string)
    ensures ProcessLine(p.(buffer := b), line) == ProcessLine(p, line).(buffer := b)
  {
  }

  /** Scanning never reads the buffer it starts from; it only sets it at the end. */
  lemma {:induction false} ScanLinesIgnoresBuffer(p: ParserState, b: string, s: string)
    ensures ScanLines(p.(buffer := b), s) == ScanLines(p, s)
    decreases |s|
  {
    var e := LineEnd(s);
    if e < |s| {
      ProcessLineIgnoresBuffer(p, b, s[..e]);
      ScanLinesIgnoresBuffer(ProcessLine(p, s[..e]), b, s[e + TerminatorLength(s, e)..]);
    }
  }

  /** One call of feed: the byte order mark is dropped from the very first
      chunk after construction or reset, the chunk is appended to the buffer
      and every complete line is processed. */
  function Feed(p: ParserState, chunk: string): ParserState {
    ScanLines(p.(firstFeed := false), p.buffer + FeedInput(p, chunk))
  }

  /** What feed appends to the buffer: the chunk, less a leading byte order
      mark on the first feed since construction or reset. */
  function FeedInput(p: ParserState, chunk: string): string {
    if p.firstFeed && StartsWith(chunk, Bom) then chunk[3..] else chunk
  }

  /** Feed leaves the first-feed flag cleared, no terminator in the buffer,
      and the queue grown only at its back. */
  lemma FeedResult(p: ParserState, chunk: string)
    ensures var r := Feed(p, chunk);
      !r.firstFeed && NoTerminator(r.buffer) && Extends(p.pending, r.pending)
  {
    RemainderNoTerminator(p.buffer + FeedInput(p, chunk));
    ScanLinesBuffer(p.(firstFeed := false), p.buffer + FeedInput(p, chunk));
    ScanLinesQueue(p.(firstFeed := false), p.buffer + FeedInput(p, chunk));
    ScanLinesFlag(p.(firstFeed := false), p.buffer + FeedInput(p, chunk));
  }
}
