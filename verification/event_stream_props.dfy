/** Properties of the event-stream interpretation that relate several calls:
    how chunk boundaries matter, how data lines accumulate into one event, how
    the last event id carries over, and the documented behaviour on concrete
    streams. */
module EventStreamProps {
  import opened Text
  import opened EventStream

  predicate EndsWithCr(s: string) {
    s != [] && s[|s| - 1] == '\r'
  }

  predicate StartsWithLf(s: string) {
    s != [] && s[0] == '\n'
  }

  lemma NoTerminatorLineEnd(s: string)
    requires NoTerminator(s)
    ensures LineEnd(s) == |s|
  {
  }

  /** A line that ends inside x ends at the same place once more text follows. */
  lemma {:induction false} LineEndOfAppend(x: string, y: string)
    requires LineEnd(x) < |x|
    ensures LineEnd(x + y) == LineEnd(x)
    decreases |x|
  {
    if !IsTerminator(x[0]) {
      assert (x + y)[1..] == x[1..] + y;
      LineEndOfAppend(x[1..], y);
    }
  }

  /** Scanning x and then the rest of the text gives what scanning it all at
      once gives, unless x ends with '\r' and the rest starts with '\n'. */
  lemma {:induction false} ScanAppend(p: ParserState, x: string, y: string)
    requires !(EndsWithCr(x) && StartsWithLf(y))
    ensures ScanLines(p, x + y) == ScanLines(ScanLines(p, x), Remainder(x) + y)
    decreases |x|
  {
    var e := LineEnd(x);
    if e == |x| {
      ScanLinesIgnoresBuffer(p, x, x + y);
    } else {
      var n := TerminatorLength(x, e);
      ScanAppendStep(p, x, y, e, n);
      ScanAppend(ProcessLine(p, x[..e]), x[e + n..], y);
    }
  }

  /** The first line of x is also the first line of x + y. */
  lemma ScanAppendStep(p: ParserState, x: string, y: string, e: nat, n: nat)
    requires !(EndsWithCr(x) && StartsWithLf(y))
    requires e == LineEnd(x) < |x| && n == TerminatorLength(x, e)
    ensures ScanLines(p, x + y) == ScanLines(ProcessLine(p, x[..e]), x[e + n..] + y)
    ensures ScanLines(p, x) == ScanLines(ProcessLine(p, x[..e]), x[e + n..])
    ensures Remainder(x) == Remainder(x[e + n..])
    ensures !(EndsWithCr(x[e + n..]) && StartsWithLf(y))
  {
    FirstLineOfAppend(p, x, y, e, n);
    ScanLinesStep(p, x, e, n);
    RemainderStep(p, x, e, n);
    EndsWithCrTail(x, e + n);
  }

  /** The remainder after the first line is the remainder of the whole. */
  lemma RemainderStep(p: ParserState, x: string, e: nat, n: nat)
    requires e == LineEnd(x) < |x| && n == TerminatorLength(x, e)
    ensures Remainder(x) == Remainder(x[e + n..])
  {
    ScanLinesStep(p, x, e, n);
    ScanLinesBuffer(p, x);
    ScanLinesBuffer(ProcessLine(p, x[..e]), x[e + n..]);
  }

  /** A non-empty tail of x ends as x does. */
  lemma EndsWithCrTail(x: string, k: nat)
    requires k <= |x|
    ensures EndsWithCr(x[k..]) ==> EndsWithCr(x)
  {
    if x[k..] != [] {
      assert x[k..][|x[k..]| - 1] == x[|x| - 1];
    }
  }

  lemma FirstLineOfAppend(p: ParserState, x: string, y: string, e: nat, n: nat)
    requires !(EndsWithCr(x) && StartsWithLf(y))
    requires e == LineEnd(x) < |x| && n == TerminatorLength(x, e)
    ensures ScanLines(p, x + y) == ScanLines(ProcessLine(p, x[..e]), x[e + n..] + y)
  {
    LineEndOfAppend(x, y);
    assert TerminatorLength(x + y, e) == n;
    assert (x + y)[..e] == x[..e];
    assert (x + y)[e + n..] == x[e + n..] + y;
    ScanLinesStep(p, x + y, e, n);
  }

  /** What feed appends for a + b is what it appends for a, then b, as long as
      a alone can decide whether the byte order mark is there. */
  lemma FeedInputAppend(p: ParserState, a: string, b: string)
    requires !p.firstFeed || |a| >= 3 || !StartsWith(a + b, Bom)
    ensures FeedInput(p, a + b) == FeedInput(p, a) + b
  {
    if p.firstFeed && |a| >= 3 {
      assert (a + b)[..3] == a[..3];
      assert (a + b)[3..] == a[3..] + b;
    }
  }

  /** Feeding a and then b is the same as feeding a + b, except when the split
      separates the '\r' and '\n' of one "\r\n", or when a first chunk shorter
      than three bytes cuts through a byte order mark. */
  lemma FeedSplit(p: ParserState, a: string, b: string)
    requires NoTerminator(p.buffer)
    requires !p.firstFeed || |a| >= 3 || !StartsWith(a + b, Bom)
    requires !(EndsWithCr(a) && StartsWithLf(b))
    ensures Feed(Feed(p, a), b) == Feed(p, a + b)
  {
    var p' := p.(firstFeed := false);
    var x := p.buffer + FeedInput(p, a);
    FeedInputAppend(p, a, b);
    assert p.buffer + FeedInput(p, a + b) == x + b;
    assert EndsWithCr(x) ==> EndsWithCr(a);
    ScanAppend(p', x, b);
    var q := Feed(p, a);
    ScanLinesBuffer(p', x);
    ScanLinesFlag(p', x);
    assert q.(firstFeed := false) == q;
  }

  /** An empty chunk changes nothing but the first-feed flag. */
  lemma EmptyFeed(p: ParserState)
    requires NoTerminator(p.buffer)
    ensures Feed(p, []) == p.(firstFeed := false)
  {
    NoTerminatorLineEnd(p.buffer);
    assert p.buffer + FeedInput(p, []) == p.buffer;
  }

  /** Feeding a list of chunks one after the other. */
  function FeedAll(p: ParserState, chunks: seq<string>): ParserState
    decreases |chunks|
  {
    if chunks == [] then p else FeedAll(Feed(p, chunks[0]), chunks[1..])
  }

  function Concat(chunks: seq<string>): string
    decreases |chunks|
  {
    if chunks == [] then [] else chunks[0] + Concat(chunks[1..])
  }

  /** No chunk boundary falls between the '\r' and the '\n' of a "\r\n". */
  predicate SafeSplits(chunks: seq<string>)
    decreases |chunks|
  {
    |chunks| <= 1 ||
    (!(EndsWithCr(chunks[0]) && StartsWithLf(Concat(chunks[1..]))) && SafeSplits(chunks[1..]))
  }

  /** How a stream is cut into chunks does not change what the parser makes of
      it, provided no cut splits a "\r\n" and, after construction or reset,
      the first chunk does not cut through a leading byte order mark. */
  lemma {:induction false} ChunkIndependence(p: ParserState, chunks: seq<string>)
    requires NoTerminator(p.buffer)
    requires p.firstFeed ==> chunks != [] && (|chunks[0]| >= 3 || !StartsWith(Concat(chunks), Bom))
    requires SafeSplits(chunks)
    ensures FeedAll(p, chunks) == Feed(p, Concat(chunks))
    decreases |chunks|
  {
    if chunks == [] {
      EmptyFeed(p);
    } else {
      var q := Feed(p, chunks[0]);
      FeedResult(p, chunks[0]);
      ChunkIndependence(q, chunks[1..]);
      FeedSplit(p, chunks[0], Concat(chunks[1..]));
    }
  }

  /** One complete line at the front of the text is processed, and scanning
      goes on after its terminator. */
  lemma ScanLine(p: ParserState, line: string, term: string, rest: string)
    requires NoTerminator(line)
    requires term == "\n" || term == "\r\n" || (term == "\r" && !StartsWithLf(rest))
    ensures ScanLines(p, line + term + rest) == ScanLines(ProcessLine(p, line), rest)
  {
    var s := line + term + rest;
    var e := |line|;
    assert s[e] == term[0];
    assert forall k :: 0 <= k < e ==> s[k] == line[k];
    LineEndAtFirst(s, e);
    assert TerminatorLength(s, e) == |term| by {
      if term == "\r" && e + 1 < |s| {
        assert s[e + 1] == rest[0];
      }
    }
    assert s[..e] == line;
    assert s[e + |term|..] == rest;
    ScanLinesStep(p, s, e, |term|);
  }

  /** Processes the lines in order. */
  function ProcessLines(p: ParserState, lines: seq<string>): ParserState
    decreases |lines|
  {
    if lines == [] then p else ProcessLines(ProcessLine(p, lines[0]), lines[1..])
  }

  /** The lines, each followed by "\n". */
  function Lines(lines: seq<string>): string
    decreases |lines|
  {
    if lines == [] then [] else lines[0] + "\n" + Lines(lines[1..])
  }

  predicate NoTerminators(lines: seq<string>) {
    forall i :: 0 <= i < |lines| ==> NoTerminator(lines[i])
  }

  /** Scanning text made of complete lines processes those lines in order. */
  lemma {:induction false} ScanLinesOfLines(p: ParserState, lines: seq<string>, rest: string)
    requires NoTerminators(lines)
    ensures ScanLines(p, Lines(lines) + rest) == ScanLines(ProcessLines(p, lines), rest)
    decreases |lines|
  {
    if lines != [] {
      var t := Lines(lines[1..]) + rest;
      var q := ProcessLine(p, lines[0]);
      assert Lines(lines) == lines[0] + "\n" + Lines(lines[1..]);
      AppendAssoc(lines[0] + "\n", Lines(lines[1..]), rest);
      ScanLine(p, lines[0], "\n", t);
      ScanLinesOfLines(q, lines[1..], rest);
      assert ProcessLines(p, lines) == ProcessLines(q, lines[1..]);
    } else {
      assert Lines(lines) + rest == rest;
    }
  }

  /** Feeding complete lines to a parser with an empty buffer processes them in
      order and keeps the unterminated rest as the buffer. */
  lemma FeedLines(p: ParserState, lines: seq<string>, rest: string)
    requires p.buffer == [] && NoTerminators(lines) && NoTerminator(rest)
    requires p.firstFeed ==> !StartsWith(Lines(lines) + rest, Bom)
    ensures Feed(p, Lines(lines) + rest) == ProcessLines(p.(firstFeed := false), lines).(buffer := rest)
  {
    assert p.buffer + FeedInput(p, Lines(lines) + rest) == Lines(lines) + rest;
    ScanLinesOfLines(p.(firstFeed := false), lines, rest);
    NoTerminatorLineEnd(rest);
  }

  lemma ProcessLinesAppend(p: ParserState, lines: seq<string>, line: string)
    ensures ProcessLines(p, lines + [line]) == ProcessLine(ProcessLines(p, lines), line)
    decreases |lines|
  {
    if lines != [] {
      assert (lines + [line])[1..] == lines[1..] + [line];
      ProcessLinesAppend(ProcessLine(p, lines[0]), lines[1..], line);
    }
  }

  /** A field line "name: value" or "name:value" splits into that name and
      value when the name holds no ':' and only the single space after the
      colon is separator. */
  lemma ClassifyField(name: string, sep: string, value: string)
    requires name != [] && ':' !in name
    requires sep == ": " || (sep == ":" && (value == [] || value[0] != ' '))
    ensures ClassifyLine(name + sep + value) == Field(name, value)
  {
    var line := name + sep + value;
    assert line[|name|] == ':';
    assert line[..|name|] == name;
    assert IndexOf(line, ':') == Some(|name|);
    if sep == ": " {
      assert line[|name| + 2..] == value;
    } else {
      assert line[|name| + 1..] == value;
    }
  }

  /** The values joined with "\n" between consecutive ones. */
  function Join(values: seq<string>): string
    requires values != []
    decreases |values|
  {
    if |values| == 1 then values[0] else values[0] + "\n" + Join(values[1..])
  }

  lemma {:induction false} LinesJoin(values: seq<string>)
    requires values != []
    ensures Lines(values) == Join(values) + "\n"
    decreases |values|
  {
    if |values| > 1 {
      LinesJoin(values[1..]);
    }
  }

  /** One "data: v" line per value. */
  function DataLines(values: seq<string>): (lines: seq<string>)
    ensures |lines| == |values|
  {
    seq(|values|, i requires 0 <= i < |values| => "data: " + values[i])
  }

  /** A "data: v" line adds v and "\n" to the data being assembled. */
  lemma DataLine(p: ParserState, value: string)
    ensures ProcessLine(p, "data: " + value) == p.(current := p.current.(data := p.current.data + value + "\n"))
  {
    assert "data: " + value == "data" + ": " + value;
    FieldLine(p, "data", value);
  }

  /** The first data line of an event: the data becomes v and "\n". */
  lemma FirstDataLine(p: ParserState, value: string)
    requires p.current.data == []
    ensures ProcessLine(p, "data: " + value) == p.(current := p.current.(data := value + "\n"))
  {
    DataLine(p, value);
    assert p.current.data + value == value;
  }

  lemma LinesCons(d: string, values: seq<string>)
    requires values != []
    ensures d + values[0] + "\n" + Lines(values[1..]) == d + Lines(values)
  {
  }

  /** Data lines add their values, each followed by "\n", to the data of the
      event being assembled, and change nothing else. */
  lemma {:induction false} DataAccumulates(p: ParserState, values: seq<string>)
    ensures ProcessLines(p, DataLines(values)) == p.(current := p.current.(data := p.current.data + Lines(values)))
    decreases |values|
  {
    if values == [] {
      assert DataLines(values) == [];
      assert p.current.data + Lines(values) == p.current.data;
    } else {
      var lines := DataLines(values);
      assert lines[1..] == DataLines(values[1..]);
      assert lines[0] == "data: " + values[0];
      DataLine(p, values[0]);
      var q := p.(current := p.current.(data := p.current.data + values[0] + "\n"));
      assert ProcessLine(p, lines[0]) == q;
      assert ProcessLines(p, lines) == ProcessLines(q, DataLines(values[1..]));
      DataAccumulates(q, values[1..]);
      LinesCons(p.current.data, values);
    }
  }

  /** A block of data lines closed by a blank line dispatches one event whose
      data is what the block adds to the data already assembled, its values
      joined by "\n"; when that is empty, nothing is dispatched. The event
      takes the pending type (or "message") and retry and the last event id,
      and the next event starts from scratch. */
  lemma DataBlock(p: ParserState, values: seq<string>)
    requires values != []
    ensures var r := ProcessLines(p, DataLines(values) + [""]);
      var data := p.current.data + Join(values);
      && r.current == EmptyEvent
      && r.lastEventId == p.lastEventId
      && (data == [] ==> r.pending == p.pending)
      && (data != [] ==>
            r.pending == p.pending + [Event(TypeOrDefault(p.current.eventType), data, p.lastEventId, p.current.retryMs)])
  {
    var q := ProcessLines(p, DataLines(values));
    ProcessLinesAppend(p, DataLines(values), "");
    BlankLineDispatches(q);
    DataAccumulates(p, values);
    LinesJoin(values);
    AppendAssoc(p.current.data, Join(values), "\n");
    DispatchData(p, q, p.current.data + Join(values));
  }

  lemma AppendAssoc(a: string, b: string, c: string)
    ensures a + (b + c) == (a + b) + c
  {
  }

  /** Dispatching after data and "\n" were added to what p assembled. */
  lemma DispatchData(p: ParserState, q: ParserState, data: string)
    requires q == p.(current := p.current.(data := data + "\n"))
    ensures var r := Dispatch(q);
      && r.current == EmptyEvent
      && r.lastEventId == p.lastEventId
      && (data == [] ==> r.pending == p.pending)
      && (data != [] ==>
            r.pending == p.pending + [Event(TypeOrDefault(p.current.eventType), data, p.lastEventId, p.current.retryMs)])
  {
    DispatchAssembled(q, data);
  }

  /** The type a dispatched event gets: its own, or "message" when it has none. */
  function TypeOrDefault(eventType: string): string {
    if eventType == [] then "message" else eventType
  }

  /** Dispatching data that ends in "\n" enqueues the data without it,
      unless nothing is left. */
  lemma DispatchAssembled(q: ParserState, data: string)
    requires q.current.data == data + "\n"
    ensures var r := Dispatch(q);
      && (data == [] ==> r.pending == q.pending)
      && (data != [] ==>
            r.pending == q.pending + [Event(TypeOrDefault(q.current.eventType), data, q.lastEventId, q.current.retryMs)])
  {
    assert StripFinalNewline(q.current.data) == data;
  }

  /** A stream holding one block of data lines, fed in one chunk. */
  lemma FeedDataBlock(p: ParserState, values: seq<string>)
    requires p.buffer == [] && values != []
    requires forall i :: 0 <= i < |values| ==> NoTerminator(values[i])
    ensures var r := Feed(p, Lines(DataLines(values) + [""]));
      var data := p.current.data + Join(values);
      && r.buffer == [] && r.current == EmptyEvent && r.lastEventId == p.lastEventId
      && (data == [] ==> r.pending == p.pending)
      && (data != [] ==>
            r.pending == p.pending + [Event(TypeOrDefault(p.current.eventType), data, p.lastEventId, p.current.retryMs)])
  {
    var lines := DataLines(values) + [""];
    DataLinesNoTerminators(values);
    assert Lines(lines) + [] == Lines(lines);
    FeedLines(p, lines, []);
    DataBlock(p.(firstFeed := false), values);
  }

  /** A "data:" line with nothing after the colon adds a lone "\n". */
  lemma EmptyDataLine(p: ParserState)
    ensures ProcessLine(p, "data:") == p.(current := p.current.(data := p.current.data + "\n"))
  {
    EmptyDataClassified();
  }

  lemma EmptyDataClassified()
    ensures ClassifyLine("data:") == Field("data", "")
  {
    assert "data:" == "data" + ":" + "";
    ClassifyField("data", ":", "");
  }

  /** One "data:" line closed by a blank line enqueues nothing. */
  lemma OneEmptyData(p: ParserState)
    requires AtEventStart(p)
    ensures Feed(p, "data:\n\n").pending == p.pending
  {
    var lines := ["data:", ""];
    assert Lines(lines[1..]) == "\n";
    assert Lines(lines) == "data:\n\n";
    assert NoTerminators(lines) by {
      assert NoTerminator("data:");
    }
    FeedBlock(p, lines);
    var p0 := p.(firstFeed := false);
    ProcessTwo(p0, "data:", "");
    EmptyDataLine(p0);
    var q := p0.(current := p0.current.(data := "\n"));
    BlankLineDispatches(q);
    DispatchAssembled(q, "");
  }

  /** Two "data:" lines closed by a blank line enqueue one event whose data is
      a single "\n". */
  lemma TwoEmptyData(p: ParserState)
    requires AtEventStart(p)
    ensures Feed(p, "data:\ndata:\n\n").pending == p.pending + [Event("message", "\n", p.lastEventId, NoRetry)]
  {
    TwoEmptyDataText();
    FeedBlock(p, ["data:", "data:", ""]);
    EmptyDataClassified();
    TwoEmptyDataLines(p.(firstFeed := false), "data:");
  }

  lemma TwoEmptyDataText()
    ensures Lines(["data:", "data:", ""]) == "data:\ndata:\n\n"
    ensures NoTerminators(["data:", "data:", ""])
  {
    var lines := ["data:", "data:", ""];
    assert Lines(lines[2..]) == "\n";
    assert Lines(lines[1..]) == "data:\n\n";
    assert NoTerminator("data:");
  }

  lemma TwoEmptyDataLines(p: ParserState, line: string)
    requires p.current == EmptyEvent && ClassifyLine(line) == Field("data", "")
    ensures ProcessLines(p, [line, line, ""]).pending == p.pending + [Event("message", "\n", p.lastEventId, NoRetry)]
  {
    var q1 := p.(current := EmptyEvent.(data := "\n"));
    var q2 := q1.(current := EmptyEvent.(data := "\n\n"));
    assert [line, line, ""] == [line] + [line, ""];
    ProcessLinesCons(p, line, [line, ""]);
    EmptyDataStep(p, line, "", "\n");
    ProcessTwo(q1, line, "");
    EmptyDataStep(q1, line, "\n", "\n\n");
    BlankLineDispatches(q2);
    NewlineDispatch(q2);
  }

  /** Assembled data "\n\n" is enqueued as a single "\n". */
  lemma NewlineDispatch(p: ParserState)
    requires p.current == EmptyEvent.(data := "\n\n")
    ensures Dispatch(p).pending == p.pending + [Event("message", "\n", p.lastEventId, NoRetry)]
  {
    DispatchAssembled(p, "\n");
  }

  /** A "data:" line in an event whose only field so far is data d. */
  lemma EmptyDataStep(p: ParserState, line: string, d: string, d': string)
    requires ClassifyLine(line) == Field("data", "") && p.current == EmptyEvent.(data := d) && d' == d + "\n"
    ensures ProcessLine(p, line) == p.(current := EmptyEvent.(data := d'))
  {
  }

  lemma DataLinesNoTerminators(values: seq<string>)
    requires forall i :: 0 <= i < |values| ==> NoTerminator(values[i])
    ensures NoTerminators(DataLines(values) + [""])
    ensures !StartsWith(Lines(DataLines(values) + [""]), Bom)
  {
    var lines := DataLines(values) + [""];
    forall i | 0 <= i < |lines|
      ensures NoTerminator(lines[i])
    {
      if i < |values| {
        assert lines[i] == "data: " + values[i];
      }
    }
    assert Lines(lines)[0] == (if values == [] then '\n' else 'd');
  }

  /** A line that sets the last event id: a field named "id". */
  predicate SetsId(line: string) {
    ClassifyLine(line).Field? && ClassifyLine(line).name == "id"
  }

  /** Lines without an id field keep the last event id, and every event they
      dispatch carries it: the id persists across events until the next id
      line. */
  lemma {:induction false} IdPersists(p: ParserState, lines: seq<string>)
    requires forall i :: 0 <= i < |lines| ==> !SetsId(lines[i])
    ensures var r := ProcessLines(p, lines);
      && r.lastEventId == p.lastEventId
      && Extends(p.pending, r.pending)
      && forall i :: |p.pending| <= i < |r.pending| ==> r.pending[i].id == p.lastEventId
    decreases |lines|
  {
    if lines != [] {
      var q := ProcessLine(p, lines[0]);
      IdKeptByLine(p, lines[0]);
      IdPersists(q, lines[1..]);
      StampedTransitive(p.pending, q.pending, ProcessLines(q, lines[1..]).pending, p.lastEventId);
    }
  }

  /** after is before with deliverable events appended, each carrying id. */
  predicate Stamped(before: seq<Event>, after: seq<Event>, id: string) {
    Extends(before, after) && forall i :: |before| <= i < |after| ==> after[i].id == id
  }

  /** One line without an id field keeps the last event id and stamps what it
      dispatches with it. */
  lemma IdKeptByLine(p: ParserState, line: string)
    requires !SetsId(line)
    ensures ProcessLine(p, line).lastEventId == p.lastEventId
    ensures Stamped(p.pending, ProcessLine(p, line).pending, p.lastEventId)
  {
  }

  lemma StampedTransitive(a: seq<Event>, b: seq<Event>, c: seq<Event>, id: string)
    requires Stamped(a, b, id) && Stamped(b, c, id)
    ensures Stamped(a, c, id)
  {
    ExtendsTransitive(a, b, c);
    forall i | |a| <= i < |c|
      ensures c[i].id == id
    {
      if i < |b| {
        assert c[..|b|][i] == c[i];
      }
    }
  }

  /** A field line acts through ApplyField on its name and value. */
  lemma FieldLine(p: ParserState, name: string, value: string)
    requires name != [] && ':' !in name
    ensures ProcessLine(p, name + ": " + value) == ApplyField(p, name, value)
  {
    ClassifyField(name, ": ", value);
  }

  /** An "id: v" line sets the last event id to v, unless v holds a NUL. */
  lemma IdLine(p: ParserState, value: string)
    ensures '\0' !in value ==> ProcessLine(p, "id: " + value) == p.(lastEventId := value)
    ensures '\0' in value ==> ProcessLine(p, "id: " + value) == p
  {
    assert "id: " + value == "id" + ": " + value;
    FieldLine(p, "id", value);
  }

  /** An "event: t" line sets the type of the event being assembled. */
  lemma EventLine(p: ParserState, value: string)
    ensures ProcessLine(p, "event: " + value) == p.(current := p.current.(eventType := value))
  {
    assert "event: " + value == "event" + ": " + value;
    FieldLine(p, "event", value);
  }

  /** A "retry: v" line sets the event's retry to the decimal value of v when
      v is a non-empty string of digits, and is ignored otherwise. */
  lemma RetryLine(p: ParserState, value: string)
    ensures IsDigits(value) ==> ProcessLine(p, "retry: " + value) == p.(current := p.current.(retryMs := DecimalValue(value)))
    ensures !IsDigits(value) ==> ProcessLine(p, "retry: " + value) == p
  {
    assert "retry: " + value == "retry" + ": " + value;
    FieldLine(p, "retry", value);
    assert "retry" != "event" && "retry" != "data" && "retry" != "id";
  }

  /** A field whose name is not one of the four is ignored. */
  lemma UnknownFieldLine(p: ParserState, name: string, value: string)
    requires name != [] && ':' !in name && name !in {"event", "data", "id", "retry"}
    ensures ProcessLine(p, name + ": " + value) == p
  {
    FieldLine(p, name, value);
  }

  /** A blank line right after a dispatch (or at the start) changes nothing:
      consecutive blank lines dispatch at most one event. */
  lemma BlankLineDispatches(p: ParserState)
    ensures ProcessLine(p, []) == Dispatch(p)
  {
  }

  lemma BlankLineAtRest(p: ParserState)
    requires p.current == EmptyEvent
    ensures ProcessLine(p, []) == p
  {
  }

  lemma ProcessLinesConcat(p: ParserState, a: seq<string>, b: seq<string>)
    ensures ProcessLines(p, a + b) == ProcessLines(ProcessLines(p, a), b)
    decreases |a|
  {
    if a != [] {
      assert (a + b)[1..] == a[1..] + b;
      ProcessLinesConcat(ProcessLine(p, a[0]), a[1..], b);
    } else {
      assert a + b == b;
    }
  }

  lemma PrefixedNoTerminator(prefix: string, value: string)
    requires NoTerminator(prefix) && NoTerminator(value)
    ensures NoTerminator(prefix + value)
  {
    assert forall i :: |prefix| <= i < |prefix + value| ==> (prefix + value)[i] == value[i - |prefix|];
  }

  /** A stream that starts with a byte order mark, fed in a first chunk of at
      least three bytes after construction or reset, is read as if the mark
      were absent. */
  lemma BomIgnored(p: ParserState, s: string)
    requires p.firstFeed
    ensures Feed(p, Bom + s) == Feed(p.(firstFeed := false), s)
  {
    assert (Bom + s)[..3] == Bom;
    assert (Bom + s)[3..] == s;
  }

  /** A parser between events: nothing buffered and nothing assembled. */
  predicate AtEventStart(p: ParserState) {
    p.buffer == [] && p.current == EmptyEvent
  }

  /** Feeding complete lines to a parser with an empty buffer, when the first
      line does not start with the first byte of a byte order mark. */
  lemma FeedBlock(p: ParserState, lines: seq<string>)
    requires p.buffer == [] && NoTerminators(lines)
    requires lines != [] && lines[0] != [] && lines[0][0] != '\U{EF}'
    ensures Feed(p, Lines(lines)) == ProcessLines(p.(firstFeed := false), lines).(buffer := [])
  {
    assert Lines(lines) + [] == Lines(lines);
    assert Lines(lines)[0] == lines[0][0];
    FeedLines(p, lines, []);
  }

  lemma ProcessLinesCons(p: ParserState, line: string, rest: seq<string>)
    ensures ProcessLines(p, [line] + rest) == ProcessLines(ProcessLine(p, line), rest)
  {
    assert ([line] + rest)[1..] == rest;
  }

  /** Two, four and five given lines are processed one after the other. */
  lemma ProcessTwo(p: ParserState, a: string, b: string)
    ensures ProcessLines(p, [a, b]) == ProcessLine(ProcessLine(p, a), b)
  {
    var q := ProcessLine(p, a);
    assert [a, b][0] == a && [a, b][1..] == [b];
    assert ProcessLines(p, [a, b]) == ProcessLines(q, [b]);
    assert [b][0] == b && [b][1..] == [];
    assert ProcessLines(q, [b]) == ProcessLines(ProcessLine(q, b), []);
    assert ProcessLines(ProcessLine(q, b), []) == ProcessLine(q, b);
  }

  lemma ProcessFour(p: ParserState, a: string, b: string, c: string, d: string)
    ensures ProcessLines(p, [a, b, c, d]) == ProcessLine(ProcessLine(ProcessLine(ProcessLine(p, a), b), c), d)
  {
    assert [a, b, c, d] == [a, b] + [c, d];
    ProcessLinesConcat(p, [a, b], [c, d]);
    ProcessTwo(p, a, b);
    ProcessTwo(ProcessLine(ProcessLine(p, a), b), c, d);
  }

  lemma ProcessFive(p: ParserState, a: string, b: string, c: string, d: string, e: string)
    ensures ProcessLines(p, [a, b, c, d, e])
      == ProcessLine(ProcessLine(ProcessLine(ProcessLine(ProcessLine(p, a), b), c), d), e)
  {
    assert [a, b, c, d, e] == [a] + [b, c, d, e];
    ProcessLinesCons(p, a, [b, c, d, e]);
    ProcessFour(ProcessLine(p, a), b, c, d, e);
  }

  /** The id, event, data and retry lines of one block, then the blank line. */
  lemma FullEventLines(p: ParserState, id: string, eventType: string, data: string, retry: string)
    requires p.current == EmptyEvent
    requires '\0' !in id && data != [] && IsDigits(retry)
    ensures ProcessLines(p, ["id: " + id, "event: " + eventType, "data: " + data, "retry: " + retry, ""]).pending
      == p.pending + [Event(TypeOrDefault(eventType), data, id, DecimalValue(retry))]
  {
    ProcessFive(p, "id: " + id, "event: " + eventType, "data: " + data, "retry: " + retry, "");
    IdLine(p, id);
    var p1 := p.(lastEventId := id);
    EventLine(p1, eventType);
    var p2 := p1.(current := p1.current.(eventType := eventType));
    FirstDataLine(p2, data);
    var p3 := p2.(current := p2.current.(data := data + "\n"));
    RetryLine(p3, retry);
    var p4 := p3.(current := p3.current.(retryMs := DecimalValue(retry)));
    DispatchAssembled(p4, data);
  }

  lemma FullEventNoTerminators(id: string, eventType: string, data: string, retry: string)
    requires NoTerminator(id) && NoTerminator(eventType) && NoTerminator(data) && NoTerminator(retry)
    ensures NoTerminators(["id: " + id, "event: " + eventType, "data: " + data, "retry: " + retry, ""])
  {
    PrefixedNoTerminator("id: ", id);
    PrefixedNoTerminator("event: ", eventType);
    PrefixedNoTerminator("data: ", data);
    PrefixedNoTerminator("retry: ", retry);
  }

  /** An event that sets every field, fed in one chunk: its id, type, data
      and retry all reach the one event dispatched. */
  lemma FullEvent(p: ParserState, id: string, eventType: string, data: string, retry: string)
    requires AtEventStart(p)
    requires NoTerminator(id) && NoTerminator(eventType) && NoTerminator(data) && NoTerminator(retry)
    requires '\0' !in id && data != [] && IsDigits(retry)
    ensures Feed(p, Lines(["id: " + id, "event: " + eventType, "data: " + data, "retry: " + retry, ""])).pending
      == p.pending + [Event(TypeOrDefault(eventType), data, id, DecimalValue(retry))]
  {
    var lines := ["id: " + id, "event: " + eventType, "data: " + data, "retry: " + retry, ""];
    FullEventNoTerminators(id, eventType, data, retry);
    FeedBlock(p, lines);
    FullEventLines(p.(firstFeed := false), id, eventType, data, retry);
  }

  /** One data line and the blank line: the event carries the data, the
      type "message" and the last event id. */
  lemma DataEvent(p: ParserState, data: string)
    requires p.current == EmptyEvent && data != []
    ensures ProcessLine(ProcessLine(p, "data: " + data), "")
      == p.(pending := p.pending + [Event("message", data, p.lastEventId, NoRetry)])
  {
    FirstDataLine(p, data);
    DispatchAssembled(p.(current := p.current.(data := data + "\n")), data);
  }

  lemma DataEventLines(p: ParserState, data: string)
    requires p.current == EmptyEvent && data != []
    ensures ProcessLines(p, ["data: " + data, ""]) == p.(pending := p.pending + [Event("message", data, p.lastEventId, NoRetry)])
  {
    ProcessTwo(p, "data: " + data, "");
    DataEvent(p, data);
  }

  /** An id line, two data blocks: both events carry the id. */
  lemma IdAcrossEventsLines(p: ParserState, id: string, a: string, b: string)
    requires p.current == EmptyEvent
    requires '\0' !in id && a != [] && b != []
    ensures ProcessLines(p, ["id: " + id, "data: " + a, "", "data: " + b, ""]).pending
      == p.pending + [Event("message", a, id, NoRetry), Event("message", b, id, NoRetry)]
  {
    var p1 := p.(lastEventId := id);
    var p2 := p1.(pending := p.pending + [Event("message", a, id, NoRetry)]);
    calc {
      ProcessLines(p, ["id: " + id, "data: " + a, "", "data: " + b, ""]);
    == { ProcessFive(p, "id: " + id, "data: " + a, "", "data: " + b, ""); }
      ProcessLine(ProcessLine(ProcessLine(ProcessLine(ProcessLine(p, "id: " + id), "data: " + a), ""), "data: " + b), "");
    == { IdLine(p, id); }
      ProcessLine(ProcessLine(ProcessLine(ProcessLine(p1, "data: " + a), ""), "data: " + b), "");
    == { DataEvent(p1, a); }
      ProcessLine(ProcessLine(p2, "data: " + b), "");
    == { DataEvent(p2, b); }
      p2.(pending := p2.pending + [Event("message", b, id, NoRetry)]);
    }
    assert p.pending + [Event("message", a, id, NoRetry)] + [Event("message", b, id, NoRetry)]
      == p.pending + [Event("message", a, id, NoRetry), Event("message", b, id, NoRetry)];
  }

  /** The last event id persists across events: after one id line, the events
      of the next two blocks both carry it. */
  lemma IdAcrossEvents(p: ParserState, id: string, a: string, b: string)
    requires AtEventStart(p)
    requires NoTerminator(id) && NoTerminator(a) && NoTerminator(b)
    requires '\0' !in id && a != [] && b != []
    ensures Feed(p, Lines(["id: " + id, "data: " + a, "", "data: " + b, ""])).pending
      == p.pending + [Event("message", a, id, NoRetry), Event("message", b, id, NoRetry)]
  {
    PrefixedNoTerminator("id: ", id);
    PrefixedNoTerminator("data: ", a);
    PrefixedNoTerminator("data: ", b);
    FeedBlock(p, ["id: " + id, "data: " + a, "", "data: " + b, ""]);
    IdAcrossEventsLines(p.(firstFeed := false), id, a, b);
  }

  lemma DroppedBlockLines(p: ParserState, id: string, b: string)
    requires p.current == EmptyEvent
    requires '\0' !in id && b != []
    ensures ProcessLines(p, ["id: " + id, "", "data: " + b, ""]).pending == p.pending + [Event("message", b, id, NoRetry)]
  {
    ProcessFour(p, "id: " + id, "", "data: " + b, "");
    IdLine(p, id);
    var p1 := p.(lastEventId := id);
    BlankLineAtRest(p1);
    FirstDataLine(p1, b);
    var p2 := p1.(current := p1.current.(data := b + "\n"));
    DispatchAssembled(p2, b);
  }

  /** A block whose data is empty dispatches nothing, yet its id line has
      already set the last event id, which the next event carries. */
  lemma DroppedBlockKeepsId(p: ParserState, id: string, b: string)
    requires AtEventStart(p)
    requires NoTerminator(id) && NoTerminator(b)
    requires '\0' !in id && b != []
    ensures Feed(p, Lines(["id: " + id, "", "data: " + b, ""])).pending == p.pending + [Event("message", b, id, NoRetry)]
  {
    PrefixedNoTerminator("id: ", id);
    PrefixedNoTerminator("data: ", b);
    FeedBlock(p, ["id: " + id, "", "data: " + b, ""]);
    DroppedBlockLines(p.(firstFeed := false), id, b);
  }

  /** "\n", "\r\n" and a lone '\r' all end lines: a data line and a blank
      line, ended either way, dispatch the event. */
  lemma AnyTerminator(p: ParserState, data: string, term: string)
    requires AtEventStart(p)
    requires NoTerminator(data) && data != []
    requires term == "\n" || term == "\r\n" || term == "\r"
    ensures Feed(p, "data: " + data + term + term).pending == p.pending + [Event("message", data, p.lastEventId, NoRetry)]
  {
    var line := "data: " + data;
    PrefixedNoTerminator("data: ", data);
    FeedNoBom(p, line + term + term);
    var p0 := p.(firstFeed := false);
    ScanLine(p0, line, term, term);
    DataLine(p0, data);
    DataEventEnd(p0, data, term);
  }

  /** Feeding text that does not start with the first byte of a byte order
      mark to a parser with an empty buffer scans exactly that text. */
  lemma FeedNoBom(p: ParserState, text: string)
    requires p.buffer == [] && text != [] && text[0] != '\U{EF}'
    ensures Feed(p, text) == ScanLines(p.(firstFeed := false), text)
  {
    assert p.buffer + FeedInput(p, text) == text;
  }

  /** The data line processed, a terminator alone dispatches its event. */
  lemma DataEventEnd(p: ParserState, data: string, term: string)
    requires p.current == EmptyEvent && data != []
    requires term == "\n" || term == "\r\n" || term == "\r"
    ensures ScanLines(p.(current := p.current.(data := p.current.data + data + "\n")), term).pending
      == p.pending + [Event("message", data, p.lastEventId, NoRetry)]
  {
    var p1 := p.(current := p.current.(data := p.current.data + data + "\n"));
    assert p.current.data + data + "\n" == data + "\n";
    BlankLineEnd(p1, term);
    DispatchAssembled(p1, data);
  }

  /** A terminator alone is a blank line: it dispatches and leaves nothing buffered. */
  lemma BlankLineEnd(q: ParserState, term: string)
    requires term == "\n" || term == "\r\n" || term == "\r"
    ensures ScanLines(q, term) == Dispatch(q).(buffer := [])
  {
    assert [] + term + [] == term;
    ScanLine(q, [], term, []);
  }

  /** Where splitting "\r\n" between two chunks changes the outcome: the '\r'
      ending the first chunk ends the data line, and the '\n' starting the
      next is read as a blank line that dispatches, while the same bytes fed
      at once make one line end and dispatch nothing. */
  lemma CrLfSplitDiffers(p: ParserState, data: string)
    requires AtEventStart(p)
    requires NoTerminator(data) && data != []
    ensures Feed(p, "data: " + data + "\r\n").pending == p.pending
    ensures Feed(Feed(p, "data: " + data + "\r"), "\n").pending
      == p.pending + [Event("message", data, p.lastEventId, NoRetry)]
  {
    CrLfTogether(p, data);
    CrLfApart(p, data);
  }

  lemma CrLfTogether(p: ParserState, data: string)
    requires AtEventStart(p)
    requires NoTerminator(data) && data != []
    ensures Feed(p, "data: " + data + "\r\n").pending == p.pending
  {
    var line := "data: " + data;
    PrefixedNoTerminator("data: ", data);
    FeedNoBom(p, line + "\r\n");
    assert line + "\r\n" + [] == line + "\r\n";
    ScanLine(p.(firstFeed := false), line, "\r\n", []);
    DataLine(p.(firstFeed := false), data);
  }

  lemma CrLfApart(p: ParserState, data: string)
    requires AtEventStart(p)
    requires NoTerminator(data) && data != []
    ensures Feed(Feed(p, "data: " + data + "\r"), "\n").pending
      == p.pending + [Event("message", data, p.lastEventId, NoRetry)]
  {
    var line := "data: " + data;
    var p0 := p.(firstFeed := false);
    PrefixedNoTerminator("data: ", data);
    FeedNoBom(p, line + "\r");
    assert line + "\r" + [] == line + "\r";
    ScanLine(p0, line, "\r", []);
    DataLine(p0, data);
    var p1 := p0.(current := p0.current.(data := p0.current.data + data + "\n"));
    var q := Feed(p, line + "\r");
    assert q == p1;
    FeedNoBom(q, "\n");
    assert q.(firstFeed := false) == p1;
    DataEventEnd(p0, data, "\n");
  }

  /** A byte order mark split over the first two chunks is not recognised:
      its bytes become part of the first field name, so the data line is
      ignored, while the same bytes in one chunk give the event. */
  lemma BomSplitDiffers(p: ParserState, data: string)
    requires AtEventStart(p) && p.firstFeed
    requires NoTerminator(data) && data != []
    ensures Feed(p, Bom + "data: " + data + "\n\n").pending == p.pending + [Event("message", data, p.lastEventId, NoRetry)]
    ensures Feed(Feed(p, Bom[..1]), Bom[1..] + "data: " + data + "\n\n").pending == p.pending
  {
    BomWhole(p, data);
    BomApart(p, data);
  }

  lemma BomWhole(p: ParserState, data: string)
    requires AtEventStart(p) && p.firstFeed
    requires NoTerminator(data) && data != []
    ensures Feed(p, Bom + "data: " + data + "\n\n").pending == p.pending + [Event("message", data, p.lastEventId, NoRetry)]
  {
    var line := "data: " + data;
    assert Bom + "data: " + data + "\n\n" == Bom + (line + "\n" + "\n");
    assert "data: " + data + "\n" + "\n" == line + "\n" + "\n";
    BomIgnored(p, line + "\n" + "\n");
    AnyTerminator(p.(firstFeed := false), data, "\n");
  }

  lemma BomApart(p: ParserState, data: string)
    requires AtEventStart(p) && p.firstFeed
    requires NoTerminator(data) && data != []
    ensures Feed(Feed(p, Bom[..1]), Bom[1..] + "data: " + data + "\n\n").pending == p.pending
  {
    var name := Bom + "data";
    var q := p.(firstFeed := false, buffer := Bom[..1]);
    BomFirstByte(p);
    BomRestInput(q, data);
    BomNameUnknown();
    PrefixedNoTerminator(name + ": ", data);
    UnknownFieldBlock(q, name, data);
  }

  /** The byte order mark glued to "data" is a field name the parser does not know. */
  lemma BomNameUnknown()
    ensures ':' !in Bom + "data" && Bom + "data" !in {"event", "data", "id", "retry"}
    ensures NoTerminator(Bom + "data" + ": ")
  {
    assert Bom + "data" + ": " == ['\U{EF}', '\U{BB}', '\U{BF}', 'd', 'a', 't', 'a', ':', ' '];
    assert |Bom + "data"| == 7;
    assert forall i :: 0 <= i < 7 ==> (Bom + "data")[i] in {'\U{EF}', '\U{BB}', '\U{BF}', 'd', 'a', 't'};
  }

  /** The first byte of a byte order mark alone is kept in the buffer. */
  lemma BomFirstByte(p: ParserState)
    requires p.buffer == []
    ensures Feed(p, Bom[..1]) == p.(firstFeed := false, buffer := Bom[..1])
  {
    NoTerminatorLineEnd(Bom[..1]);
    assert p.buffer + FeedInput(p, Bom[..1]) == Bom[..1];
  }

  lemma BomRestInput(q: ParserState, data: string)
    requires q.buffer == Bom[..1] && !q.firstFeed
    ensures Feed(q, Bom[1..] + "data: " + data + "\n\n") == ScanLines(q, Bom + "data" + ": " + data + "\n" + "\n")
  {
    assert q.buffer + FeedInput(q, Bom[1..] + "data: " + data + "\n\n") == Bom + "data" + ": " + data + "\n" + "\n";
  }

  /** A field line with an unknown name, then a blank line: nothing happens. */
  lemma UnknownFieldBlock(q: ParserState, name: string, value: string)
    requires q.current == EmptyEvent
    requires name != [] && ':' !in name && name !in {"event", "data", "id", "retry"}
    requires NoTerminator(name + ": " + value)
    ensures ScanLines(q, name + ": " + value + "\n" + "\n").pending == q.pending
  {
    ScanLine(q, name + ": " + value, "\n", "\n");
    UnknownFieldLine(q, name, value);
    BlankLineEnd(q, "\n");
  }
}
