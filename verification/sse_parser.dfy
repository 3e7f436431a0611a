/** The incremental event-stream parser as an object whose five fields every
    operation updates in place. Each method is proved to compute the function
    of the same name in EventStream, where the properties are stated. */
module SseParser {
  import opened Text
  import opened EventStream

  /** The scan for the end of the line that starts at `from`: the position of
      the first '\r' or '\n' at or after `from` (or -1 when there is none) and
      the length of that terminator, two for "\r\n" and one otherwise. */
  method FindLineEnd(s: string, from: nat) returns (lineEnd: int, skip: nat)
    requires from <= |s|
    ensures lineEnd == -1 ==> skip == 0 && forall k :: from <= k < |s| ==> !IsTerminator(s[k])
    ensures lineEnd != -1 ==>
      && from <= lineEnd < |s|
      && IsTerminator(s[lineEnd])
      && (forall k :: from <= k < lineEnd ==> !IsTerminator(s[k]))
      && skip == (if s[lineEnd] == '\r' && lineEnd + 1 < |s| && s[lineEnd + 1] == '\n' then 2 else 1)
  {
    lineEnd, skip := -1, 0;
    for i := from to |s|
      invariant lineEnd == -1 && skip == 0
      invariant forall k :: from <= k < i ==> !IsTerminator(s[k])
    {
      if s[i] == '\r' {
        lineEnd := i;
        skip := if i + 1 < |s| && s[i + 1] == '\n' then 2 else 1;
        break;
      } else if s[i] == '\n' {
        lineEnd := i;
        skip := 1;
        break;
      }
    }
  }

  /** The check a retry value must pass: non-empty and decimal digits only. */
  method CheckDigits(value: string) returns (allDigits: bool)
    ensures allDigits <==> IsDigits(value)
  {
    allDigits := value != [];
    for i := 0 to |value|
      invariant allDigits <==> value != [] && forall k :: 0 <= k < i ==> IsDigit(value[k])
    {
      if !IsDigit(value[i]) {
        allDigits := false;
        break;
      }
    }
  }

  /** One round of the line loop: scanning from pos processes the line up to
      the terminator found there, then goes on after the terminator. */
  lemma ScanStep(p: ParserState, buf: string, pos: nat, lineEnd: nat, skip: nat)
    requires pos <= lineEnd < |buf| && IsTerminator(buf[lineEnd])
    requires forall k :: pos <= k < lineEnd ==> !IsTerminator(buf[k])
    requires skip == (if buf[lineEnd] == '\r' && lineEnd + 1 < |buf| && buf[lineEnd + 1] == '\n' then 2 else 1)
    ensures ScanLines(p, buf[pos..]) == ScanLines(EventStream.ProcessLine(p, buf[pos..lineEnd]), buf[lineEnd + skip..])
  {
    var s := buf[pos..];
    var e := lineEnd - pos;
    FirstTerminator(buf, pos, lineEnd);
    assert TerminatorLength(s, e) == skip;
    ScanLinesStep(p, s, e, skip);
    assert buf[pos..lineEnd] == s[..e];
    assert buf[lineEnd + skip..] == s[e + skip..];
  }

  /** The first terminator at or after pos ends the line that starts at pos. */
  lemma FirstTerminator(buf: string, pos: nat, lineEnd: nat)
    requires pos <= lineEnd < |buf| && IsTerminator(buf[lineEnd])
    requires forall k :: pos <= k < lineEnd ==> !IsTerminator(buf[k])
    ensures LineEnd(buf[pos..]) == lineEnd - pos
  {
    var s := buf[pos..];
    assert s[lineEnd - pos] == buf[lineEnd];
    LineEndAtFirst(s, lineEnd - pos);
  }

  /** The loop invariant of ScanBuffer survives processing the line at pos. */
  lemma ScanKeeps(p0: ParserState, p: ParserState, buf: string, pos: nat, lineEnd: nat, skip: nat)
    requires pos <= lineEnd < |buf| && IsTerminator(buf[lineEnd])
    requires forall k :: pos <= k < lineEnd ==> !IsTerminator(buf[k])
    requires skip == (if buf[lineEnd] == '\r' && lineEnd + 1 < |buf| && buf[lineEnd + 1] == '\n' then 2 else 1)
    requires ScanLines(p, buf[pos..]) == ScanLines(p0, buf)
    ensures ScanLines(EventStream.ProcessLine(p, buf[pos..lineEnd]), buf[lineEnd + skip..]) == ScanLines(p0, buf)
  {
    ScanStep(p, buf, pos, lineEnd, skip);
  }

  /** The loop stops when no terminator is left: the rest becomes the buffer. */
  lemma ScanDone(p: ParserState, buf: string, pos: nat)
    requires pos <= |buf|
    requires forall k :: pos <= k < |buf| ==> !IsTerminator(buf[k])
    ensures ScanLines(p, buf[pos..]) == p.(buffer := buf[pos..])
  {
    var s := buf[pos..];
    assert LineEnd(s) == |s|;
  }

  class SSEParser {
    var buffer: string
    var current: Event
    var pending: seq<Event>
    var lastEventId: string
    var firstFeed: bool

    /** The value of the five fields. */
    function State(): ParserState
      reads this
    {
      ParserState(buffer, current, pending, lastEventId, firstFeed)
    }

    constructor()
      ensures State() == Initial
    {
      buffer := "";
      current := EmptyEvent;
      pending := [];
      lastEventId := "";
      firstFeed := true;
    }

    method Feed(chunk: string)
      modifies this
      ensures State() == EventStream.Feed(old(State()), chunk)
    {
      var input := chunk;
      if firstFeed {
        firstFeed := false;
        if |input| >= 3 && input[0] == '\U{EF}' && input[1] == '\U{BB}' && input[2] == '\U{BF}' {
          input := input[3..];
        }
      }
      assert input == FeedInput(old(State()), chunk);
      buffer := buffer + input;
      ScanBuffer();
      ScanLinesIgnoresBuffer(old(State()).(firstFeed := false), old(buffer) + input, old(buffer) + input);
    }

    /** The line loop of feed: every complete line of the buffer is processed
        in order and the buffer keeps only what follows the last terminator. */
    method ScanBuffer()
      modifies this
      ensures State() == ScanLines(old(State()), old(buffer))
    {
      ghost var p0 := State();
      var buf := buffer;
      var pos := 0;
      assert buf[pos..] == buf;
      while pos < |buf|
        invariant pos <= |buf|
        invariant ScanLines(State(), buf[pos..]) == ScanLines(p0, buf)
      {
        var lineEnd, skip := FindLineEnd(buf, pos);
        if lineEnd == -1 {
          break;
        }
        ScanKeeps(p0, State(), buf, pos, lineEnd, skip);
        ProcessLine(buf[pos..lineEnd]);
        pos := lineEnd + skip;
      }
      ScanDone(State(), buf, pos);
      buffer := buf[pos..];
    }

    method ProcessLine(line: string)
      modifies this
      ensures State() == EventStream.ProcessLine(old(State()), line)
    {
      if line == [] {
        DispatchEvent();
        return;
      }
      if line[0] == ':' {
        return;
      }
      var field, value;
      var colonPos := IndexOf(line, ':');
      if colonPos.None? {
        field, value := line, "";
      } else {
        var colon := colonPos.value;
        field := line[..colon];
        var valueStart := colon + 1;
        if valueStart < |line| && line[valueStart] == ' ' {
          valueStart := valueStart + 1;
        }
        value := line[valueStart..];
      }
      if field == "event" {
        current := current.(eventType := value);
      } else if field == "data" {
        current := current.(data := current.data + value + "\n");
      } else if field == "id" {
        if '\0' !in value {
          lastEventId := value;
        }
      } else if field == "retry" {
        var allDigits := CheckDigits(value);
        if allDigits {
          current := current.(retryMs := DecimalValue(value));
        }
      }
    }

    method DispatchEvent()
      modifies this
      ensures State() == Dispatch(old(State()))
    {
      if current.data != [] && current.data[|current.data| - 1] == '\n' {
        current := current.(data := current.data[..|current.data| - 1]);
      }
      if current.data == [] {
        current := EmptyEvent;
        return;
      }
      if current.eventType == [] {
        current := current.(eventType := "message");
      }
      current := current.(id := lastEventId);
      pending := pending + [current];
      current := EmptyEvent;
    }

    /** Hands over the queue in dispatch order and leaves it empty. */
    method TakeEvents() returns (events: seq<Event>)
      modifies this
      ensures events == old(pending)
      ensures State() == old(State()).(pending := [])
    {
      events := pending;
      pending := [];
    }

    method HasEvents() returns (b: bool)
      ensures b <==> pending != []
    {
      b := pending != [];
    }

    /** Back to the state of a newly constructed parser. */
    method Reset()
      modifies this
      ensures State() == Initial
    {
      buffer := "";
      current := EmptyEvent;
      pending := [];
      lastEventId := "";
      firstFeed := true;
    }
  }
}
