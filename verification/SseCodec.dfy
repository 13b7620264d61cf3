/** Server-sent events between the backend and the page: the printer (api/routes_chat.py, api/routes_tasks.py)
    and the incremental reader (frontend/app.js). The wire format is that of sections 9.2.5 and 9.2.6 of the
    WHATWG HTML Living Standard; payloads are kept as text, and which texts are payloads is a parameter. */
module SseCodec {
  import opened Wrappers

  datatype Event = Event(name: string, data: string)

  // ---------------------------------------------------------------- cutting text

  /** The length of a line end (CR LF or LF) at position i, 0 if there is none. */
  function LineEnd(s: string, i: nat): (n: nat)
    ensures n > 0 ==> i + n <= |s| && s[i + n - 1] == '\n'
  {
    if i + 1 < |s| && s[i] == '\r' && s[i + 1] == '\n' then 2
    else if i < |s| && s[i] == '\n' then 1
    else 0
  }

  /** The length of a block end, two line ends in a row, at position i, 0 if there is none. */
  function BlockEnd(s: string, i: nat): (n: nat)
    ensures n > 0 ==> i + n <= |s|
  {
    var first := LineEnd(s, i);
    var second := LineEnd(s, i + first);
    if first > 0 && second > 0 then first + second else 0
  }

  /** The first block end at or after i, |s| if there is none. */
  function FirstBlockEnd(s: string, i: nat): (k: nat)
    requires i <= |s|
    ensures i <= k <= |s| && (k < |s| ==> BlockEnd(s, k) > 0)
    ensures forall j :: i <= j < k ==> BlockEnd(s, j) == 0
    decreases |s| - i
  {
    if i == |s| || BlockEnd(s, i) > 0 then i else FirstBlockEnd(s, i + 1)
  }

  /** The text cut at every block end, leftmost first; never empty. */
  function SplitBlocks(s: string): (r: seq<string>)
    ensures |r| > 0
    decreases |s|
  {
    var k := FirstBlockEnd(s, 0);
    if k == |s| then [s] else [s[..k]] + SplitBlocks(s[k + BlockEnd(s, k)..])
  }

  function FirstLineEnd(s: string, i: nat): (k: nat)
    requires i <= |s|
    ensures i <= k <= |s| && (k < |s| ==> LineEnd(s, k) > 0)
    ensures forall j :: i <= j < k ==> LineEnd(s, j) == 0
    decreases |s| - i
  {
    if i == |s| || LineEnd(s, i) > 0 then i else FirstLineEnd(s, i + 1)
  }

  function SplitLines(s: string): (r: seq<string>)
    ensures |r| > 0
    decreases |s|
  {
    var k := FirstLineEnd(s, 0);
    if k == |s| then [s] else [s[..k]] + SplitLines(s[k + LineEnd(s, k)..])
  }

  // ---------------------------------------------------------------- chunks

  lemma BlockEndInPrefix(a: string, b: string, i: nat)
    requires BlockEnd(a, i) > 0
    ensures BlockEnd(a + b, i) == BlockEnd(a, i)
  {
    LineEndInPrefix(a, b, i);
    LineEndInPrefix(a, b, i + LineEnd(a, i));
  }

  lemma LineEndInPrefix(a: string, b: string, i: nat)
    requires LineEnd(a, i) > 0
    ensures LineEnd(a + b, i) == LineEnd(a, i)
  {
  }

  /** No block end that only later text completes can start before one that is complete: it would hold a
      third line feed. */
  lemma NoEarlierBlockEnd(a: string, b: string, i: nat, j: nat)
    requires i < j && BlockEnd(a, i) == 0 && BlockEnd(a, j) > 0
    ensures BlockEnd(a + b, i) == 0
  {
  }

  lemma FirstBlockEndStable(a: string, b: string)
    requires FirstBlockEnd(a, 0) < |a|
    ensures var k := FirstBlockEnd(a, 0);
            FirstBlockEnd(a + b, 0) == k && BlockEnd(a + b, k) == BlockEnd(a, k)
  {
    var k := FirstBlockEnd(a, 0);
    BlockEndInPrefix(a, b, k);
    forall i | 0 <= i < k ensures BlockEnd(a + b, i) == 0 {
      NoEarlierBlockEnd(a, b, i, k);
    }
  }

  function Init<T>(s: seq<T>): seq<T> requires |s| > 0 { s[..|s| - 1] }

  function Last<T>(s: seq<T>): T requires |s| > 0 { s[|s| - 1] }

  lemma CutOnce(s: string, k: nat, m: nat)
    requires k < |s| && k == FirstBlockEnd(s, 0) && m == BlockEnd(s, k)
    ensures SplitBlocks(s) == [s[..k]] + SplitBlocks(s[k + m..])
  {
  }

  lemma Prefixed<T>(x: T, r: seq<T>)
    requires |r| > 0
    ensures Init([x] + r) == [x] + Init(r) && Last([x] + r) == Last(r)
  {
  }

  lemma Slices(a: string, b: string, k: nat, m: nat)
    requires k + m <= |a|
    ensures (a + b)[..k] == a[..k] && (a + b)[k + m..] == a[k + m..] + b
  {
  }

  /** Cutting what has arrived, and later the uncut rest together with what follows, cuts the whole. */
  lemma {:induction false} SplitBlocksAppend(a: string, b: string)
    ensures SplitBlocks(a + b) == Init(SplitBlocks(a)) + SplitBlocks(Last(SplitBlocks(a)) + b)
    decreases |a|
  {
    var k := FirstBlockEnd(a, 0);
    if k == |a| {
      assert SplitBlocks(a) == [a];
    } else {
      var m := BlockEnd(a, k);
      FirstBlockEndStable(a, b);
      CutOnce(a, k, m);
      CutOnce(a + b, k, m);
      hide *;
      var rest := a[k + m..];
      Slices(a, b, k, m);
      SplitBlocksAppend(rest, b);
      Prefixed(a[..k], SplitBlocks(rest));
    }
  }

  // ---------------------------------------------------------------- one block

  function IndexOf(s: string, c: char): (i: nat)
    ensures i <= |s| && (i < |s| ==> s[i] == c) && (forall j :: 0 <= j < i ==> s[j] != c)
  {
    if s == "" || s[0] == c then 0 else 1 + IndexOf(s[1..], c)
  }

  /** A field line: its name, and its value without the one optional leading space. */
  function FieldName(line: string): string { line[..IndexOf(line, ':')] }

  function FieldValue(line: string): string
  {
    var i := IndexOf(line, ':');
    var raw := if i == |line| then "" else line[i + 1..];
    if raw != "" && raw[0] == ' ' then raw[1..] else raw
  }

  predicate IsField(line: string, name: string)
  {
    line != "" && line[0] != ':' && FieldName(line) == name
  }

  /** The value of the last event line. */
  function EventName(lines: seq<string>): string
  {
    if lines == [] then "message"
    else if IsField(Last(lines), "event") then FieldValue(Last(lines))
    else EventName(Init(lines))
  }

  /** The values of the data lines, in order. */
  function DataLines(lines: seq<string>): seq<string>
  {
    if lines == [] then []
    else DataLines(Init(lines)) + if IsField(Last(lines), "data") then [FieldValue(Last(lines))] else []
  }

  function Join(lines: seq<string>): string
  {
    if lines == [] then ""
    else if |lines| == 1 then lines[0]
    else Join(Init(lines)) + "\n" + Last(lines)
  }

  /** The event a block stands for, its payload not yet decoded. */
  function ParseBlock(block: string): Option<Event>
  {
    var lines := SplitLines(block);
    if DataLines(lines) == [] then None else Some(Event(EventName(lines), Join(DataLines(lines))))
  }

  lemma OneMoreLine(lines: seq<string>, i: nat)
    requires i < |lines|
    ensures EventName(lines[..i + 1])
            == if IsField(lines[i], "event") then FieldValue(lines[i]) else EventName(lines[..i])
    ensures DataLines(lines[..i + 1])
            == DataLines(lines[..i]) + if IsField(lines[i], "data") then [FieldValue(lines[i])] else []
  {
    hide IsField, FieldValue;
    assert Init(lines[..i + 1]) == lines[..i] && Last(lines[..i + 1]) == lines[i];
  }

  /** The loop body of `parseSseBlock`. */
  method ParseLine(line: string, eventName: string, dataLines: seq<string>) returns (name: string, data: seq<string>)
    ensures name == if IsField(line, "event") then FieldValue(line) else eventName
    ensures data == dataLines + if IsField(line, "data") then [FieldValue(line)] else []
  {
    name, data := eventName, dataLines;
    if line == "" || line[0] == ':' {
      return;
    }
    var separator := IndexOf(line, ':');
    var field := if separator == |line| then line else line[..separator];
    var rawValue := if separator == |line| then "" else line[separator + 1..];
    var value := if rawValue != "" && rawValue[0] == ' ' then rawValue[1..] else rawValue;
    assert field == FieldName(line) && value == FieldValue(line);
    if field == "event" {
      name := value;
    }
    if field == "data" {
      data := data + [value];
    }
  }

  /** What `parseSseBlock` does: decoding a payload may throw. */
  datatype Parsed = NoEvent | Decoded(event: Event) | Throws

  function Decode(e: Option<Event>, decodes: string -> bool): Parsed
  {
    if e.None? then NoEvent else if decodes(e.value.data) then Decoded(e.value) else Throws
  }

  /** `parseSseBlock`; decodes tells the texts that `JSON.parse` accepts. */
  method ParseSseBlock(block: string, decodes: string -> bool) returns (r: Parsed)
    ensures r == Decode(ParseBlock(block), decodes)
  {
    hide SplitLines, EventName, DataLines, IsField, FieldValue, Join;
    var lines := SplitLines(block);
    var eventName := "message";
    var dataLines: seq<string> := [];
    NoLines();
    assert lines[..0] == [];
    for i := 0 to |lines|
      invariant eventName == EventName(lines[..i]) && dataLines == DataLines(lines[..i])
    {
      OneMoreLine(lines, i);
      eventName, dataLines := ParseLine(lines[i], eventName, dataLines);
    }
    assert lines[..|lines|] == lines;
    if dataLines == [] {
      return NoEvent;
    }
    var data := Join(dataLines);
    r := if decodes(data) then Decoded(Event(eventName, data)) else Throws;
  }

  lemma NoLines()
    ensures EventName([]) == "message" && DataLines([]) == []
  {
  }

  // ---------------------------------------------------------------- the whole stream

  function ParseBlocks(blocks: seq<string>): seq<Event>
  {
    if blocks == [] then []
    else
      var e := ParseBlock(Last(blocks));
      ParseBlocks(Init(blocks)) + if e.Some? then [e.value] else []
  }

  predicate Trimmable(c: char)
  {
    c == ' ' || '\t' <= c <= '\r' || c == '\U{a0}' || c == '\U{1680}' || '\U{2000}' <= c <= '\U{200a}'
    || c == '\U{2028}' || c == '\U{2029}' || c == '\U{202f}' || c == '\U{205f}' || c == '\U{3000}' || c == '\U{feff}'
  }

  function Trim(s: string): string
    decreases |s|
  {
    if s != "" && Trimmable(s[0]) then Trim(s[1..])
    else if s != "" && Trimmable(Last(s)) then Trim(Init(s))
    else s
  }

  /** What one look at the whole text delivers: an event for every block with data, and one for the rest after
      the last block end, trimmed, if it is not blank. */
  function ReadWhole(text: string): seq<Event>
  {
    var blocks := SplitBlocks(text);
    var tail := Trim(Last(blocks));
    ParseBlocks(Init(blocks)) + if tail != "" && ParseBlock(tail).Some? then [ParseBlock(tail).value] else []
  }

  function Concat(chunks: seq<string>): string
  {
    if chunks == [] then "" else Concat(Init(chunks)) + Last(chunks)
  }

  lemma {:induction false} ParseBlocksAppend(a: seq<string>, b: seq<string>)
    ensures ParseBlocks(a + b) == ParseBlocks(a) + ParseBlocks(b)
    decreases |b|
  {
    if b == [] {
      assert a + b == a;
    } else {
      assert Init(a + b) == a + Init(b);
      ParseBlocksAppend(a, Init(b));
    }
  }

  /** The state of the reader after some chunks, for any way of cutting the text. */
  lemma OneMoreChunk(arrived: string, chunk: string)
    ensures var blocks := SplitBlocks(Last(SplitBlocks(arrived)) + chunk);
            && Last(SplitBlocks(arrived + chunk)) == Last(blocks)
            && ParseBlocks(Init(SplitBlocks(arrived + chunk)))
               == ParseBlocks(Init(SplitBlocks(arrived))) + ParseBlocks(Init(blocks))
  {
    SplitBlocksAppend(arrived, chunk);
    var blocks := SplitBlocks(Last(SplitBlocks(arrived)) + chunk);
    assert Init(SplitBlocks(arrived + chunk)) == Init(SplitBlocks(arrived)) + Init(blocks);
    ParseBlocksAppend(Init(SplitBlocks(arrived)), Init(blocks));
  }

  // ---------------------------------------------------------------- delivery

  /** What reaches the callback: the events before the first one whose payload does not decode. */
  function Delivered(events: seq<Event>, decodes: string -> bool): (r: seq<Event>)
    ensures r <= events && forall i :: 0 <= i < |r| ==> decodes(events[i].data)
    ensures |r| < |events| ==> !decodes(events[|r|].data)
  {
    if events == [] then []
    else
      var before := Delivered(Init(events), decodes);
      if |before| == |events| - 1 && decodes(Last(events).data) then events else before
  }

  lemma DeliveredAll(events: seq<Event>, decodes: string -> bool)
    ensures Delivered(events, decodes) == events <==> forall e :: e in events ==> decodes(e.data)
  {
  }

  /** What has stopped the reader still stops it when more has arrived. */
  lemma DeliveredStays(events: seq<Event>, more: seq<Event>, decodes: string -> bool)
    requires Delivered(events, decodes) != events
    ensures Delivered(events + more, decodes) == Delivered(events, decodes) != events + more
  {
    var d := Delivered(events, decodes);
    DeliveredUpTo(events + more, |d|, decodes);
  }

  lemma DeliveredUpTo(events: seq<Event>, n: nat, decodes: string -> bool)
    requires n < |events| && !decodes(events[n].data) && forall i :: 0 <= i < n ==> decodes(events[i].data)
    ensures Delivered(events, decodes) == events[..n]
  {
    hide Delivered;
  }

  lemma DeliveredOneMore(events: seq<Event>, e: Event, decodes: string -> bool)
    requires Delivered(events, decodes) == events
    ensures Delivered(events + [e], decodes) == if decodes(e.data) then events + [e] else events
  {
    assert Init(events + [e]) == events && Last(events + [e]) == e;
  }

  /** The loop over the complete blocks of one chunk. */
  method DeliverBlocks(blocks: seq<string>, delivered: seq<Event>, decodes: string -> bool)
    returns (events: seq<Event>, threw: bool)
    requires Delivered(delivered, decodes) == delivered
    ensures events == Delivered(delivered + ParseBlocks(blocks), decodes)
    ensures threw <==> events != delivered + ParseBlocks(blocks)
  {
    hide ParseBlock, Delivered;
    events, threw := delivered, false;
    assert delivered + ParseBlocks([]) == delivered && blocks[..0] == [];
    for j := 0 to |blocks|
      invariant events == delivered + ParseBlocks(blocks[..j]) == Delivered(events, decodes) && !threw
    {
      OneMoreBlock(blocks, j, delivered);
      var parsed := ParseSseBlock(blocks[j], decodes);
      if !parsed.NoEvent? {
        DeliveredOneMore(events, ParseBlock(blocks[j]).value, decodes);
        if parsed.Throws? {
          StoppedAt(blocks, j + 1, delivered, decodes);
          return events, true;
        }
        events := events + [parsed.event];
      }
    }
    assert blocks[..|blocks|] == blocks;
  }

  lemma OneMoreBlock(blocks: seq<string>, j: nat, delivered: seq<Event>)
    requires j < |blocks|
    ensures var e := ParseBlock(blocks[j]);
            delivered + ParseBlocks(blocks[..j + 1])
            == delivered + ParseBlocks(blocks[..j]) + if e.Some? then [e.value] else []
  {
    hide ParseBlock;
    assert Init(blocks[..j + 1]) == blocks[..j] && Last(blocks[..j + 1]) == blocks[j];
  }

  lemma StoppedAt(blocks: seq<string>, j: nat, delivered: seq<Event>, decodes: string -> bool)
    requires j <= |blocks|
    requires var events := delivered + ParseBlocks(blocks[..j]); Delivered(events, decodes) != events
    ensures var all := delivered + ParseBlocks(blocks);
            Delivered(delivered + ParseBlocks(blocks[..j]), decodes) == Delivered(all, decodes) != all
  {
    hide Delivered, ParseBlock;
    ParseBlocksAppend(blocks[..j], blocks[j..]);
    assert blocks[..j] + blocks[j..] == blocks;
    var events := delivered + ParseBlocks(blocks[..j]);
    assert delivered + ParseBlocks(blocks) == events + ParseBlocks(blocks[j..]);
    DeliveredStays(events, ParseBlocks(blocks[j..]), decodes);
  }

  lemma OneMore(chunks: seq<string>, i: nat)
    requires i < |chunks|
    ensures Concat(chunks[..i + 1]) == Concat(chunks[..i]) + chunks[i]
  {
    assert Init(chunks[..i + 1]) == chunks[..i] && Last(chunks[..i + 1]) == chunks[i];
  }

  /** The events of the complete blocks that have arrived. */
  function Arrived(text: string): seq<Event> { ParseBlocks(Init(SplitBlocks(text))) }

  lemma ArrivedFirst(chunks: seq<string>, i: nat) returns (more: seq<Event>)
    requires i <= |chunks|
    ensures ReadWhole(Concat(chunks)) == Arrived(Concat(chunks[..i])) + more
    decreases |chunks| - i
  {
    hide *;
    if i == |chunks| {
      assert chunks[..i] == chunks;
      TailRead(Concat(chunks));
      more := ReadWhole(Concat(chunks))[|Arrived(Concat(chunks))|..];
    } else {
      more := ArrivedFirst(chunks, i + 1);
      OneMore(chunks, i);
      OneMoreArrived(Concat(chunks[..i]), chunks[i]);
      var blocks := SplitBlocks(Last(SplitBlocks(Concat(chunks[..i]))) + chunks[i]);
      assert Arrived(Concat(chunks[..i])) + ParseBlocks(Init(blocks)) + more
             == Arrived(Concat(chunks[..i])) + (ParseBlocks(Init(blocks)) + more);
      more := ParseBlocks(Init(blocks)) + more;
    }
  }

  lemma OneMoreArrived(arrived: string, chunk: string)
    ensures var blocks := SplitBlocks(Last(SplitBlocks(arrived)) + chunk);
            && Last(SplitBlocks(arrived + chunk)) == Last(blocks)
            && Arrived(arrived + chunk) == Arrived(arrived) + ParseBlocks(Init(blocks))
  {
    hide SplitBlocks, ParseBlocks, Last, Init;
    OneMoreChunk(arrived, chunk);
  }

  /** `readSseResponse`: the events handed to the callback are those of the whole text, wherever it is cut, up
      to the first whose payload does not decode; reading ends there, and only there. */
  method ReadSseResponse(chunks: seq<string>, decodes: string -> bool) returns (events: seq<Event>, threw: bool)
    ensures events == Delivered(ReadWhole(Concat(chunks)), decodes)
    ensures threw <==> events != ReadWhole(Concat(chunks))
  {
    hide *;
    var buffer := "";
    events, threw := [], false;
    NothingArrived(decodes);
    assert chunks[..0] == [];
    for i := 0 to |chunks|
      invariant buffer == Last(SplitBlocks(Concat(chunks[..i])))
      invariant events == Arrived(Concat(chunks[..i])) == Delivered(events, decodes) && !threw
    {
      OneMore(chunks, i);
      OneMoreArrived(Concat(chunks[..i]), chunks[i]);
      var blocks := SplitBlocks(buffer + chunks[i]);
      buffer := Last(blocks);
      events, threw := DeliverBlocks(Init(blocks), events, decodes);
      if threw {
        ghost var more := ArrivedFirst(chunks, i + 1);
        DeliveredStays(Arrived(Concat(chunks[..i + 1])), more, decodes);
        return;
      }
    }
    assert chunks[..|chunks|] == chunks;
    var tail := Trim(buffer);
    TailRead(Concat(chunks));
    if tail != "" {
      var parsed := ParseSseBlock(tail, decodes);
      DecodeMeans(ParseBlock(tail), decodes);
      if !parsed.NoEvent? {
        DeliveredOneMore(events, ParseBlock(tail).value, decodes);
        if parsed.Throws? {
          threw := true;
        } else {
          events := events + [parsed.event];
        }
      }
    }
  }

  lemma DecodeMeans(e: Option<Event>, decodes: string -> bool)
    ensures Decode(e, decodes).NoEvent? <==> e.None?
    ensures Decode(e, decodes).Throws? <==> e.Some? && !decodes(e.value.data)
    ensures Decode(e, decodes).Decoded? ==> Some(Decode(e, decodes).event) == e
  {
  }

  lemma TailRead(text: string)
    ensures var tail := Trim(Last(SplitBlocks(text)));
            ReadWhole(text)
            == if tail != "" && ParseBlock(tail).Some? then Arrived(text) + [ParseBlock(tail).value] else Arrived(text)
  {
  }

  lemma NothingArrived(decodes: string -> bool)
    ensures Concat([]) == "" && Last(SplitBlocks("")) == "" && Arrived("") == [] && Delivered([], decodes) == []
  {
    assert SplitBlocks("") == [""];
  }

  // ---------------------------------------------------------------- the printer

  /** The two lines of a printed event. */
  function EventLine(e: Event): string { "event: " + e.name }

  function DataLine(e: Event): string { "data: " + e.data }

  /** `_sse_event`, for a payload already encoded. */
  function SseEvent(e: Event): string { EventLine(e) + "\n" + DataLine(e) + "\n\n" }

  function Print(events: seq<Event>): string
  {
    if events == [] then "" else SseEvent(events[0]) + Print(events[1..])
  }

  /** Fits on one line: no line feed, and no carriage return before the line end. */
  predicate OneLine(s: string) { (forall i :: 0 <= i < |s| ==> s[i] != '\n') && (s != "" ==> Last(s) != '\r') }

  lemma LinesOf(a: string, b: string)
    requires OneLine(a) && OneLine(b)
    ensures SplitLines(a + "\n" + b) == [a, b]
  {
    var s := a + "\n" + b;
    assert LineEnd(s, |a|) == 1;
    forall j | 0 <= j < |a| ensures LineEnd(s, j) == 0 {
    }
    assert s[..|a|] == a && s[|a| + 1..] == b;
    assert FirstLineEnd(b, 0) == |b|;
  }

  lemma FieldOf(name: string, value: string)
    requires name != "" && forall i :: 0 <= i < |name| ==> name[i] != ':'
    ensures FieldName(name + ": " + value) == name && FieldValue(name + ": " + value) == value
  {
    var line := name + ": " + value;
    assert line[|name|] == ':';
    assert IndexOf(line, ':') == |name|;
    assert line[|name| + 1..] == " " + value;
  }

  lemma LinesParsed(a: string, b: string, name: string, data: string)
    requires IsField(a, "event") && FieldValue(a) == name && IsField(b, "data") && FieldValue(b) == data
    ensures EventName([a, b]) == name && DataLines([a, b]) == [data]
  {
    var lines := [a, b];
    assert Init(lines) == [a] && Last(lines) == b && Init([a]) == [] && Last([a]) == a;
    assert !IsField(b, "event") && !IsField(a, "data");
    assert EventName(lines) == EventName([a]);
    assert DataLines([a]) == DataLines([]);
  }

  lemma OneLineAfter(prefix: string, s: string)
    requires OneLine(prefix) && OneLine(s)
    ensures OneLine(prefix + s)
  {
    if s != "" {
      assert Last(prefix + s) == Last(s);
    } else {
      assert prefix + s == prefix;
    }
  }

  lemma BlockOf(e: Event)
    requires OneLine(e.name) && OneLine(e.data)
    ensures ParseBlock(EventLine(e) + "\n" + DataLine(e)) == Some(e)
  {
    FieldOf("event", e.name);
    FieldOf("data", e.data);
    assert "event" + ": " == "event: " && "data" + ": " == "data: ";
    OneLineAfter("event: ", e.name);
    OneLineAfter("data: ", e.data);
    var a, b := EventLine(e), DataLine(e);
    assert a[0] == 'e' && b[0] == 'd';
    hide SplitLines, FieldName, FieldValue;
    LinesOf(a, b);
    LinesParsed(a, b, e.name, e.data);
  }

  lemma CutAfterBlock(a: string, b: string, rest: string)
    requires OneLine(a) && OneLine(b) && b != "" && b[0] != '\r'
    ensures SplitBlocks(a + "\n" + b + "\n\n" + rest) == [a + "\n" + b] + SplitBlocks(rest)
  {
    var block := a + "\n" + b;
    var s := block + "\n\n" + rest;
    assert s[|a|] == '\n' && s[|a| + 1] == b[0];
    assert s[|block|] == '\n' && s[|block| + 1] == '\n';
    assert s[|block| - 1] == Last(b) && (|a| > 0 ==> s[|a| - 1] == Last(a));
    forall j | 0 <= j < |block| ensures BlockEnd(s, j) == 0 {
      LineFeedAt(a, b, rest, j);
    }
    assert BlockEnd(s, |block|) == 2;
    assert FirstBlockEnd(s, 0) == |block|;
    CutOnce(s, |block|, 2);
    assert s[..|block|] == block && s[|block| + 2..] == rest;
  }

  lemma LineFeedAt(a: string, b: string, rest: string, j: nat)
    requires OneLine(a) && OneLine(b) && j < |a| + 1 + |b|
    ensures (a + "\n" + b + "\n\n" + rest)[j] == '\n' ==> j == |a|
  {
    var s := a + "\n" + b + "\n\n" + rest;
    if j < |a| {
      assert s[j] == a[j];
    } else if j > |a| {
      assert s[j] == b[j - |a| - 1];
    }
  }

  lemma PrintedFirst(e: Event, rest: string)
    requires OneLine(e.name) && OneLine(e.data)
    ensures SplitBlocks(SseEvent(e) + rest) == [EventLine(e) + "\n" + DataLine(e)] + SplitBlocks(rest)
  {
    OneLineAfter("event: ", e.name);
    OneLineAfter("data: ", e.data);
    CutAfterBlock(EventLine(e), DataLine(e), rest);
  }

  lemma {:induction false} PrintedBlocks(events: seq<Event>)
    requires forall e :: e in events ==> OneLine(e.name) && OneLine(e.data)
    ensures Last(SplitBlocks(Print(events))) == "" && ParseBlocks(Init(SplitBlocks(Print(events)))) == events
  {
    if events == [] {
    } else {
      var e, rest := events[0], Print(events[1..]);
      var block := EventLine(e) + "\n" + DataLine(e);
      PrintedBlocks(events[1..]);
      PrintedFirst(e, rest);
      BlockOf(e);
      hide SplitBlocks, ParseBlock, EventLine, DataLine, SseEvent, OneLine;
      Prefixed(block, SplitBlocks(rest));
      ParseBlocksAppend([block], Init(SplitBlocks(rest)));
      OneBlock(block, e);
      assert [e] + events[1..] == events;
    }
  }

  lemma OneBlock(block: string, e: Event)
    requires ParseBlock(block) == Some(e)
    ensures ParseBlocks([block]) == [e]
  {
    assert Init([block]) == [];
  }

  /** Printed events, cut anywhere on the way, are delivered as they were, in order and nothing else. */
  lemma RoundTrip(events: seq<Event>, chunks: seq<string>, decodes: string -> bool)
    requires forall e :: e in events ==> OneLine(e.name) && OneLine(e.data)
    requires Concat(chunks) == Print(events)
    ensures ReadWhole(Concat(chunks)) == events
    ensures (forall e :: e in events ==> decodes(e.data)) ==> Delivered(ReadWhole(Concat(chunks)), decodes) == events
  {
    PrintedBlocks(events);
    DeliveredAll(events, decodes);
  }

  lemma NoBlockEnd(a: string, b: string)
    requires OneLine(a) && OneLine(b) && b != "" && b[0] != '\r'
    ensures SplitBlocks(a + "\n" + b) == [a + "\n" + b]
  {
    var s := a + "\n" + b;
    assert s[|a|] == '\n' && s[|a| + 1] == b[0];
    forall j | 0 <= j < |s| ensures BlockEnd(s, j) == 0 {
      assert j < |a| ==> s[j] == a[j];
      assert j > |a| ==> s[j] == b[j - |a| - 1];
    }
    assert FirstBlockEnd(s, 0) == |s|;
  }

  /** The text without the blanks at its end. */
  function TrimEnd(s: string): (r: string)
    ensures r == s <==> s == "" || !Trimmable(Last(s))
    ensures r <= s && (r != "" ==> !Trimmable(Last(r)))
  {
    if s != "" && Trimmable(Last(s)) then TrimEnd(Init(s)) else s
  }

  lemma {:induction false} TrimLine(line: string, s: string)
    requires line != "" && !Trimmable(line[0]) && !Trimmable(Last(line))
    ensures Trim(line + s) == line + TrimEnd(s)
    decreases |s|
  {
    if s == "" {
      assert line + s == line;
    } else {
      assert Last(line + s) == Last(s) && Init(line + s) == line + Init(s);
      if Trimmable(Last(s)) {
        TrimLine(line, Init(s));
      }
    }
  }

  lemma {:induction false} TrimEndAfterBlank(s: string)
    ensures TrimEnd(" " + s) == if TrimEnd(s) == "" then "" else " " + TrimEnd(s)
  {
    if s == "" {
      assert Init(" ") == "" && TrimEnd("") == "";
      assert " " + s == " ";
    } else {
      assert Last(" " + s) == Last(s) && Init(" " + s) == " " + Init(s);
      if Trimmable(Last(s)) {
        TrimEndAfterBlank(Init(s));
      }
    }
  }

  lemma TailTrimmed(e: Event)
    ensures var line, data := EventLine(e) + "\n" + "data:", TrimEnd(e.data);
            Trim(EventLine(e) + "\n" + DataLine(e)) == if data == "" then line else line + " " + data
  {
    var line := EventLine(e) + "\n" + "data:";
    assert EventLine(e) + "\n" + DataLine(e) == line + (" " + e.data);
    assert line[0] == EventLine(e)[0] == 'e' && Last(line) == ':';
    hide TrimEnd, EventLine, DataLine;
    TrimLine(line, " " + e.data);
    TrimEndAfterBlank(e.data);
    assert line + "" == line;
    assert line + (" " + TrimEnd(e.data)) == line + " " + TrimEnd(e.data);
  }

  /** What stays in the buffer when the closing line feeds are missing, and what becomes of it. */
  lemma OpenBlock(e: Event)
    requires OneLine(e.name) && OneLine(e.data)
    ensures var tail := EventLine(e) + "\n" + DataLine(e);
            && SplitBlocks(tail) == [tail] && Trim(tail) != ""
            && ParseBlock(Trim(tail)) == Some(e.(data := TrimEnd(e.data)))
  {
    hide SplitBlocks, Trim, TrimEnd, ParseBlock;
    OneLineAfter("event: ", e.name);
    OneLineAfter("data: ", e.data);
    NoBlockEnd(EventLine(e), DataLine(e));
    TailTrimmed(e);
    TrimmedIsOneLine(e.data);
    var d := e.(data := TrimEnd(e.data));
    if d.data == "" {
      EmptyDataBlock(e);
    } else {
      BlockOf(d);
      assert EventLine(e) + "\n" + "data:" + " " + d.data == EventLine(d) + "\n" + DataLine(d);
    }
  }

  lemma TrimmedIsOneLine(s: string)
    requires OneLine(s)
    ensures OneLine(TrimEnd(s))
  {
    hide TrimEnd;
    assert forall i :: 0 <= i < |TrimEnd(s)| ==> TrimEnd(s)[i] == s[i];
  }

  lemma EmptyDataBlock(e: Event)
    requires OneLine(e.name)
    ensures ParseBlock(EventLine(e) + "\n" + "data:") == Some(e.(data := ""))
  {
    hide SplitLines, IndexOf;
    OneLineAfter("event: ", e.name);
    FieldOf("event", e.name);
    assert "event" + ": " == "event: ";
    var a, b := EventLine(e), "data:";
    assert a[0] == 'e' && b[0] == 'd' && b[4] == ':';
    assert b[..4] == "data" && b[5..] == "";
    LinesOf(a, b);
    LinesParsed(a, b, e.name, "");
  }

  /** An event whose closing line feeds are missing at the end of the stream is delivered as well, without the
      blanks its data ends in. */
  lemma UnterminatedIsDelivered(events: seq<Event>, e: Event)
    requires forall d :: d in events ==> OneLine(d.name) && OneLine(d.data)
    requires OneLine(e.name) && OneLine(e.data)
    ensures ReadWhole(Print(events) + (EventLine(e) + "\n" + DataLine(e))) == events + [e.(data := TrimEnd(e.data))]
  {
    PrintedBlocks(events);
    OpenBlock(e);
    OpenTail(events, EventLine(e) + "\n" + DataLine(e));
    TailRead(Print(events) + (EventLine(e) + "\n" + DataLine(e)));
  }

  /** The complete blocks and the rest of a text whose last block is open. */
  lemma OpenTail(events: seq<Event>, tail: string)
    requires forall d :: d in events ==> OneLine(d.name) && OneLine(d.data)
    requires SplitBlocks(tail) == [tail]
    ensures Last(SplitBlocks(Print(events) + tail)) == tail && Arrived(Print(events) + tail) == events
  {
    PrintedBlocks(events);
    hide SplitBlocks, ParseBlock, Print, OneLine, ParseBlocks;
    SplitBlocksAppend(Print(events), tail);
    assert "" + tail == tail;
    var blocks := SplitBlocks(Print(events) + tail);
    assert Init(blocks) == Init(SplitBlocks(Print(events))) && Last(blocks) == tail;
  }
}
