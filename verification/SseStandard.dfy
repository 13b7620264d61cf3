/** The page's reader of server-sent events against sections 9.2.5 and 9.2.6 of the WHATWG HTML Living Standard,
    as far as names and data of events go: where the two deliver the same, and where they do not. */
module SseStandard {
  import opened Wrappers
  import opened SseCodec

  // ---------------------------------------------------------------- the standard

  /** The length of a line end at position i: CR LF, LF or CR; 0 if there is none. */
  function StandardLineEnd(s: string, i: nat): (n: nat)
    ensures n > 0 ==> i + n <= |s|
  {
    if LineEnd(s, i) > 0 then LineEnd(s, i) else if i < |s| && s[i] == '\r' then 1 else 0
  }

  function FirstStandardLineEnd(s: string, i: nat): (k: nat)
    requires i <= |s|
    ensures i <= k <= |s| && (k < |s| ==> StandardLineEnd(s, k) > 0)
    ensures forall j :: i <= j < k ==> StandardLineEnd(s, j) == 0
    decreases |s| - i
  {
    if i == |s| || StandardLineEnd(s, i) > 0 then i else FirstStandardLineEnd(s, i + 1)
  }

  /** The lines of a stream, and what follows the last line end. */
  function StandardLines(s: string): (r: seq<string>)
    ensures |r| > 0
    decreases |s|
  {
    var k := FirstStandardLineEnd(s, 0);
    if k == |s| then [s] else [s[..k]] + StandardLines(s[k + StandardLineEnd(s, k)..])
  }

  /** The event type buffer, the data buffer, and the events dispatched so far. */
  datatype Buffers = Buffers(eventType: string, data: string, events: seq<Event>)

  const FRESH := Buffers("", "", [])

  /** An empty data buffer dispatches nothing; the last line feed of the data is dropped. */
  function Dispatch(b: Buffers): Buffers
  {
    var name := if b.eventType == "" then "message" else b.eventType;
    Buffers("", "", b.events + if b.data == "" then [] else [Event(name, Init(b.data))])
  }

  function Process(b: Buffers, line: string): Buffers
  {
    if line == "" then Dispatch(b)
    else if IsField(line, "event") then b.(eventType := FieldValue(line))
    else if IsField(line, "data") then b.(data := b.data + FieldValue(line) + "\n")
    else b
  }

  function ProcessAll(b: Buffers, lines: seq<string>): Buffers
  {
    if lines == [] then b else Process(ProcessAll(b, Init(lines)), Last(lines))
  }

  /** The events of a whole stream: every line that has ended is processed, and an event still unfinished at
      the end is discarded. */
  function Standard(text: string): seq<Event> { ProcessAll(FRESH, Init(StandardLines(text))).events }

  // ---------------------------------------------------------------- lines

  /** Every CR is followed by a LF. */
  predicate NoLoneCr(s: string) { forall i :: 0 <= i < |s| && s[i] == '\r' ==> i + 1 < |s| && s[i + 1] == '\n' }

  predicate NoCr(s: string) { forall i :: 0 <= i < |s| ==> s[i] != '\r' }

  lemma {:induction false} FirstLineEndsMeet(s: string, i: nat)
    requires i <= |s| && NoLoneCr(s)
    ensures FirstStandardLineEnd(s, i) == FirstLineEnd(s, i)
    decreases |s| - i
  {
    if i == |s| || StandardLineEnd(s, i) > 0 {
    } else {
      FirstLineEndsMeet(s, i + 1);
    }
  }

  lemma NoLoneCrAfter(s: string, k: nat)
    requires k <= |s| && NoLoneCr(s)
    ensures NoLoneCr(s[k..])
  {
  }

  lemma {:induction false} LinesMeet(s: string)
    requires NoLoneCr(s)
    ensures StandardLines(s) == SplitLines(s)
    decreases |s|
  {
    FirstLineEndsMeet(s, 0);
    var k := FirstLineEnd(s, 0);
    if k == |s| {
    } else {
      NoLoneCrAfter(s, k + LineEnd(s, k));
      LinesMeet(s[k + LineEnd(s, k)..]);
    }
  }

  lemma {:induction false} StandardLinesHaveNoCr(s: string)
    ensures forall line :: line in StandardLines(s) ==> NoCr(line)
    decreases |s|
  {
    var k := FirstStandardLineEnd(s, 0);
    forall j | 0 <= j < k ensures s[..k][j] != '\r' {
      assert StandardLineEnd(s, j) == 0;
    }
    if k == |s| {
      assert s[..k] == s;
    } else {
      StandardLinesHaveNoCr(s[k + StandardLineEnd(s, k)..]);
    }
  }

  lemma {:induction false} LoneCrStays(s: string)
    requires !NoLoneCr(s)
    ensures exists line :: line in SplitLines(s) && !NoCr(line)
    decreases |s|
  {
    var i :| 0 <= i < |s| && s[i] == '\r' && !(i + 1 < |s| && s[i + 1] == '\n');
    var k := FirstLineEnd(s, 0);
    if k == |s| {
      assert s in SplitLines(s) && s[i] == '\r';
    } else if i < k {
      assert s[..k] in SplitLines(s) && s[..k][i] == '\r';
    } else {
      var m := k + LineEnd(s, k);
      var rest := s[m..];
      assert m <= i && rest[i - m] == '\r';
      LoneCrStays(rest);
      var line :| line in SplitLines(rest) && !NoCr(line);
      assert line in SplitLines(s);
    }
  }

  /** The reader finds the lines that the standard finds exactly if no CR stands alone. */
  lemma LinesMeetExactly(s: string)
    ensures SplitLines(s) == StandardLines(s) <==> NoLoneCr(s)
  {
    if NoLoneCr(s) {
      LinesMeet(s);
    } else {
      LoneCrStays(s);
      StandardLinesHaveNoCr(s);
    }
  }

  // ---------------------------------------------------------------- blocks

  predicate BlankOnlyFirst(lines: seq<string>) { forall i :: 1 <= i < |lines| ==> lines[i] != "" }

  lemma EndsShift(s: string, m: nat, j: nat)
    requires m <= |s|
    ensures LineEnd(s[m..], j) == LineEnd(s, m + j) && BlockEnd(s[m..], j) == BlockEnd(s, m + j)
  {
  }

  lemma FirstIs(s: string, k: nat)
    requires k <= |s| && (k < |s| ==> BlockEnd(s, k) > 0) && forall j :: 0 <= j < k ==> BlockEnd(s, j) == 0
    ensures FirstBlockEnd(s, 0) == k
  {
    hide BlockEnd;
  }

  lemma TwoLineEnds(s: string, k: nat)
    requires BlockEnd(s, k) > 0
    ensures LineEnd(s, k) > 0 && LineEnd(s, k + LineEnd(s, k)) > 0
    ensures BlockEnd(s, k) == LineEnd(s, k) + LineEnd(s, k + LineEnd(s, k))
  {
  }

  lemma FirstBlockShift(s: string, m: nat)
    requires m <= FirstBlockEnd(s, 0)
    ensures FirstBlockEnd(s[m..], 0) == FirstBlockEnd(s, 0) - m
  {
    var k := FirstBlockEnd(s, 0);
    hide BlockEnd;
    forall j: nat ensures BlockEnd(s[m..], j) == BlockEnd(s, m + j) {
      EndsShift(s, m, j);
    }
    FirstIs(s[m..], k - m);
  }

  lemma SingleLine(s: string)
    requires forall j :: 0 <= j < |s| ==> LineEnd(s, j) == 0
    ensures SplitLines(s) == [s]
  {
  }

  lemma CutLine(s: string, k: nat)
    requires k < |s| && LineEnd(s, k) > 0 && forall j :: 0 <= j < k ==> LineEnd(s, j) == 0
    ensures SplitLines(s) == [s[..k]] + SplitLines(s[k + LineEnd(s, k)..])
  {
    hide LineEnd, FirstLineEnd;
    assert FirstLineEnd(s, 0) == k;
  }

  /** A line end that lies before position k lies in the text cut at k. */
  lemma LineEndInTake(s: string, k: nat, j: nat)
    requires k <= |s|
    ensures LineEnd(s, j) > 0 && j + LineEnd(s, j) <= k ==> LineEnd(s[..k], j) == LineEnd(s, j)
    ensures LineEnd(s, j) == 0 ==> LineEnd(s[..k], j) == 0
  {
  }

  /** Where the first line end of a text with a block end lies. */
  lemma FirstLineOfBlock(s: string) returns (k1: nat)
    requires FirstBlockEnd(s, 0) < |s|
    ensures k1 == FirstLineEnd(s, 0) <= FirstBlockEnd(s, 0) && k1 < |s| && LineEnd(s, k1) > 0
    ensures var m, k := k1 + LineEnd(s, k1), FirstBlockEnd(s, 0);
            k1 < k ==> m < k && LineEnd(s, m) == 0
  {
    var k := FirstBlockEnd(s, 0);
    k1 := FirstLineEnd(s, 0);
    assert BlockEnd(s, k) > 0 && LineEnd(s, k) > 0;
    if k1 < k {
      assert BlockEnd(s, k1) == 0;
    }
  }

  lemma NotBlank(s: string)
    requires s != "" && LineEnd(s, 0) == 0
    ensures SplitLines(s)[0] != ""
  {
  }

  /** The lines of a text are those of its first block, a blank one, and those of the rest. */
  predicate LinesSplit(s: string, k: nat, end: nat)
    requires k <= end <= |s|
  {
    SplitLines(s) == SplitLines(s[..k]) + [""] + SplitLines(s[end..]) && BlankOnlyFirst(SplitLines(s[..k]))
  }

  /** ... if the block is one line ... */
  lemma OneLineBlock(s: string)
    requires FirstBlockEnd(s, 0) < |s| && FirstLineEnd(s, 0) == FirstBlockEnd(s, 0)
    ensures var k := FirstBlockEnd(s, 0); LinesSplit(s, k, k + BlockEnd(s, k))
  {
    hide SplitLines, LineEnd, BlockEnd, FirstBlockEnd, FirstLineEnd;
    var k := FirstLineEnd(s, 0);
    TwoLineEnds(s, k);
    var m := k + LineEnd(s, k);
    var t := s[m..];
    CutLine(s, k);
    forall j | 0 <= j < k ensures LineEnd(s[..k], j) == 0 {
      LineEndInTake(s, k, j);
    }
    SingleLine(s[..k]);
    EndsShift(s, m, 0);
    CutLine(t, 0);
    assert t[..0] == "" && t[LineEnd(t, 0)..] == s[k + BlockEnd(s, k)..];
  }

  /** ... and if it is longer by its first line than that of the rest t. */
  lemma LongerBlock(s: string, k1: nat, m: nat, k: nat, end: nat)
    requires k1 < m < k <= end <= |s| && m == k1 + LineEnd(s, k1) && LineEnd(s, m) == 0
    requires forall j :: 0 <= j < k1 ==> LineEnd(s, j) == 0
    requires LinesSplit(s[m..], k - m, end - m)
    ensures LinesSplit(s, k, end)
  {
    hide SplitLines, LineEnd;
    var t := s[m..];
    CutLine(s, k1);
    forall j | 0 <= j < k1 ensures LineEnd(s[..k], j) == 0 {
      LineEndInTake(s, k, j);
    }
    LineEndInTake(s, k, k1);
    CutLine(s[..k], k1);
    assert s[..k][..k1] == s[..k1] && s[..k][m..] == t[..k - m] && t[end - m..] == s[end..];
    EndsShift(s, m, 0);
    LineEndInTake(t, k - m, 0);
    NotBlank(t[..k - m]);
  }

  lemma {:induction false} LinesOfFirstBlock(s: string)
    requires FirstBlockEnd(s, 0) < |s|
    ensures var k := FirstBlockEnd(s, 0); LinesSplit(s, k, k + BlockEnd(s, k))
    decreases |s|
  {
    hide *;
    var k := FirstBlockEnd(s, 0);
    var k1 := FirstLineOfBlock(s);
    if k1 == k {
      OneLineBlock(s);
    } else {
      var m := k1 + LineEnd(s, k1);
      FirstBlockShift(s, m);
      EndsShift(s, m, k - m);
      LinesOfFirstBlock(s[m..]);
      LongerBlock(s, k1, m, k, k + BlockEnd(s, k));
    }
  }

  /** Without a block end no line but the first is blank, before the last line end. */
  lemma {:induction false} LinesOfLastBlock(s: string)
    requires FirstBlockEnd(s, 0) == |s|
    ensures BlankOnlyFirst(Init(SplitLines(s)))
    decreases |s|
  {
    hide SplitLines, LineEnd, BlockEnd, FirstBlockEnd, FirstLineEnd;
    var k1 := FirstLineEnd(s, 0);
    if k1 == |s| {
      SingleLine(s);
    } else {
      var m := k1 + LineEnd(s, k1);
      NoSecondLineEnd(s, k1);
      CutLine(s, k1);
      FirstBlockShift(s, m);
      EndsShift(s, m, 0);
      LinesOfLastBlock(s[m..]);
      var rest := SplitLines(s[m..]);
      assert Init(SplitLines(s)) == [s[..k1]] + Init(rest);
      if s[m..] == "" {
        SingleLine("");
      } else {
        NotBlank(s[m..]);
      }
    }
  }

  lemma NoSecondLineEnd(s: string, k: nat)
    requires BlockEnd(s, k) == 0 && LineEnd(s, k) > 0
    ensures LineEnd(s, k + LineEnd(s, k)) == 0
  {
  }

  // ---------------------------------------------------------------- events

  lemma {:induction false} ProcessAppend(b: Buffers, x: seq<string>, y: seq<string>)
    ensures ProcessAll(b, x + y) == ProcessAll(ProcessAll(b, x), y)
    decreases |y|
  {
    if y == [] {
      assert x + y == x;
    } else {
      assert Init(x + y) == x + Init(y) && Last(x + y) == Last(y);
      ProcessAppend(b, x, Init(y));
    }
  }

  function Renamed(e: Event): Event { e.(name := if e.name == "" then "message" else e.name) }

  function RenamedAll(events: seq<Event>): (r: seq<Event>)
    ensures |r| == |events| && forall i :: 0 <= i < |r| ==> r[i] == Renamed(events[i])
  {
    seq(|events|, i requires 0 <= i < |events| => Renamed(events[i]))
  }

  /** What the buffers hold after the lines of one block. */
  predicate Holding(b: Buffers, lines: seq<string>, events: seq<Event>)
  {
    && b.events == events
    && Renamed(Event(b.eventType, "")) == Renamed(Event(EventName(lines), ""))
    && b.data == if DataLines(lines) == [] then "" else Join(DataLines(lines)) + "\n"
  }

  lemma JoinMore(lines: seq<string>, line: string)
    ensures Join(lines + [line]) == (if lines == [] then "" else Join(lines) + "\n") + line
  {
    assert Init(lines + [line]) == lines;
    assert lines == [] ==> Join(lines + [line]) == line;
  }

  lemma ProcessOne(b: Buffers, lines: seq<string>, line: string, events: seq<Event>)
    requires Holding(b, lines, events) && (line == "" ==> b == FRESH.(events := events))
    ensures Holding(Process(b, line), lines + [line], events)
  {
    hide IsField, FieldValue;
    assert Init(lines + [line]) == lines && Last(lines + [line]) == line;
    BlankIsNoField();
    OnlyOneField(line);
    JoinMore(DataLines(lines), FieldValue(line));
    assert DataLines(lines) + [] == DataLines(lines) && events + [] == events;
  }

  lemma BlankIsNoField()
    ensures !IsField("", "event") && !IsField("", "data")
  {
  }

  lemma OnlyOneField(line: string)
    ensures !IsField(line, "event") || !IsField(line, "data")
  {
  }

  lemma {:induction false} ProcessBlock(events: seq<Event>, lines: seq<string>)
    requires BlankOnlyFirst(lines)
    ensures Holding(ProcessAll(FRESH.(events := events), lines), lines, events)
  {
    var b := FRESH.(events := events);
    if lines == [] {
    } else {
      var n := |lines| - 1;
      ProcessBlock(events, Init(lines));
      assert Init(lines) + [lines[n]] == lines;
      hide Holding, Process, BlankOnlyFirst;
      if lines[n] == "" {
        LastBlank(lines);
      }
      ProcessOne(ProcessAll(b, Init(lines)), Init(lines), lines[n], events);
    }
  }

  lemma LastBlank(lines: seq<string>)
    requires BlankOnlyFirst(lines) && lines != [] && Last(lines) == ""
    ensures |lines| == 1
  {
  }

  lemma DispatchHeld(b: Buffers, block: string, events: seq<Event>)
    requires Holding(b, SplitLines(block), events)
    ensures Dispatch(b) == FRESH.(events := events + RenamedAll(ParseBlocks([block])))
  {
    assert Init([block]) == [] && Last([block]) == block;
    var lines := SplitLines(block);
    if DataLines(lines) != [] {
      assert Init(b.data) == Join(DataLines(lines));
    }
  }

  lemma RenamedTogether(x: seq<Event>, y: seq<Event>)
    ensures RenamedAll(x + y) == RenamedAll(x) + RenamedAll(y)
  {
  }

  /** Line by line or block by block, the events are the same up to the missing name. */
  lemma {:induction false} LinesAreBlocks(events: seq<Event>, s: string)
    ensures ProcessAll(FRESH.(events := events), Init(SplitLines(s))).events
            == events + RenamedAll(ParseBlocks(Init(SplitBlocks(s))))
    decreases |s|
  {
    hide *;
    var k := FirstBlockEnd(s, 0);
    if k == |s| {
      NoMoreBlocks(events, s);
    } else {
      LinesOfFirstBlock(s);
      CutOnce(s, k, BlockEnd(s, k));
      LinesAreBlocks(events + RenamedAll(ParseBlocks([s[..k]])), s[k + BlockEnd(s, k)..]);
      OneMoreBlock(events, s, k, k + BlockEnd(s, k));
    }
  }

  lemma NoMoreBlocks(events: seq<Event>, s: string)
    requires FirstBlockEnd(s, 0) == |s|
    ensures ProcessAll(FRESH.(events := events), Init(SplitLines(s))).events
            == events + RenamedAll(ParseBlocks(Init(SplitBlocks(s))))
  {
    hide SplitLines, ProcessAll, FirstBlockEnd;
    LinesOfLastBlock(s);
    ProcessBlock(events, Init(SplitLines(s)));
    assert Init(SplitBlocks(s)) == [];
    assert RenamedAll(ParseBlocks([])) == [];
  }

  lemma OneMoreBlock(events: seq<Event>, s: string, k: nat, end: nat)
    requires k <= end <= |s| && LinesSplit(s, k, end) && SplitBlocks(s) == [s[..k]] + SplitBlocks(s[end..])
    requires var soFar := events + RenamedAll(ParseBlocks([s[..k]]));
             ProcessAll(FRESH.(events := soFar), Init(SplitLines(s[end..]))).events
             == soFar + RenamedAll(ParseBlocks(Init(SplitBlocks(s[end..]))))
    ensures ProcessAll(FRESH.(events := events), Init(SplitLines(s))).events
            == events + RenamedAll(ParseBlocks(Init(SplitBlocks(s))))
  {
    hide SplitBlocks, SplitLines, ParseBlocks, ProcessAll, Dispatch, RenamedAll, Holding, Init, Last;
    var block, rest := s[..k], s[end..];
    var lines, more := SplitLines(block), SplitLines(rest);
    var b := FRESH.(events := events);
    ProcessBlock(events, lines);
    DispatchHeld(ProcessAll(b, lines), block, events);
    BlankLineDispatches(ProcessAll(b, lines));
    ProcessAppend(b, lines, [""]);
    ProcessAppend(b, lines + [""], Init(more));
    InitOfSum(lines + [""], more);
    Prefixed(block, SplitBlocks(rest));
    ParseBlocksAppend([block], Init(SplitBlocks(rest)));
    RenamedTogether(ParseBlocks([block]), ParseBlocks(Init(SplitBlocks(rest))));
  }

  lemma InitOfSum(x: seq<string>, y: seq<string>)
    requires y != []
    ensures Init(x + y) == x + Init(y)
  {
  }

  lemma BlankLineDispatches(b: Buffers)
    ensures ProcessAll(b, [""]) == Dispatch(b)
  {
    assert Init([""]) == [] && Last([""]) == "";
  }

  // ---------------------------------------------------------------- where the two meet

  /** The blocks that are complete, and the rest of the text behind them. */
  function Blocks(text: string): seq<string> { Init(SplitBlocks(text)) }

  function Tail(text: string): string { Trim(Last(SplitBlocks(text))) }

  predicate HasData(block: string) { exists line :: line in SplitLines(block) && IsField(line, "data") }

  /** The last event line of a block names nothing. */
  predicate Unnamed(block: string) { EventName(SplitLines(block)) == "" }

  lemma {:induction false} DataAnywhere(lines: seq<string>)
    ensures DataLines(lines) != [] <==> exists line :: line in lines && IsField(line, "data")
  {
    if lines == [] {
    } else {
      DataAnywhere(Init(lines));
      assert lines == Init(lines) + [Last(lines)];
    }
  }

  lemma HasDataParses(block: string)
    ensures HasData(block) <==> ParseBlock(block).Some?
    ensures HasData(block) ==> (ParseBlock(block).value.name == "" <==> Unnamed(block))
  {
    DataAnywhere(SplitLines(block));
  }

  lemma {:induction false} ParsedFrom(blocks: seq<string>)
    ensures (forall e :: e in ParseBlocks(blocks) ==> e.name != "")
            <==> (forall block :: block in blocks && HasData(block) ==> !Unnamed(block))
  {
    hide HasData, Unnamed, ParseBlock;
    if blocks == [] {
    } else {
      ParsedFrom(Init(blocks));
      HasDataParses(Last(blocks));
      assert blocks == Init(blocks) + [Last(blocks)];
    }
  }

  lemma RenamedSame(events: seq<Event>)
    ensures RenamedAll(events) == events <==> forall e :: e in events ==> e.name != ""
  {
    if RenamedAll(events) == events {
      forall e | e in events ensures e.name != "" {
        var i :| 0 <= i < |events| && events[i] == e;
        assert RenamedAll(events)[i] == Renamed(e);
      }
    }
  }

  /** What the reader delivers and what the standard does, for a text without lone CRs: the standard gives an
      event that is named by an empty line the default name, and drops what no blank line closes. */
  lemma StandardIsRenamed(text: string)
    requires NoLoneCr(text)
    ensures Standard(text) == RenamedAll(ParseBlocks(Blocks(text)))
    ensures ReadWhole(text) == ParseBlocks(Blocks(text)) + ParseBlocks([Tail(text)])
  {
    LinesMeet(text);
    LinesAreBlocks([], text);
    assert [] + RenamedAll(ParseBlocks(Blocks(text))) == RenamedAll(ParseBlocks(Blocks(text)));
    assert Init([Tail(text)]) == [] && Last([Tail(text)]) == Tail(text);
    assert SplitLines("") == [""] && DataLines([""]) == DataLines([]);
  }

  lemma LastOne(block: string)
    ensures ParseBlocks([block]) == [] <==> !HasData(block)
  {
    HasDataParses(block);
    assert Init([block]) == [] && Last([block]) == block;
  }

  /** For every text without lone CRs, the reader delivers what the standard does exactly if nothing that is
      data is left behind the last blank line, and no event is named by an empty line. */
  lemma MeetsStandardExactly(text: string)
    requires NoLoneCr(text)
    ensures ReadWhole(text) == Standard(text)
            <==> !HasData(Tail(text)) && forall block :: block in Blocks(text) && HasData(block) ==> !Unnamed(block)
  {
    StandardIsRenamed(text);
    hide *;
    ParsedFrom(Blocks(text));
    RenamedSame(ParseBlocks(Blocks(text)));
    var events := ParseBlocks(Blocks(text));
    assert |RenamedAll(events)| == |events|;
    LastOne(Tail(text));
  }

  /** The text with every line end of the standard written as LF. */
  function Unix(s: string): string { JoinLines(StandardLines(s)) }

  function JoinLines(lines: seq<string>): string
    requires lines != []
  {
    if |lines| == 1 then lines[0] else lines[0] + "\n" + JoinLines(lines[1..])
  }

  predicate IsLine(s: string) { forall i :: 0 <= i < |s| ==> s[i] != '\r' && s[i] != '\n' }

  lemma {:induction false} StandardLinesAreLines(s: string)
    ensures forall line :: line in StandardLines(s) ==> IsLine(line)
    decreases |s|
  {
    var k := FirstStandardLineEnd(s, 0);
    forall j | 0 <= j < k ensures s[..k][j] != '\r' && s[..k][j] != '\n' {
      assert StandardLineEnd(s, j) == 0;
    }
    if k == |s| {
      assert s[..k] == s;
    } else {
      StandardLinesAreLines(s[k + StandardLineEnd(s, k)..]);
    }
  }

  lemma FirstLineJoined(line: string, rest: string)
    requires IsLine(line)
    ensures StandardLines(line + "\n" + rest) == [line] + StandardLines(rest)
  {
    var s := line + "\n" + rest;
    assert s[|line|] == '\n' && StandardLineEnd(s, |line|) == 1;
    forall j | 0 <= j < |line| ensures StandardLineEnd(s, j) == 0 {
      assert s[j] == line[j];
    }
    assert FirstStandardLineEnd(s, 0) == |line|;
    assert s[..|line|] == line && s[|line| + 1..] == rest;
  }

  lemma {:induction false} JoinedLines(lines: seq<string>)
    requires lines != [] && forall line :: line in lines ==> IsLine(line)
    ensures StandardLines(JoinLines(lines)) == lines && NoCr(JoinLines(lines))
  {
    var line := lines[0];
    assert line in lines;
    if |lines| == 1 {
      assert FirstStandardLineEnd(line, 0) == |line|;
      assert lines == [line];
    } else {
      JoinedLines(lines[1..]);
      FirstLineJoined(line, JoinLines(lines[1..]));
      NoCrTogether(line, "\n");
      NoCrTogether(line + "\n", JoinLines(lines[1..]));
      assert lines == [line] + lines[1..];
    }
  }

  /** So lone CRs are the only trouble with line ends: for every text, once its line ends are written as LF, the
      reader delivers what the standard delivers for the text as it was, under the same exact condition. */
  lemma UnixMeetsStandardExactly(text: string)
    ensures var unix := Unix(text);
            ReadWhole(unix) == Standard(text)
            <==> !HasData(Tail(unix)) && forall block :: block in Blocks(unix) && HasData(block) ==> !Unnamed(block)
  {
    StandardLinesAreLines(text);
    JoinedLines(StandardLines(text));
    hide *;
    NoCrIsEnough(Unix(text));
    SameLines(text);
    MeetsStandardExactly(Unix(text));
  }

  lemma SameLines(text: string)
    requires StandardLines(JoinLines(StandardLines(text))) == StandardLines(text)
             && NoCr(JoinLines(StandardLines(text)))
    ensures Standard(Unix(text)) == Standard(text) && NoCr(Unix(text))
  {
  }

  // ---------------------------------------------------------------- what the standard never delivers

  /** The event has a name, and neither name nor data holds a CR. */
  predicate Clean(e: Event) { e.name != "" && NoCr(e.name) && NoCr(e.data) }

  predicate AllClean(events: seq<Event>) { forall e :: e in events ==> Clean(e) }

  lemma NoCrTogether(a: string, b: string)
    requires NoCr(a) && NoCr(b)
    ensures NoCr(a + b)
  {
  }

  lemma FieldHasNoCr(line: string)
    requires NoCr(line)
    ensures NoCr(FieldValue(line))
  {
  }

  lemma ProcessKeepsClean(b: Buffers, line: string)
    requires NoCr(b.eventType) && NoCr(b.data) && AllClean(b.events) && NoCr(line)
    ensures var b' := Process(b, line); NoCr(b'.eventType) && NoCr(b'.data) && AllClean(b'.events)
  {
    hide FieldValue, IsField;
    FieldHasNoCr(line);
    NoCrTogether(b.data, FieldValue(line));
    NoCrTogether(b.data + FieldValue(line), "\n");
  }

  lemma {:induction false} ProcessAllKeepsClean(lines: seq<string>)
    requires forall line :: line in lines ==> NoCr(line)
    ensures var b := ProcessAll(FRESH, lines); NoCr(b.eventType) && NoCr(b.data) && AllClean(b.events)
  {
    if lines == [] {
    } else {
      hide NoCr, Process, AllClean;
      ProcessAllKeepsClean(Init(lines));
      ProcessKeepsClean(ProcessAll(FRESH, Init(lines)), Last(lines));
    }
  }

  lemma StandardIsClean(text: string)
    ensures AllClean(Standard(text))
  {
    StandardLinesHaveNoCr(text);
    ProcessAllKeepsClean(Init(StandardLines(text)));
  }

  lemma BlockHasNoCr(e: Event)
    requires Clean(e)
    ensures NoCr(EventLine(e) + "\n" + DataLine(e)) && NoCr(SseEvent(e))
  {
    NoCrTogether("event: ", e.name);
    NoCrTogether("data: ", e.data);
    NoCrTogether(EventLine(e), "\n");
    NoCrTogether(EventLine(e) + "\n", DataLine(e));
    NoCrTogether(EventLine(e) + "\n" + DataLine(e), "\n\n");
  }

  lemma {:induction false} PrintHasNoCr(events: seq<Event>)
    requires AllClean(events)
    ensures NoCr(Print(events))
  {
    if events == [] {
    } else {
      hide SseEvent;
      BlockHasNoCr(events[0]);
      PrintHasNoCr(events[1..]);
      NoCrTogether(SseEvent(events[0]), Print(events[1..]));
    }
  }

  /** Printed events are read back by the page whatever their names and data (RoundTrip); a reader that follows
      the standard gets them back exactly if every one is named and no name and no data holds a CR. */
  lemma PrintedMeetsExactly(events: seq<Event>)
    requires forall e :: e in events ==> OneLine(e.name) && OneLine(e.data)
    ensures ReadWhole(Print(events)) == events
    ensures Standard(Print(events)) == events <==> AllClean(events)
  {
    PrintedBlocks(events);
    DeliveredAll(events, _ => true);
    StandardIsClean(Print(events));
    RoundTrip(events, [Print(events)], _ => true);
    assert Concat([Print(events)]) == Print(events) by {
      assert Init([Print(events)]) == [] && Last([Print(events)]) == Print(events);
    }
    if AllClean(events) {
      PrintHasNoCr(events);
      StandardIsRenamed(Print(events));
      hide *;
      RenamedSame(events);
      CleanIsNamed(events);
      BlocksOfPrint(events);
    }
  }

  lemma CleanIsNamed(events: seq<Event>)
    requires AllClean(events)
    ensures forall e :: e in events ==> e.name != ""
  {
  }

  lemma BlocksOfPrint(events: seq<Event>)
    requires forall e :: e in events ==> OneLine(e.name) && OneLine(e.data)
    ensures ParseBlocks(Blocks(Print(events))) == events
  {
    PrintedBlocks(events);
  }

  // ---------------------------------------------------------------- cases in which they differ

  /** A CR alone ends a line for the standard, and none for the page. */
  lemma LoneCrIsKept()
    ensures var e := Event("message", "a\rb"); ReadWhole(Print([e])) == [e] && Standard(Print([e])) != [e]
  {
    hide ReadWhole, Standard, Print;
    var e := Event("message", "a\rb");
    assert e in [e] && e.data[1] == '\r';
    PrintedMeetsExactly([e]);
  }

  /** An event line without a value gives an event without a name, where the standard says "message". */
  lemma EmptyNameIsKept()
    ensures var e := Event("", "a"); ReadWhole(Print([e])) == [e] && Standard(Print([e])) != [e]
  {
    hide ReadWhole, Standard, Print;
    var e := Event("", "a");
    assert e in [e];
    PrintedMeetsExactly([e]);
  }

  /** An event with an empty data line is dispatched by both. */
  lemma EmptyDataIsDelivered(name: string)
    requires OneLine(name) && name != "" && NoCr(name)
    ensures var e := Event(name, ""); ReadWhole(Print([e])) == Standard(Print([e])) == [e]
  {
    hide ReadWhole, Standard, Print;
    PrintedMeetsExactly([Event(name, "")]);
  }

  lemma NoCrIsEnough(s: string)
    requires NoCr(s)
    ensures NoLoneCr(s)
  {
  }

  lemma ArrivedIsBlocks(text: string)
    ensures Arrived(text) == ParseBlocks(Blocks(text))
  {
  }

  /** The page delivers an event that the stream ends in the middle of, which the standard discards. */
  lemma UnfinishedIsDelivered(events: seq<Event>, e: Event)
    requires AllClean(events) && Clean(e)
    requires forall d :: d in events + [e] ==> OneLine(d.name) && OneLine(d.data)
    ensures var text := Print(events) + (EventLine(e) + "\n" + DataLine(e));
            ReadWhole(text) == events + [e.(data := TrimEnd(e.data))] && Standard(text) == events
  {
    hide *;
    var tail := EventLine(e) + "\n" + DataLine(e);
    assert e in events + [e] && forall d :: d in events ==> d in events + [e];
    UnterminatedIsDelivered(events, e);
    OpenBlock(e);
    OpenTail(events, tail);
    PrintHasNoCr(events);
    BlockHasNoCr(e);
    NoCrTogether(Print(events), tail);
    NoCrIsEnough(Print(events) + tail);
    StandardIsRenamed(Print(events) + tail);
    CleanIsNamed(events);
    RenamedSame(events);
    ArrivedIsBlocks(Print(events) + tail);
  }
}
