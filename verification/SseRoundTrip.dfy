/** What the client reads back from what the server prints, however the bytes are chunked. */
module SseRoundTrip {
  import opened Wrappers
  import opened Utf8
  import opened Sse

  // ---------------------------------------------------------------- chunking

  lemma {:induction false} FirstNewlineExtends(s: seq<Byte>, t: seq<Byte>)
    requires FirstNewline(s) < |s|
    ensures FirstNewline(s + t) == FirstNewline(s)
    decreases |s|
  {
    if s[0] != NEWLINE {
      assert (s + t)[1..] == s[1..] + t;
      FirstNewlineExtends(s[1..], t);
    }
  }

  /** A line is taken the same way whatever follows it in the buffer. */
  lemma TakeLineIgnoresBuffer(p: Parser, line: seq<Byte>, more: seq<Byte>)
    ensures var a, b := TakeLine(p, line), TakeLine(p.(buffer := p.buffer + more), line);
      && a.Failed? == b.Failed? && b.parser == a.parser.(buffer := p.buffer + more)
      && (a.Parsed? ==> a.events == b.events)
  {
    hide Valid, TrimStart, TrimEnd;
  }

  lemma DrainOne(p: Parser)
    requires FirstNewline(p.buffer) < |p.buffer|
    ensures var i := FirstNewline(p.buffer);
      var one := TakeLine(p.(buffer := p.buffer[i + 1..]), DropReturn(p.buffer[..i]));
      Drain(p) == if one.Failed? then one else After(one.events, Drain(one.parser))
  {
  }

  /** More bytes in the buffer continue from where draining stopped; a failure stays a failure. */
  lemma {:induction false} DrainContinues(p: Parser, more: seq<Byte>)
    ensures var o, whole := Drain(p), Drain(p.(buffer := p.buffer + more));
      && (o.Failed? ==> whole.Failed?)
      && (o.Parsed? ==> whole == After(o.events, Push(o.parser, more)))
    decreases |p.buffer|
  {
    var i := FirstNewline(p.buffer);
    if i == |p.buffer| {
      AfterNothing(Drain(p.(buffer := p.buffer + more)));
    } else {
      hide TakeLine, DropReturn, Drain;
      var q := p.(buffer := p.buffer + more);
      FirstNewlineExtends(p.buffer, more);
      DrainOne(p);
      DrainOne(q);
      var line, rest := DropReturn(p.buffer[..i]), p.buffer[i + 1..];
      assert q.buffer[..i] == p.buffer[..i] && q.buffer[i + 1..] == rest + more;
      var one := TakeLine(p.(buffer := rest), line);
      TakeLineIgnoresBuffer(p.(buffer := rest), line, more);
      if one.Parsed? {
        DrainContinues(one.parser, more);
        var o := Drain(one.parser);
        if o.Parsed? { AfterAfter(one.events, o.events, Push(o.parser, more)); }
      }
    }
  }

  lemma AfterNothing(o: Outcome)
    ensures After([], o) == o
  {
    if o.Parsed? { assert [] + o.events == o.events; }
  }

  /** Push the chunks one by one and collect the events. */
  function PushAll(p: Parser, chunks: seq<seq<Byte>>): (o: Outcome)
    decreases |chunks|
  {
    if chunks == [] then Parsed(p, [])
    else
      var one := Push(p, chunks[0]);
      if one.Failed? then one else After(one.events, PushAll(one.parser, chunks[1..]))
  }

  function Concat(chunks: seq<seq<Byte>>): (bytes: seq<Byte>)
    decreases |chunks|
  {
    if chunks == [] then [] else chunks[0] + Concat(chunks[1..])
  }

  /** Between pushes the buffer holds no complete line. */
  predicate Drained(p: Parser) { NEWLINE !in p.buffer }

  lemma {:induction false} NoNewline(s: seq<Byte>)
    requires NEWLINE !in s
    ensures FirstNewline(s) == |s|
  {
  }

  lemma {:induction false} DrainDrains(p: Parser)
    ensures Drain(p).Parsed? ==> Drained(Drain(p).parser)
    decreases |p.buffer|
  {
    hide TakeLine, DropReturn;
    var i := FirstNewline(p.buffer);
    if i == |p.buffer| {
      assert p.buffer[..i] == p.buffer;
    } else {
      var one := TakeLine(p.(buffer := p.buffer[i + 1..]), DropReturn(p.buffer[..i]));
      if one.Parsed? { DrainDrains(one.parser); }
    }
  }

  /** However the bytes are cut into chunks, the same events come out, or it fails in both. */
  lemma {:induction false} ChunkingDoesNotMatter(p: Parser, chunks: seq<seq<Byte>>)
    requires Drained(p)
    ensures var o, whole := PushAll(p, chunks), Push(p, Concat(chunks));
      o.Failed? == whole.Failed? && (whole.Parsed? ==> o == whole)
    decreases |chunks|
  {
    hide Drain, After;
    if chunks == [] {
      assert p.buffer + [] == p.buffer;
      NothingToDrain(p);
    } else {
      var start, tail := p.(buffer := p.buffer + chunks[0]), Concat(chunks[1..]);
      DrainContinues(start, tail);
      assert p.buffer + (chunks[0] + tail) == start.buffer + tail;
      DrainDrains(start);
      var one := Push(p, chunks[0]);
      if one.Parsed? {
        ChunkingDoesNotMatter(one.parser, chunks[1..]);
        AfterFails(one.events, Push(one.parser, tail));
        AfterFails(one.events, PushAll(one.parser, chunks[1..]));
      }
    }
  }

  lemma NothingToDrain(p: Parser)
    requires Drained(p)
    ensures Drain(p) == Parsed(p, [])
  {
    NoNewline(p.buffer);
  }

  lemma AfterFails(events: seq<Event>, o: Outcome)
    ensures After(events, o).Failed? == o.Failed?
  {
  }

  // ---------------------------------------------------------------- one frame

  /** Nothing buffered: the next line is taken whole. */
  lemma PushLine(p: Parser, line: seq<Byte>, rest: seq<Byte>)
    requires p.buffer == [] && NEWLINE !in line && TakeLine(p, DropReturn(line)).Parsed?
    ensures Push(p, line + [NEWLINE] + rest) ==
      var one := TakeLine(p, DropReturn(line)); After(one.events, Push(one.parser, rest))
  {
    hide TakeLine;
    var bytes := line + [NEWLINE] + rest;
    assert p.buffer + bytes == bytes;
    NewlineAfter(line, rest);
    assert bytes[..|line|] == line && bytes[|line| + 1..] == rest;
    var q := p.(buffer := rest);
    assert p.buffer + rest == rest;
    TakeLineIgnoresBuffer(p, DropReturn(line), rest);
  }

  lemma {:induction false} NewlineAfter(line: seq<Byte>, rest: seq<Byte>)
    requires NEWLINE !in line
    ensures FirstNewline(line + [NEWLINE] + rest) == |line|
    decreases |line|
  {
    if line != [] {
      assert (line + [NEWLINE] + rest)[1..] == line[1..] + [NEWLINE] + rest;
      NewlineAfter(line[1..], rest);
    }
  }

  /** A line as the printer emits it. */
  predicate Printable(line: seq<Byte>) {
    Valid(line) && NEWLINE !in line && RETURN !in line
  }

  /** The data collected from these lines, the first one continuing `sofar` if there was a line before. */
  function Collected(sofar: seq<Byte>, saw: bool, lines: seq<seq<Byte>>): (data: seq<Byte>)
    decreases |lines|
  {
    if lines == [] then sofar
    else Collected(sofar + (if saw then [NEWLINE] else []) + Unspace(lines[0]), true, lines[1..])
  }

  lemma TakeDataLine(p: Parser, line: seq<Byte>)
    requires Printable(line)
    ensures NEWLINE !in DATA + line && DropReturn(DATA + line) == DATA + line
    ensures TakeLine(p, DATA + line)
         == Parsed(p.(data := p.data + (if p.sawData then [NEWLINE] else []) + Unspace(line), sawData := true), [])
  {
    AsciiIsValid(DATA);
    ValidConcat(DATA, line);
    var whole := DATA + line;
    assert whole[|DATA|..] == line;
    assert whole[0] == 100;
    assert line != [] ==> whole[|whole| - 1] == line[|line| - 1];
  }

  lemma {:induction false} PushDataLines(p: Parser, lines: seq<seq<Byte>>, rest: seq<Byte>)
    requires p.buffer == [] && forall i :: 0 <= i < |lines| ==> Printable(lines[i])
    ensures Push(p, DataLines(lines) + rest)
         == Push(p.(data := Collected(p.data, p.sawData, lines), sawData := p.sawData || lines != []), rest)
    decreases |lines|
  {
    hide Push, TakeLine, Printable;
    if lines == [] {
      assert DataLines(lines) + rest == rest;
    } else {
      var line, more := DATA + lines[0], DataLines(lines[1..]) + rest;
      assert DataLines(lines) + rest == line + [NEWLINE] + more;
      TakeDataLine(p, lines[0]);
      PushLine(p, line, more);
      var q := TakeLine(p, line).parser;
      AfterNothing(Push(q, more));
      PushDataLines(q, lines[1..], rest);
    }
  }

  lemma EventLineShape(kind: seq<Byte>)
    requires kind == KIND_DATA || kind == KIND_CONTROL
    ensures var line := EventLine(kind);
      line != [] && Valid(line) && EVENT <= line && line[|EVENT|..] == [SPACE] + kind
      && NEWLINE !in line && DropReturn(line) == line
  {
    hide Valid;
    AsciiIsValid(EventLine(kind));
    assert EventLine(kind)[|EventLine(kind)| - 1] == kind[|kind| - 1];
  }

  lemma TakeEventLine(p: Parser, kind: seq<Byte>)
    requires kind == KIND_DATA || kind == KIND_CONTROL
    ensures NEWLINE !in EventLine(kind) && DropReturn(EventLine(kind)) == EventLine(kind)
    ensures TakeLine(p, EventLine(kind)) == Parsed(p.(event := Some(kind)), [])
  {
    hide TrimStart, TrimEnd, Valid, EventLine, DropReturn;
    EventLineShape(kind);
    TrimKind(kind);
  }

  lemma TrimKind(kind: seq<Byte>)
    requires kind == KIND_DATA || kind == KIND_CONTROL
    ensures TrimEnd(TrimStart([SPACE] + kind)) == kind
  {
    var rest := [SPACE] + kind;
    assert LeadingSpace(rest) == 1 && rest[1..] == kind;
    assert LeadingSpace(kind) == 0 && TrailingSpace(kind) == 0;
    assert TrimStart(kind) == kind && TrimEnd(kind) == kind;
  }

  /** A frame of printable lines parses to exactly one event and leaves the parser idle. */
  lemma PushFrame(kind: seq<Byte>, lines: seq<seq<Byte>>, rest: seq<Byte>)
    requires kind == KIND_DATA || kind == KIND_CONTROL
    requires lines != [] && (forall i :: 0 <= i < |lines| ==> Printable(lines[i])) && Valid(Collected([], false, lines))
    ensures Push(IDLE, EventLine(kind) + [NEWLINE] + DataLines(lines) + [NEWLINE] + rest)
         == After([Event(Some(kind), Collected([], false, lines))], Push(IDLE, rest))
  {
    hide Push, Printable, EventLine, DataLines, Valid, Collected, TrimStart, TrimEnd;
    var head, body := EventLine(kind), DataLines(lines) + ([] + [NEWLINE] + rest);
    assert head + [NEWLINE] + DataLines(lines) + [NEWLINE] + rest == head + [NEWLINE] + body;
    TakeEventLine(IDLE, kind);
    PushLine(IDLE, head, body);
    var p := IDLE.(event := Some(kind));
    AfterNothing(Push(p, body));
    PushDataLines(p, lines, [] + [NEWLINE] + rest);
    var q := p.(data := Collected([], false, lines), sawData := true);
    PushLine(q, [], rest);
  }

  // ---------------------------------------------------------------- the text of a data frame

  lemma BreakIsBoundary(text: seq<Byte>, i: nat)
    requires Valid(text) && i < |text| && Break(text[i])
    ensures Valid(text[..i]) && Valid(text[i + BreakLen(text, i)..])
  {
    hide Valid;
    assert text == text[..i] + [text[i]] + text[i + 1..];
    ValidSplit(text[..i], text[i], text[i + 1..]);
    if BreakLen(text, i) == 2 {
      assert text[i + 1..] == [] + [text[i + 1]] + text[i + 2..];
      ValidSplit([], text[i + 1], text[i + 2..]);
    }
  }

  lemma {:induction false} LinesArePrintable(text: seq<Byte>)
    requires Valid(text)
    ensures forall i :: 0 <= i < |Lines(text)| ==> Printable(Lines(text)[i])
    decreases |text|
  {
    hide Valid, FirstBreak;
    var i := FirstBreak(text);
    if i < |text| {
      BreakIsBoundary(text, i);
      LinesArePrintable(text[i + BreakLen(text, i)..]);
    }
  }

  lemma UnspaceIsValid(line: seq<Byte>)
    requires Valid(line)
    ensures Valid(Unspace(line))
  {
    if line != [] && line[0] == SPACE {
      assert line == [] + [SPACE] + line[1..];
      ValidSplit([], SPACE, line[1..]);
    }
  }

  lemma {:induction false} CollectedIsValid(sofar: seq<Byte>, saw: bool, lines: seq<seq<Byte>>)
    requires Valid(sofar) && forall i :: 0 <= i < |lines| ==> Printable(lines[i])
    ensures Valid(Collected(sofar, saw, lines))
    decreases |lines|
  {
    hide Valid;
    if lines != [] {
      var sep := if saw then [NEWLINE] else [];
      AsciiIsValid(sep);
      assert Printable(lines[0]);
      UnspaceIsValid(lines[0]);
      ValidConcat(sofar, sep);
      ValidConcat(sofar + sep, Unspace(lines[0]));
      CollectedIsValid(sofar + sep + Unspace(lines[0]), true, lines[1..]);
    }
  }

  /** `\n`-join. */
  function Join(lines: seq<seq<Byte>>): (text: seq<Byte>)
    decreases |lines|
  {
    if lines == [] then [] else if |lines| == 1 then lines[0] else lines[0] + [NEWLINE] + Join(lines[1..])
  }

  function UnspaceAll(lines: seq<seq<Byte>>): (s: seq<seq<Byte>>)
    ensures |s| == |lines|
  {
    seq(|lines|, i requires 0 <= i < |lines| => Unspace(lines[i]))
  }

  lemma {:induction false} CollectedIsJoin(sofar: seq<Byte>, saw: bool, lines: seq<seq<Byte>>)
    requires lines != []
    ensures Collected(sofar, saw, lines) == sofar + (if saw then [NEWLINE] else []) + Join(UnspaceAll(lines))
    decreases |lines|
  {
    var sep := if saw then [NEWLINE] else [];
    if |lines| > 1 {
      assert UnspaceAll(lines)[1..] == UnspaceAll(lines[1..]);
      CollectedIsJoin(sofar + sep + Unspace(lines[0]), true, lines[1..]);
    } else {
      assert lines[1..] == [];
    }
  }

  /** The event the client sees for a printed text. */
  function Received(text: seq<Byte>): (e: Event) {
    Event(Some(KIND_DATA), Join(UnspaceAll(Lines(text))))
  }

  /** Every text comes back as one `data` event, line by line, each without one leading space. */
  lemma ParseOfPrint(text: seq<Byte>, rest: seq<Byte>)
    requires Valid(text)
    ensures Push(IDLE, DataFrame(text) + rest) == After([Received(text)], Push(IDLE, rest))
  {
    hide Push, Lines, DataLines, Printable, Valid, Collected, Join;
    LinesArePrintable(text);
    ValidEmpty();
    CollectedIsValid([], false, Lines(text));
    PushFrame(KIND_DATA, Lines(text), rest);
    CollectedIsJoin([], false, Lines(text));
    assert [] + [] + Join(UnspaceAll(Lines(text))) == Join(UnspaceAll(Lines(text)));
    assert DataFrame(text) + rest == EventLine(KIND_DATA) + [NEWLINE] + DataLines(Lines(text)) + [NEWLINE] + rest;
  }

  lemma ValidEmpty()
    ensures Valid([])
  {
  }

  /** Every line ending written as `\n`. */
  function Normal(text: seq<Byte>): (t: seq<Byte>)
    decreases |text|
  {
    if text == [] then []
    else if text[0] == RETURN then
      [NEWLINE] + Normal(text[if |text| > 1 && text[1] == NEWLINE then 2 else 1..])
    else [text[0]] + Normal(text[1..])
  }

  lemma {:induction false} NormalStep(text: seq<Byte>, i: nat)
    requires i <= |text| && forall j :: 0 <= j < i ==> !Break(text[j])
    ensures Normal(text) == text[..i] + Normal(text[i..])
    decreases i
  {
    if i == 0 {
      assert text[0..] == text && text[..0] + Normal(text) == Normal(text);
    } else {
      NormalStep(text[1..], i - 1);
      assert text[1..][..i - 1] == text[1..i] && text[1..][i - 1..] == text[i..];
      assert [text[0]] + text[1..i] == text[..i];
    }
  }

  lemma NormalEmpty()
    ensures Normal([]) == []
  {
  }

  lemma NormalBreak(text: seq<Byte>, i: nat)
    requires i < |text| && Break(text[i])
    ensures Normal(text[i..]) == [NEWLINE] + Normal(text[i + BreakLen(text, i)..])
  {
    var tail, n := text[i..], BreakLen(text, i);
    assert tail[n..] == text[i + n..];
  }

  /** The lines are the text up to how line endings are written. */
  lemma {:induction false} JoinOfLines(text: seq<Byte>)
    ensures Join(Lines(text)) == Normal(text)
    decreases |text|
  {
    hide FirstBreak, Normal;
    var i := FirstBreak(text);
    NormalStep(text, i);
    if i == |text| {
      NormalEmpty();
      assert text[i..] == [] && text[..i] == text;
    } else {
      var rest := text[i + BreakLen(text, i)..];
      JoinOfLines(rest);
      NormalBreak(text, i);
      hide BreakLen;
      assert Lines(text) == [text[..i]] + Lines(rest);
      assert Lines(text)[1..] == Lines(rest);
      assert text[..i] + [NEWLINE] + Normal(rest) == text[..i] + ([NEWLINE] + Normal(rest));
    }
  }

  predicate NoLeadingSpaces(lines: seq<seq<Byte>>) {
    forall i :: 0 <= i < |lines| ==> lines[i] == [] || lines[i][0] != SPACE
  }

  lemma {:induction false} JoinShrinks(lines: seq<seq<Byte>>)
    ensures |Join(UnspaceAll(lines))| <= |Join(lines)|
    ensures |Join(UnspaceAll(lines))| == |Join(lines)| ==> NoLeadingSpaces(lines)
    decreases |lines|
  {
    if |lines| > 1 {
      assert UnspaceAll(lines)[1..] == UnspaceAll(lines[1..]);
      JoinShrinks(lines[1..]);
      if |Join(UnspaceAll(lines))| == |Join(lines)| {
        assert |Unspace(lines[0])| == |lines[0]|;
        forall i | 0 <= i < |lines| ensures lines[i] == [] || lines[i][0] != SPACE {
          if i > 0 { assert lines[i] == lines[1..][i - 1]; }
        }
      }
    }
  }

  /** The client reads back the text, up to line endings, exactly when no line starts with a space. */
  lemma RoundTripIff(text: seq<Byte>)
    ensures Received(text).data == Normal(text) <==> NoLeadingSpaces(Lines(text))
  {
    JoinOfLines(text);
    if NoLeadingSpaces(Lines(text)) {
      assert UnspaceAll(Lines(text)) == Lines(text);
    } else {
      JoinShrinks(Lines(text));
    }
  }

  /** A space and a letter: the client reads back the letter alone. */
  lemma LeadingSpaceIsLost()
    ensures var text: seq<Byte> := [SPACE, 120];
      Valid(text) && Received(text).data == [120] && Normal(text) == text
  {
    var text: seq<Byte> := [SPACE, 120];
    AsciiIsValid(text);
    LastLine(text);
    assert text[1..] == [120] && text[1..][1..] == [];
    assert UnspaceAll([text]) == [[120]];
    assert Normal(text[1..]) == [120];
    assert [SPACE] + [120] == text;
  }

  // ---------------------------------------------------------------- whole event streams

  /** What the server writes on one connection. */
  datatype Item = Text(text: seq<Byte>) | Control(json: seq<Byte>) | KeepAlive

  predicate WellFormed(item: Item) {
    match item
    case Text(text) => Valid(text)
    case Control(json) => Printable(json) && json != [] && json[0] != SPACE
    case KeepAlive => true
  }

  function Wire(items: seq<Item>): (bytes: seq<Byte>)
    decreases |items|
  {
    if items == [] then [] else Frame(items[0]) + Wire(items[1..])
  }

  function Frame(item: Item): (bytes: seq<Byte>) {
    match item
    case Text(text) => DataFrame(text)
    case Control(json) => ControlFrame(json)
    case KeepAlive => KEEP_ALIVE
  }

  function EventsOf(items: seq<Item>): (events: seq<Event>)
    decreases |items|
  {
    if items == [] then []
    else (match items[0]
          case Text(text) => [Received(text)]
          case Control(json) => [Event(Some(KIND_CONTROL), json)]
          case KeepAlive => []) + EventsOf(items[1..])
  }

  lemma KeepAliveIsInvisible(rest: seq<Byte>)
    ensures Push(IDLE, KEEP_ALIVE + rest) == Push(IDLE, rest)
  {
    hide Push;
    AsciiIsValid([COLON]);
    assert KEEP_ALIVE + rest == [COLON] + [NEWLINE] + ([] + [NEWLINE] + rest);
    assert TakeLine(IDLE, [COLON]) == Parsed(IDLE, []);
    PushLine(IDLE, [COLON], [] + [NEWLINE] + rest);
    PushLine(IDLE, [], rest);
    AfterNothing(Push(IDLE, rest));
    AfterNothing(Push(IDLE, [] + [NEWLINE] + rest));
  }

  lemma ControlParses(json: seq<Byte>, rest: seq<Byte>)
    requires WellFormed(Control(json))
    ensures Push(IDLE, ControlFrame(json) + rest) == After([Event(Some(KIND_CONTROL), json)], Push(IDLE, rest))
  {
    hide Push, Valid, DataLines;
    assert Collected([], false, [json]) == json by {
      assert [json][1..] == [] && [] + [] + json == json;
    }
    PushFrame(KIND_CONTROL, [json], rest);
    assert ControlFrame(json) + rest == EventLine(KIND_CONTROL) + [NEWLINE] + DataLines([json]) + [NEWLINE] + rest;
  }

  lemma {:induction false} WireParses(items: seq<Item>)
    requires forall i :: 0 <= i < |items| ==> WellFormed(items[i])
    ensures Push(IDLE, Wire(items)) == Parsed(IDLE, EventsOf(items))
    decreases |items|
  {
    hide Push, WellFormed, Received, DataFrame, ControlFrame;
    if items == [] {
      NothingPushed();
    } else {
      var rest := Wire(items[1..]);
      WireParses(items[1..]);
      assert WellFormed(items[0]);
      match items[0]
      case Text(text) => TextParses(text, rest);
      case Control(json) => ControlParses(json, rest);
      case KeepAlive =>
        KeepAliveIsInvisible(rest);
        assert [] + EventsOf(items[1..]) == EventsOf(items[1..]);
    }
  }

  lemma TextParses(text: seq<Byte>, rest: seq<Byte>)
    requires WellFormed(Text(text))
    ensures Push(IDLE, DataFrame(text) + rest) == After([Received(text)], Push(IDLE, rest))
  {
    ParseOfPrint(text, rest);
  }

  lemma NothingPushed()
    ensures Push(IDLE, []) == Parsed(IDLE, [])
  {
    assert IDLE.buffer + [] == [];
  }

  /**
   Whatever the server prints and however the network cuts it, the client gets exactly
   the printed events, in order, and nothing for a keep-alive.
   */
  lemma EveryChunkingDelivers(items: seq<Item>, chunks: seq<seq<Byte>>)
    requires (forall i :: 0 <= i < |items| ==> WellFormed(items[i])) && Concat(chunks) == Wire(items)
    ensures PushAll(IDLE, chunks) == Parsed(IDLE, EventsOf(items))
  {
    WireParses(items);
    ChunkingDoesNotMatter(IDLE, chunks);
  }
}
