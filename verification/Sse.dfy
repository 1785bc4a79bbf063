/** The server's event-stream printer and the client's incremental parser. */
module Sse {
  import opened Wrappers
  import opened Utf8

  const COLON: Byte := 58
  /** `event:` */
  const EVENT: seq<Byte> := [101, 118, 101, 110, 116, 58]
  /** `data:` */
  const DATA: seq<Byte> := [100, 97, 116, 97, 58]
  /** The event kinds the server prints. */
  const KIND_DATA: seq<Byte> := [100, 97, 116, 97]
  const KIND_CONTROL: seq<Byte> := [99, 111, 110, 116, 114, 111, 108]

  // ---------------------------------------------------------------- splitting text into lines

  predicate Break(b: Byte) { b == NEWLINE || b == RETURN }

  /** The first line ending, or the end. */
  function FirstBreak(text: seq<Byte>): (i: nat)
    ensures i <= |text| && (i < |text| ==> Break(text[i]))
    ensures forall j :: 0 <= j < i ==> !Break(text[j])
    decreases |text|
  {
    if text == [] || Break(text[0]) then 0 else 1 + FirstBreak(text[1..])
  }

  /** `\r\n` is one line ending. */
  function BreakLen(text: seq<Byte>, i: nat): (n: nat)
    requires i < |text|
    ensures 1 <= n <= 2 && i + n <= |text|
  {
    if text[i] == RETURN && i + 1 < |text| && text[i + 1] == NEWLINE then 2 else 1
  }

  function Lines(text: seq<Byte>): (lines: seq<seq<Byte>>)
    ensures |lines| > 0
    decreases |text|
  {
    var i := FirstBreak(text);
    if i == |text| then [text] else [text[..i]] + Lines(text[i + BreakLen(text, i)..])
  }

  lemma {:induction false} FirstBreakIs(text: seq<Byte>, i: nat)
    requires i <= |text| && (i < |text| ==> Break(text[i])) && forall j :: 0 <= j < i ==> !Break(text[j])
    ensures FirstBreak(text) == i
    decreases |text|
  {
    if i > 0 { FirstBreakIs(text[1..], i - 1); }
  }

  lemma NextLine(text: seq<Byte>, start: nat, i: nat)
    requires start <= i < |text| && Break(text[i]) && forall j :: start <= j < i ==> !Break(text[j])
    ensures Lines(text[start..]) == [text[start..i]] + Lines(text[i + BreakLen(text, i)..])
  {
    hide FirstBreak;
    var rest, n := text[start..], BreakLen(text, i);
    FirstBreakIs(rest, i - start);
    assert rest[..i - start] == text[start..i];
    assert BreakLen(rest, i - start) == n && rest[i - start + n..] == text[i + n..];
  }

  method SplitLines(text: seq<Byte>) returns (lines: seq<seq<Byte>>)
    ensures lines == Lines(text)
  {
    hide Lines;
    lines := [];
    var start, i := 0, 0;
    assert text[0..] == text;
    while i < |text|
      invariant 0 <= start <= i <= |text|
      invariant forall j :: start <= j < i ==> !Break(text[j])
      invariant lines + Lines(text[start..]) == Lines(text)
      decreases |text| - i
    {
      if text[i] == RETURN {
        NextLine(text, start, i);
        lines := lines + [text[start..i]];
        if i + 1 < |text| && text[i + 1] == NEWLINE {
          i := i + 2;
        } else {
          i := i + 1;
        }
        start := i;
      } else if text[i] == NEWLINE {
        NextLine(text, start, i);
        lines := lines + [text[start..i]];
        i := i + 1;
        start := i;
      } else {
        i := i + 1;
      }
    }
    LastLine(text[start..]);
    lines := lines + [text[start..]];
  }

  lemma LastLine(text: seq<Byte>)
    requires forall j :: 0 <= j < |text| ==> !Break(text[j])
    ensures Lines(text) == [text]
  {
    FirstBreakIs(text, |text|);
  }

  // ---------------------------------------------------------------- printing

  function DataLines(lines: seq<seq<Byte>>): (bytes: seq<Byte>)
    decreases |lines|
  {
    if lines == [] then [] else DATA + lines[0] + [NEWLINE] + DataLines(lines[1..])
  }

  function EventLine(kind: seq<Byte>): (line: seq<Byte>) { EVENT + [SPACE] + kind }

  function DataFrame(text: seq<Byte>): (frame: seq<Byte>) {
    EventLine(KIND_DATA) + [NEWLINE] + DataLines(Lines(text)) + [NEWLINE]
  }

  function ControlFrame(json: seq<Byte>): (frame: seq<Byte>) {
    EventLine(KIND_CONTROL) + [NEWLINE] + DataLines([json]) + [NEWLINE]
  }

  const KEEP_ALIVE: seq<Byte> := [COLON, NEWLINE, NEWLINE]

  method FormatRawDataFrame(text: seq<Byte>) returns (frame: seq<Byte>)
    ensures frame == DataFrame(text)
  {
    frame := EventLine(KIND_DATA) + [NEWLINE];
    var lines := SplitLines(text);
    ghost var head := frame;
    var i := 0;
    while i < |lines|
      invariant 0 <= i <= |lines|
      invariant frame + DataLines(lines[i..]) == head + DataLines(lines)
    {
      assert lines[i..][0] == lines[i] && lines[i..][1..] == lines[i + 1..];
      var line := DATA + lines[i] + [NEWLINE];
      assert frame + (line + DataLines(lines[i + 1..])) == (frame + line) + DataLines(lines[i + 1..]);
      frame := frame + line;
      i := i + 1;
    }
    assert frame == frame + DataLines(lines[i..]);
    frame := frame + [NEWLINE];
  }

  // ---------------------------------------------------------------- parsing

  datatype Event = Event(kind: Option<seq<Byte>>, data: seq<Byte>)

  datatype Parser = Parser(buffer: seq<Byte>, event: Option<seq<Byte>>, data: seq<Byte>, sawData: bool)

  const IDLE: Parser := Parser([], None, [], false)

  /** Pushing bytes yields events, or fails on bytes that are not UTF-8. */
  datatype Outcome = Parsed(parser: Parser, events: seq<Event>) | Failed(parser: Parser)

  /** The length of the white-space character the text starts with, 0 if there is none. */
  function LeadingSpace(s: seq<Byte>): (n: nat)
    ensures n <= |s|
  {
    if |s| >= 1 && IsSpace(s[..1]) then 1
    else if |s| >= 2 && IsSpace(s[..2]) then 2
    else if |s| >= 3 && IsSpace(s[..3]) then 3
    else 0
  }

  function TrailingSpace(s: seq<Byte>): (n: nat)
    ensures n <= |s|
  {
    if |s| >= 1 && IsSpace(s[|s| - 1..]) then 1
    else if |s| >= 2 && IsSpace(s[|s| - 2..]) then 2
    else if |s| >= 3 && IsSpace(s[|s| - 3..]) then 3
    else 0
  }

  /** The UTF-8 forms of the characters with the Unicode property White_Space. */
  predicate IsSpace(c: seq<Byte>) {
    || (|c| == 1 && (9 <= c[0] <= 13 || c[0] == SPACE))
    || (|c| == 2 && c[0] == 0xC2 && (c[1] == 0x85 || c[1] == 0xA0))
    || (|c| == 3 && (
            || (c[0] == 0xE1 && c[1] == 0x9A && c[2] == 0x80)
            || (c[0] == 0xE2 && c[1] == 0x80 && (0x80 <= c[2] <= 0x8A || c[2] == 0xA8 || c[2] == 0xA9 || c[2] == 0xAF))
            || (c[0] == 0xE2 && c[1] == 0x81 && c[2] == 0x9F)
            || (c[0] == 0xE3 && c[1] == 0x80 && c[2] == 0x80)))
  }

  function TrimStart(s: seq<Byte>): (t: seq<Byte>)
    decreases |s|
  {
    if LeadingSpace(s) == 0 then s else TrimStart(s[LeadingSpace(s)..])
  }

  function TrimEnd(s: seq<Byte>): (t: seq<Byte>)
    decreases |s|
  {
    if TrailingSpace(s) == 0 then s else TrimEnd(s[..|s| - TrailingSpace(s)])
  }

  function Unspace(s: seq<Byte>): (t: seq<Byte>) {
    if s != [] && s[0] == SPACE then s[1..] else s
  }

  function DropReturn(line: seq<Byte>): (l: seq<Byte>) {
    if line != [] && line[|line| - 1] == RETURN then line[..|line| - 1] else line
  }

  function FirstNewline(s: seq<Byte>): (i: nat)
    ensures i <= |s| && (i < |s| ==> s[i] == NEWLINE) && NEWLINE !in s[..i]
    decreases |s|
  {
    if s == [] || s[0] == NEWLINE then 0 else 1 + FirstNewline(s[1..])
  }

  /** One line: blank ends an event, `event:` names it, `data:` extends it, anything else is ignored. */
  function TakeLine(p: Parser, line: seq<Byte>): (o: Outcome)
    ensures o.parser.buffer == p.buffer
  {
    if line == [] then
      if !p.sawData && p.event.None? then Parsed(p, [])
      else if !Valid(p.data) then Failed(p.(event := None))
      else Parsed(p.(event := None, data := [], sawData := false), [Event(p.event, p.data)])
    else if !Valid(line) then Failed(p)
    else if EVENT <= line then Parsed(p.(event := Some(TrimEnd(TrimStart(line[|EVENT|..])))), [])
    else if DATA <= line then
      Parsed(p.(data := p.data + (if p.sawData then [NEWLINE] else []) + Unspace(line[|DATA|..]), sawData := true), [])
    else Parsed(p, [])
  }

  /** Take every complete line of the buffer. */
  function Drain(p: Parser): (o: Outcome)
    decreases |p.buffer|
  {
    var i := FirstNewline(p.buffer);
    if i == |p.buffer| then Parsed(p, [])
    else
      var one := TakeLine(p.(buffer := p.buffer[i + 1..]), DropReturn(p.buffer[..i]));
      if one.Failed? then one else After(one.events, Drain(one.parser))
  }

  function After(events: seq<Event>, o: Outcome): (o': Outcome) {
    if o.Failed? then o else Parsed(o.parser, events + o.events)
  }

  function Push(p: Parser, bytes: seq<Byte>): (o: Outcome) {
    Drain(p.(buffer := p.buffer + bytes))
  }

  class SseParser {
    var buffer: seq<Byte>
    var event: Option<seq<Byte>>
    var data: seq<Byte>
    var sawData: bool

    ghost function State(): (p: Parser) reads this {
      Parser(buffer, event, data, sawData)
    }

    constructor ()
      ensures State() == IDLE
    {
      buffer, event, data, sawData := [], None, [], false;
    }

    method PushLine(line: seq<Byte>) returns (r: Option<seq<Event>>)
      modifies this
      ensures var o := TakeLine(old(State()), line);
        State() == o.parser && r == if o.Failed? then None else Some(o.events)
    {
      hide Valid, TrimStart, TrimEnd;
      r := Some([]);
      if line == [] {
        if sawData || event.Some? {
          var kind := event;
          event := None;
          if !Valid(data) { return None; }
          r := Some([Event(kind, data)]);
          data, sawData := [], false;
        }
      } else {
        if !Valid(line) { return None; }
        if EVENT <= line {
          event := Some(TrimEnd(TrimStart(line[|EVENT|..])));
        } else if DATA <= line {
          if sawData { data := data + [NEWLINE]; }
          data := data + Unspace(line[|DATA|..]);
          sawData := true;
        }
      }
    }

    method PushBytes(bytes: seq<Byte>) returns (r: Option<seq<Event>>)
      modifies this
      ensures var o := Push(old(State()), bytes);
        State() == o.parser && r == if o.Failed? then None else Some(o.events)
    {
      hide TakeLine, DropReturn, FirstNewline;
      buffer := buffer + bytes;
      var events: seq<Event> := [];
      ghost var whole := Push(old(State()), bytes);
      while FirstNewline(buffer) < |buffer|
        invariant whole == After(events, Drain(State()))
        decreases |buffer|
      {
        var end := FirstNewline(buffer);
        var line := DropReturn(buffer[..end]);
        buffer := buffer[end + 1..];
        ghost var one := TakeLine(State(), line);
        var emitted := PushLine(line);
        if emitted.None? { return None; }
        AfterAfter(events, one.events, Drain(State()));
        events := events + emitted.value;
      }
      assert events + [] == events;
      r := Some(events);
    }
  }

  lemma AfterAfter(a: seq<Event>, b: seq<Event>, o: Outcome)
    ensures After(a, After(b, o)) == After(a + b, o)
  {
    if o.Parsed? { assert a + (b + o.events) == (a + b) + o.events; }
  }
}
