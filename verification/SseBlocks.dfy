/** What the parser makes of any byte stream: block by block, whoever printed it. */
module SseBlocks {
  import opened Wrappers
  import opened Utf8
  import opened Sse
  import opened SseRoundTrip

  // ---------------------------------------------------------------- trimming a name

  /** White-space characters and nothing else. */
  predicate White(s: seq<Byte>)
    decreases |s|
  {
    s == [] || exists n :: 1 <= n <= |s| && n <= 3 && IsSpace(s[..n]) && White(s[n..])
  }

  function Last(s: seq<Byte>, n: nat): (t: seq<Byte>)
    requires n <= |s|
  {
    s[|s| - n..]
  }

  /** No white space at either end. */
  predicate Bare(t: seq<Byte>) {
    forall n :: 1 <= n <= 3 && n <= |t| ==> !IsSpace(t[..n]) && !IsSpace(Last(t, n))
  }

  lemma LeadingIs(s: seq<Byte>)
    ensures var n := LeadingSpace(s);
      && (n > 0 ==> n <= 3 && IsSpace(s[..n]))
      && (n == 0 ==> forall k :: 1 <= k <= 3 && k <= |s| ==> !IsSpace(s[..k]))
  {
  }

  lemma TrailingIs(s: seq<Byte>)
    ensures var n := TrailingSpace(s);
      && (n > 0 ==> n <= 3 && IsSpace(s[|s| - n..]))
      && (n == 0 ==> forall k :: 1 <= k <= 3 && k <= |s| ==> !IsSpace(Last(s, k)))
  {
  }

  lemma {:induction false} StartIs(s: seq<Byte>) returns (before: seq<Byte>)
    ensures White(before) && s == before + TrimStart(s) && LeadingSpace(TrimStart(s)) == 0
    decreases |s|
  {
    hide LeadingSpace, IsSpace;
    var n := LeadingSpace(s);
    LeadingIs(s);
    before := [];
    if n > 0 {
      var more := StartIs(s[n..]);
      before := s[..n] + more;
      assert before[..n] == s[..n] && before[n..] == more;
    }
  }

  lemma {:induction false} WhiteConcat(a: seq<Byte>, b: seq<Byte>)
    requires White(a) && White(b)
    ensures White(a + b)
    decreases |a|
  {
    hide IsSpace;
    if a == [] {
      assert a + b == b;
    } else {
      var n :| 1 <= n <= |a| && n <= 3 && IsSpace(a[..n]) && White(a[n..]);
      WhiteConcat(a[n..], b);
      assert (a + b)[..n] == a[..n] && (a + b)[n..] == a[n..] + b;
    }
  }

  lemma OneSpace(s: seq<Byte>)
    requires 1 <= |s| <= 3 && IsSpace(s)
    ensures White(s)
  {
    assert s[..|s|] == s && White(s[|s|..]);
  }

  lemma {:induction false} EndIs(s: seq<Byte>) returns (after: seq<Byte>)
    ensures White(after) && s == TrimEnd(s) + after && TrailingSpace(TrimEnd(s)) == 0
    decreases |s|
  {
    hide TrailingSpace, IsSpace, White;
    var n := TrailingSpace(s);
    TrailingIs(s);
    if n > 0 {
      var last := s[|s| - n..];
      OneSpace(last);
      after := EndIs(s[..|s| - n]);
      WhiteConcat(after, last);
      after := after + last;
    } else {
      after := [];
      NothingIsWhite();
    }
  }

  lemma NothingIsWhite()
    ensures White([])
  {
  }

  /** Trimming takes off white space only, and all of it. */
  lemma TrimIs(s: seq<Byte>) returns (before: seq<Byte>, after: seq<Byte>)
    ensures var t := TrimEnd(TrimStart(s)); White(before) && White(after) && Bare(t) && s == before + t + after
  {
    before := StartIs(s);
    after := EndIs(TrimStart(s));
    var u, t := TrimStart(s), TrimEnd(TrimStart(s));
    LeadingIs(u);
    TrailingIs(t);
    hide LeadingSpace, TrailingSpace, IsSpace, White;
    forall k | 1 <= k <= 3 && k <= |t| ensures !IsSpace(t[..k]) { assert t[..k] == u[..k]; }
    assert s == before + (t + after) == before + t + after;
  }

  // ---------------------------------------------------------------- one block

  /** The text of the last line that names the event. */
  function NameIn(kind: Option<seq<Byte>>, lines: seq<seq<Byte>>): (k: Option<seq<Byte>>)
    decreases |lines|
  {
    if lines == [] then kind
    else NameIn(if EVENT <= lines[0] then Some(TrimEnd(TrimStart(lines[0][|EVENT|..]))) else kind, lines[1..])
  }

  /** What follows `data:` in the lines that have it. */
  function DataIn(lines: seq<seq<Byte>>): (data: seq<seq<Byte>>)
    decreases |lines|
  {
    if lines == [] then []
    else (if DATA <= lines[0] then [lines[0][|DATA|..]] else []) + DataIn(lines[1..])
  }

  /** The lines as sent, each with its newline. */
  function Sent(lines: seq<seq<Byte>>): (bytes: seq<Byte>)
    decreases |lines|
  {
    if lines == [] then [] else lines[0] + [NEWLINE] + Sent(lines[1..])
  }

  /** The lines without a return at their ends. */
  function Plain(lines: seq<seq<Byte>>): (s: seq<seq<Byte>>)
    ensures |s| == |lines|
  {
    seq(|lines|, i requires 0 <= i < |lines| => DropReturn(lines[i]))
  }

  /** No newline within, and something on every line. */
  predicate Block(lines: seq<seq<Byte>>) {
    forall i :: 0 <= i < |lines| ==> NEWLINE !in lines[i] && DropReturn(lines[i]) != []
  }

  predicate AllValid(lines: seq<seq<Byte>>) {
    forall i :: 0 <= i < |lines| ==> Valid(DropReturn(lines[i]))
  }

  /** The parser after the lines. */
  function Reading(p: Parser, lines: seq<seq<Byte>>): (q: Parser) {
    p.(event := NameIn(p.event, Plain(lines)),
       data := Collected(p.data, p.sawData, DataIn(Plain(lines))),
       sawData := p.sawData || DataIn(Plain(lines)) != [])
  }

  lemma ReadOne(p: Parser, lines: seq<seq<Byte>>)
    requires lines != [] && Block(lines) && Valid(DropReturn(lines[0]))
    ensures var o := TakeLine(p, DropReturn(lines[0]));
      o.Parsed? && o.events == [] && o.parser.buffer == p.buffer && Reading(o.parser, lines[1..]) == Reading(p, lines)
  {
    hide Valid, TrimStart, TrimEnd, Unspace;
    var line := DropReturn(lines[0]);
    assert Plain(lines)[0] == line && Plain(lines)[1..] == Plain(lines[1..]);
    assert EVENT <= line ==> line[0] == 101;
    assert DATA <= line ==> line[0] == 100;
    var rest := DataIn(Plain(lines[1..]));
    if DATA <= line {
      var here := line[|DATA|..];
      assert DataIn(Plain(lines)) == [here] + rest;
      assert ([here] + rest)[0] == here && ([here] + rest)[1..] == rest;
    } else {
      assert [] + rest == rest;
    }
  }

  lemma PushLineFails(p: Parser, line: seq<Byte>, rest: seq<Byte>)
    requires p.buffer == [] && NEWLINE !in line && TakeLine(p, DropReturn(line)).Failed?
    ensures Push(p, line + [NEWLINE] + rest).Failed?
  {
    hide TakeLine;
    var bytes := line + [NEWLINE] + rest;
    assert p.buffer + bytes == bytes;
    NewlineAfter(line, rest);
    assert bytes[..|line|] == line && bytes[|line| + 1..] == rest;
    TakeLineIgnoresBuffer(p, DropReturn(line), rest);
    assert p.(buffer := p.buffer + rest) == p.(buffer := rest);
  }

  /** Lines are read one by one until one is not UTF-8. */
  lemma {:induction false} ReadAll(p: Parser, lines: seq<seq<Byte>>, rest: seq<Byte>)
    requires p.buffer == [] && Block(lines)
    ensures if AllValid(lines) then Push(p, Sent(lines) + rest) == Push(Reading(p, lines), rest)
            else Push(p, Sent(lines) + rest).Failed?
    decreases |lines|
  {
    hide Push, TakeLine, Valid, Reading, DropReturn;
    if lines == [] {
      ReadNone(p);
      assert Sent(lines) + rest == rest;
    } else {
      var more := Sent(lines[1..]) + rest;
      assert Sent(lines) + rest == lines[0] + [NEWLINE] + more;
      assert Block(lines[1..]);
      assert AllValid(lines) <==> Valid(DropReturn(lines[0])) && AllValid(lines[1..]) by { FirstAndRest(lines); }
      if Valid(DropReturn(lines[0])) {
        ReadOne(p, lines);
        PushLine(p, lines[0], more);
        var q := TakeLine(p, DropReturn(lines[0])).parser;
        AfterNothing(Push(q, more));
        ReadAll(q, lines[1..], rest);
      } else {
        InvalidFails(p, DropReturn(lines[0]));
        PushLineFails(p, lines[0], more);
      }
    }
  }

  lemma ReadNone(p: Parser)
    ensures Reading(p, []) == p
  {
  }

  lemma InvalidFails(p: Parser, line: seq<Byte>)
    requires line != [] && !Valid(line)
    ensures TakeLine(p, line).Failed?
  {
  }

  lemma FirstAndRest(lines: seq<seq<Byte>>)
    requires lines != []
    ensures AllValid(lines) <==> Valid(DropReturn(lines[0])) && AllValid(lines[1..])
  {
    hide Valid, DropReturn;
    if Valid(DropReturn(lines[0])) && AllValid(lines[1..]) {
      forall i | 0 <= i < |lines| ensures Valid(DropReturn(lines[i])) {
        if i > 0 { assert lines[1..][i - 1] == lines[i]; }
      }
    }
    if AllValid(lines) {
      assert forall i :: 0 <= i < |lines| - 1 ==> lines[1..][i] == lines[i + 1];
    }
  }

  lemma {:induction false} DataIsValid(lines: seq<seq<Byte>>, sofar: seq<Byte>, saw: bool)
    requires Valid(sofar) && forall i :: 0 <= i < |lines| ==> Valid(lines[i])
    ensures Valid(Collected(sofar, saw, DataIn(lines)))
    decreases |lines|
  {
    hide Valid, Unspace;
    if lines != [] {
      var rest := DataIn(lines[1..]);
      if DATA <= lines[0] {
        var here, sep := lines[0][|DATA|..], if saw then [NEWLINE] else [];
        assert lines[0] == [100, 97, 116, 97] + [COLON] + here;
        ValidSplit([100, 97, 116, 97], COLON, here);
        UnspaceIsValid(here);
        AsciiIsValid(sep);
        ValidConcat(sofar, sep);
        ValidConcat(sofar + sep, Unspace(here));
        assert DataIn(lines)[0] == here && DataIn(lines)[1..] == rest;
        DataIsValid(lines[1..], sofar + sep + Unspace(here), true);
      } else {
        assert DataIn(lines) == [] + rest == rest;
        DataIsValid(lines[1..], sofar, saw);
      }
    }
  }

  /** The event of a block: none without a name and without data. */
  function EventsOf(lines: seq<seq<Byte>>): (events: seq<Event>) {
    var name, data := NameIn(None, Plain(lines)), DataIn(Plain(lines));
    if name.None? && data == [] then [] else [Event(name, Join(UnspaceAll(data)))]
  }

  /**
   Any block of lines up to a blank one, with either line ending: if every line is UTF-8
   the parser yields the last name and the joined data as one event, or nothing if there
   is neither, and starts afresh; otherwise it fails.
   */
  lemma AnyBlockParses(lines: seq<seq<Byte>>, blank: seq<Byte>, rest: seq<Byte>)
    requires Block(lines) && (blank == [] || blank == [RETURN])
    ensures var bytes := Sent(lines) + (blank + [NEWLINE] + rest);
      if AllValid(lines) then Push(IDLE, bytes) == After(EventsOf(lines), Push(IDLE, rest))
      else Push(IDLE, bytes).Failed?
  {
    hide Push, Block, Valid, Collected, NameIn, DataIn;
    var tail := blank + [NEWLINE] + rest;
    ReadAll(IDLE, lines, tail);
    if AllValid(lines) {
      var p, data := Reading(IDLE, lines), DataIn(Plain(lines));
      ValidEmpty();
      DataIsValid(Plain(lines), [], false);
      CollectedStarts(data);
      assert DropReturn(blank) == [];
      PushLine(p, blank, rest);
      assert data == [] ==> UnspaceAll(data) == [];
    }
  }

  lemma CollectedStarts(data: seq<seq<Byte>>)
    ensures Collected([], false, data) == Join(UnspaceAll(data))
  {
    if data != [] { CollectedIsJoin([], false, data); }
  }
}
