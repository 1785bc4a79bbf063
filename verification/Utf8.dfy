/** Bytes, and which byte strings are UTF-8 (section 4 of RFC 3629). */
module Utf8 {
  type Byte = b: nat | b < 256

  const NEWLINE: Byte := 10
  const RETURN: Byte := 13
  const SPACE: Byte := 32

  predicate Tail(b: Byte) { 0x80 <= b <= 0xBF }

  predicate Between(lo: nat, b: Byte, hi: nat) { lo <= b <= hi }

  /** The length of the well-formed character the string starts with, 0 if there is none. */
  function CharLen(s: seq<Byte>): (n: nat)
    ensures n <= |s| && n <= 4
    ensures forall i :: 1 <= i < n ==> s[i] >= 0x80
    ensures n > 1 ==> s[0] >= 0x80
  {
    if s == [] then 0
    else if s[0] < 0x80 then 1
    else if |s| >= 2 && Between(0xC2, s[0], 0xDF) && Tail(s[1]) then 2
    else if |s| >= 3 && Tail(s[1]) && Tail(s[2]) && (
              || (s[0] == 0xE0 && s[1] >= 0xA0)
              || Between(0xE1, s[0], 0xEC)
              || (s[0] == 0xED && s[1] <= 0x9F)
              || Between(0xEE, s[0], 0xEF)) then 3
    else if |s| >= 4 && Tail(s[1]) && Tail(s[2]) && Tail(s[3]) && (
              || (s[0] == 0xF0 && s[1] >= 0x90)
              || Between(0xF1, s[0], 0xF3)
              || (s[0] == 0xF4 && s[1] <= 0x8F)) then 4
    else 0
  }

  predicate Valid(s: seq<Byte>)
    decreases |s|
  {
    s == [] || (CharLen(s) > 0 && Valid(s[CharLen(s)..]))
  }

  lemma CharLenExtends(a: seq<Byte>, b: seq<Byte>)
    requires CharLen(a) > 0
    ensures CharLen(a + b) == CharLen(a)
  {
    var s := a + b;
    assert forall i :: 0 <= i < CharLen(a) ==> s[i] == a[i];
  }

  lemma CharLenCut(a: seq<Byte>, b: seq<Byte>)
    requires 0 < CharLen(a + b) <= |a|
    ensures CharLen(a) == CharLen(a + b)
  {
    var s := a + b;
    assert forall i :: 0 <= i < |a| ==> s[i] == a[i];
  }

  lemma {:induction false} ValidConcat(a: seq<Byte>, b: seq<Byte>)
    requires Valid(a) && Valid(b)
    ensures Valid(a + b)
    decreases |a|
  {
    if a == [] {
      assert a + b == b;
    } else {
      var n := CharLen(a);
      CharLenExtends(a, b);
      assert (a + b)[n..] == a[n..] + b;
      ValidConcat(a[n..], b);
    }
  }

  lemma AsciiFirst(s: seq<Byte>)
    requires s != [] && s[0] < 0x80
    ensures CharLen(s) == 1
  {
  }

  /** An ASCII byte is always a character boundary on both sides. */
  lemma {:induction false} ValidSplit(a: seq<Byte>, x: Byte, b: seq<Byte>)
    requires Valid(a + [x] + b) && x < 0x80
    ensures Valid(a) && Valid(b)
    decreases |a|
  {
    hide CharLen;
    var s := a + [x] + b;
    var n := CharLen(s);
    assert s[|a|] == x;
    if a == [] {
      AsciiFirst(s);
      assert s[1..] == b;
    } else {
      assert s == a + ([x] + b);
      CharLenCut(a, [x] + b);
      assert s[n..] == a[n..] + [x] + b;
      ValidSplit(a[n..], x, b);
    }
  }

  lemma {:induction false} AsciiIsValid(s: seq<Byte>)
    requires forall i :: 0 <= i < |s| ==> s[i] < 0x80
    ensures Valid(s)
    decreases |s|
  {
    if s != [] { AsciiIsValid(s[1..]); }
  }
}
