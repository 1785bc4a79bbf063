/** The printed form of offsets, and why comparing printed offsets is comparing positions. */
module OffsetCodec {
  import opened Wrappers
  import opened Offsets
  import Lex

  // ---------------------------------------------------------------- hexadecimal digits

  function Digit(d: nat): (c: char)
    requires d < 16
  {
    if d < 10 then '0' + d as char else 'a' + (d - 10) as char
  }

  predicate IsHex(c: char) {
    '0' <= c <= '9' || 'a' <= c <= 'f'
  }

  function DigitValue(c: char): (d: nat)
    requires IsHex(c)
    ensures d < 16 && Digit(d) == c
  {
    if c <= '9' then c as int - '0' as int else c as int - 'a' as int + 10
  }

  function Pow16(k: nat): (p: nat)
    ensures p > 0
  {
    if k == 0 then 1 else 16 * Pow16(k - 1)
  }

  /** The last `k` hexadecimal digits of `n`, most significant first. */
  function Hex(n: nat, k: nat): (s: string)
    ensures |s| == k
  {
    if k == 0 then "" else Hex(n / 16, k - 1) + [Digit(n % 16)]
  }

  function Value(s: string): (n: nat)
    requires forall i :: 0 <= i < |s| ==> IsHex(s[i])
    decreases |s|
  {
    if s == "" then 0 else 16 * Value(s[..|s| - 1]) + DigitValue(s[|s| - 1])
  }

  lemma {:induction false} HexIsHex(n: nat, k: nat)
    ensures forall i :: 0 <= i < k ==> IsHex(Hex(n, k)[i])
  {
    if k > 0 {
      HexIsHex(n / 16, k - 1);
    }
  }

  lemma DigitRoundTrip(d: nat)
    requires d < 16
    ensures IsHex(Digit(d)) && DigitValue(Digit(d)) == d
  {
  }

  lemma {:induction false} ValueOfHex(n: nat, k: nat)
    requires n < Pow16(k)
    ensures (forall i :: 0 <= i < k ==> IsHex(Hex(n, k)[i])) && Value(Hex(n, k)) == n
  {
    HexIsHex(n, k);
    if k > 0 {
      ValueOfHex(n / 16, k - 1);
      var s := Hex(n, k);
      assert s[..k - 1] == Hex(n / 16, k - 1);
      DigitRoundTrip(n % 16);
    }
  }

  lemma {:induction false} HexOfValue(s: string)
    requires forall i :: 0 <= i < |s| ==> IsHex(s[i])
    ensures Value(s) < Pow16(|s|) && Hex(Value(s), |s|) == s
    decreases |s|
  {
    if s != "" {
      var t, d := s[..|s| - 1], DigitValue(s[|s| - 1]);
      HexOfValue(t);
      assert (16 * Value(t) + d) / 16 == Value(t) && (16 * Value(t) + d) % 16 == d;
      assert s == t + [s[|s| - 1]];
    }
  }

  lemma {:induction false} HexDigitAt(n: nat, k: nat, i: nat)
    requires i < k
    ensures Hex(n, k)[i] == Digit((n / Pow16(k - 1 - i)) % 16)
    decreases k
  {
    if i < k - 1 {
      HexDigitAt(n / 16, k - 1, i);
      DivTwice(n, Pow16(k - 2 - i));
    }
  }

  lemma DivTwice(n: nat, p: nat)
    requires p > 0
    ensures (n / 16) / p == n / (16 * p)
  {
    var q, r := n / 16 / p, n / 16 % p;
    assert n / 16 == q * p + r;
    assert n == 16 * (q * p + r) + n % 16;
    var low := 16 * r + n % 16;
    assert 0 <= low < 16 * p by { assert 16 * r + 15 < 16 * p; }
    QuotientIs(n, 16 * p, q, low);
  }

  lemma MulGrows(x: int, d: int)
    requires d > 0
    ensures x >= 1 ==> x * d >= d
    ensures x <= -1 ==> x * d <= -d
  {
  }

  lemma QuotientIs(n: nat, d: nat, q: nat, r: nat)
    requires d > 0 && n == q * d + r && r < d
    ensures n / d == q
  {
    var q', r' := n / d, n % d;
    assert n == q' * d + r';
    assert (q - q') * d == r' - r;
    MulGrows(q - q', d);
  }

  lemma SixteenDigits()
    ensures Pow16(16) == U64
  {
    assert Pow16(4) == 0x1_0000;
    assert Pow16(8) == 0x1_0000_0000 by {
      assert Pow16(5) == 0x10_0000 && Pow16(6) == 0x100_0000 && Pow16(7) == 0x1000_0000;
    }
    assert Pow16(12) == 0x1_0000_0000_0000 by {
      assert Pow16(9) == 0x10_0000_0000 && Pow16(10) == 0x100_0000_0000 && Pow16(11) == 0x1000_0000_0000;
    }
    assert Pow16(13) == 0x10_0000_0000_0000 && Pow16(14) == 0x100_0000_0000_0000 && Pow16(15) == 0x1000_0000_0000_0000;
  }

  // ---------------------------------------------------------------- printing and parsing

  const START: string := "-1"
  const NOW: string := "now"

  predicate IsU64(o: Offset) {
    o.Concrete? ==> o.readSeq < U64 && o.byteOffset < U64
  }

  function Print(o: Offset): (s: string) {
    match o
    case Start => START
    case Now => NOW
    case Concrete(s, b) => Hex(s, 16) + "_" + Hex(b, 16)
  }

  /** Fill the 33 bytes digit by digit, as shifts and masks do. */
  method EncodeOffset(readSeq: nat, byteOffset: nat) returns (raw: array<char>)
    requires readSeq < U64 && byteOffset < U64
    ensures fresh(raw) && raw.Length == 33
    ensures raw[..] == Print(Concrete(readSeq, byteOffset))
  {
    raw := new char[33];
    for i := 0 to 16
      invariant forall j :: 0 <= j < i ==> raw[j] == Hex(readSeq, 16)[j]
    {
      HexDigitAt(readSeq, 16, i);
      raw[i] := Digit((readSeq / Pow16(15 - i)) % 16);
    }
    raw[16] := '_';
    for i := 0 to 16
      invariant forall j :: 0 <= j < 16 ==> raw[j] == Hex(readSeq, 16)[j]
      invariant raw[16] == '_'
      invariant forall j :: 0 <= j < i ==> raw[17 + j] == Hex(byteOffset, 16)[j]
    {
      HexDigitAt(byteOffset, 16, i);
      raw[17 + i] := Digit((byteOffset / Pow16(15 - i)) % 16);
    }
    var text := Print(Concrete(readSeq, byteOffset));
    forall j | 0 <= j < 33 ensures raw[j] == text[j] {
      if j > 16 {
        assert raw[17 + (j - 17)] == Hex(byteOffset, 16)[j - 17];
      }
    }
  }

  predicate AllHex(s: string) {
    forall i :: 0 <= i < |s| ==> IsHex(s[i])
  }

  method DecodeHex16(s: string) returns (r: Option<nat>)
    ensures r == if |s| == 16 && AllHex(s) then Some(Value(s)) else None
  {
    if |s| != 16 {
      return None;
    }
    var value := 0;
    for i := 0 to 16
      invariant AllHex(s[..i]) && value == Value(s[..i])
    {
      if !IsHex(s[i]) {
        assert !AllHex(s);
        return None;
      }
      assert s[..i + 1][..i] == s[..i];
      value := 16 * value + DigitValue(s[i]);
    }
    assert s[..16] == s;
    r := Some(value);
  }

  predicate Shaped(s: string) {
    |s| == 33 && s[16] == '_' && AllHex(s[..16]) && AllHex(s[17..])
  }

  function Parse(s: string): (o: Option<Offset>) {
    if s == START then Some(Start)
    else if s == NOW then Some(Now)
    else if Shaped(s) then Some(Concrete(Value(s[..16]), Value(s[17..])))
    else None
  }

  method FromStr(s: string) returns (o: Option<Offset>)
    ensures o == Parse(s)
  {
    if s == START {
      return Some(Start);
    }
    if s == NOW {
      return Some(Now);
    }
    if |s| != 33 || s[16] != '_' {
      return None;
    }
    for i := 0 to 33
      invariant forall j :: 0 <= j < i && j != 16 ==> IsHex(s[j])
    {
      if i != 16 && !IsHex(s[i]) {
        assert !Shaped(s) by {
          if i < 16 { assert s[..16][i] == s[i]; } else { assert s[17..][i - 17] == s[i]; }
        }
        return None;
      }
    }
    var readSeq := DecodeHex16(s[..16]);
    var byteOffset := DecodeHex16(s[17..]);
    if readSeq.None? || byteOffset.None? {
      return None;
    }
    o := Some(Concrete(readSeq.value, byteOffset.value));
  }

  /** Printing then parsing gives the offset back. */
  lemma ParseOfPrint(o: Offset)
    requires IsU64(o)
    ensures Parse(Print(o)) == Some(o)
  {
    if o.Concrete? {
      SixteenDigits();
      ValueOfHex(o.readSeq, 16);
      ValueOfHex(o.byteOffset, 16);
      var s := Print(o);
      assert s[..16] == Hex(o.readSeq, 16) && s[17..] == Hex(o.byteOffset, 16);
    }
  }

  /** Parsing then printing gives the text back, so only canonical text is accepted. */
  lemma PrintOfParse(s: string)
    requires Parse(s).Some?
    ensures IsU64(Parse(s).value) && Print(Parse(s).value) == s
  {
    if s != START && s != NOW {
      SixteenDigits();
      HexOfValue(s[..16]);
      HexOfValue(s[17..]);
      assert s == s[..16] + "_" + s[17..];
    }
  }

  /** The accepted texts are exactly the printed offsets. */
  lemma AcceptsExactlyPrinted(s: string)
    ensures Parse(s).Some? <==> exists o: Offset :: IsU64(o) && Print(o) == s
  {
    if Parse(s).Some? {
      PrintOfParse(s);
    }
    forall o: Offset | IsU64(o) && Print(o) == s ensures Parse(s).Some? {
      ParseOfPrint(o);
    }
  }

  // ---------------------------------------------------------------- order

  lemma {:induction false} LexConcat(a: string, b: string, c: string, d: string)
    requires |a| == |b|
    ensures Lex.Less(a + c, b + d) <==> Lex.Less(a, b) || (a == b && Lex.Less(c, d))
    decreases |a|
  {
    if a == "" {
      assert a + c == c && b + d == d;
    } else {
      assert (a + c)[1..] == a[1..] + c && (b + d)[1..] == b[1..] + d;
      LexConcat(a[1..], b[1..], c, d);
      assert a == [a[0]] + a[1..] && b == [b[0]] + b[1..];
    }
  }

  lemma DigitOrder(x: nat, y: nat)
    requires x < 16 && y < 16
    ensures Lex.Less([Digit(x)], [Digit(y)]) <==> x < y
  {
  }

  lemma {:induction false} HexOrder(m: nat, n: nat, k: nat)
    requires m < Pow16(k) && n < Pow16(k)
    ensures Lex.Less(Hex(m, k), Hex(n, k)) <==> m < n
    ensures Hex(m, k) == Hex(n, k) <==> m == n
  {
    if k > 0 {
      HexOrder(m / 16, n / 16, k - 1);
      LexConcat(Hex(m / 16, k - 1), Hex(n / 16, k - 1), [Digit(m % 16)], [Digit(n % 16)]);
      DigitOrder(m % 16, n % 16);
      ValueOfHex(m, k);
      ValueOfHex(n, k);
    }
  }

  /** `cmp` as written: numeric on two concrete offsets, textual otherwise. */
  predicate MixedLess(a: Offset, b: Offset) {
    if a.Concrete? && b.Concrete? then
      a.readSeq < b.readSeq || (a.readSeq == b.readSeq && a.byteOffset < b.byteOffset)
    else Lex.Less(Print(a), Print(b))
  }

  lemma SentinelsAround(s: nat, b: nat)
    ensures Lex.Less(START, Print(Concrete(s, b))) && !Lex.Less(Print(Concrete(s, b)), START)
    ensures Lex.Less(Print(Concrete(s, b)), NOW) && !Lex.Less(NOW, Print(Concrete(s, b)))
  {
    HexIsHex(s, 16);
    assert Print(Concrete(s, b))[0] == Hex(s, 16)[0];
  }

  lemma ConcreteOrder(m: nat, x: nat, n: nat, y: nat)
    requires m < U64 && x < U64 && n < U64 && y < U64
    ensures Lex.Less(Print(Concrete(m, x)), Print(Concrete(n, y))) <==> m < n || (m == n && x < y)
  {
    SixteenDigits();
    HexOrder(m, n, 16);
    HexOrder(x, y, 16);
    hide Pow16, Hex, Lex.Less;
    LexConcat(Hex(m, 16) + "_", Hex(n, 16) + "_", Hex(x, 16), Hex(y, 16));
    LexConcat(Hex(m, 16), Hex(n, 16), "_", "_");
    Lex.LessIsIrreflexive("_");
    assert Hex(m, 16) + "_" == Hex(n, 16) + "_" ==> Hex(m, 16) == Hex(n, 16) by {
      assert (Hex(m, 16) + "_")[..|Hex(m, 16)|] == Hex(m, 16);
      assert (Hex(n, 16) + "_")[..|Hex(n, 16)|] == Hex(n, 16);
    }
  }

  /** The mixed comparison, the position order and the order of the printed text are one order. */
  lemma OrderIsTextual(a: Offset, b: Offset)
    requires IsU64(a) && IsU64(b)
    ensures MixedLess(a, b) <==> Less(a, b)
    ensures Lex.Less(Print(a), Print(b)) <==> Less(a, b)
    ensures Print(a) == Print(b) <==> a == b
  {
    ParseOfPrint(a);
    ParseOfPrint(b);
    hide Parse;
    if a.Concrete? && b.Concrete? {
      ConcreteOrder(a.readSeq, a.byteOffset, b.readSeq, b.byteOffset);
    } else {
      if a.Concrete? { SentinelsAround(a.readSeq, a.byteOffset); }
      if b.Concrete? { SentinelsAround(b.readSeq, b.byteOffset); }
      Lex.LessIsIrreflexive(Print(a));
      Lex.LessIsIrreflexive(Print(b));
    }
  }

  // ---------------------------------------------------------------- positions as text

  const ZERO: string := Print(Concrete(0, 0))

  /** The text of a concrete 64-bit position. */
  predicate Canonical(s: string) {
    Parse(s).Some? && Parse(s).value.Concrete?
  }

  lemma ZeroIsLeast(s: string)
    requires Canonical(s)
    ensures Canonical(ZERO) && Lex.AtMost(ZERO, s)
  {
    ParseOfPrint(Concrete(0, 0));
    PrintOfParse(s);
    OrderIsTextual(Concrete(0, 0), Parse(s).value);
  }
}
