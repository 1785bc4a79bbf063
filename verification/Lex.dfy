/** Byte-lexicographic order on strings, the order Rust uses for `str`. */
module Lex {
  predicate Less(a: string, b: string)
    decreases |a|
  {
    b != "" && (a == "" || a[0] < b[0] || (a[0] == b[0] && Less(a[1..], b[1..])))
  }

  predicate AtMost(a: string, b: string) {
    a == b || Less(a, b)
  }

  function Max(a: string, b: string): (m: string) {
    if Less(a, b) then b else a
  }

  lemma {:induction false} LessIsIrreflexive(a: string)
    ensures !Less(a, a)
    decreases |a|
  {
    if a != "" {
      LessIsIrreflexive(a[1..]);
    }
  }

  lemma {:induction false} LessIsTransitive(a: string, b: string, c: string)
    requires Less(a, b) && Less(b, c)
    ensures Less(a, c)
    decreases |a|
  {
    if a != "" && a[0] == b[0] && b[0] == c[0] {
      LessIsTransitive(a[1..], b[1..], c[1..]);
    }
  }

  lemma {:induction false} LessIsTotal(a: string, b: string)
    ensures Less(a, b) || Less(b, a) || a == b
    decreases |a|
  {
    if a != "" && b != "" && a[0] == b[0] {
      LessIsTotal(a[1..], b[1..]);
      assert a == [a[0]] + a[1..];
      assert b == [b[0]] + b[1..];
    }
  }

  /** `max` is an upper bound of both arguments and one of them. */
  lemma MaxBounds(a: string, b: string)
    ensures AtMost(a, Max(a, b)) && AtMost(b, Max(a, b))
    ensures Max(a, b) == a || Max(a, b) == b
  {
    LessIsTotal(a, b);
  }

  lemma AtMostIsTransitive(a: string, b: string, c: string)
    requires AtMost(a, b) && AtMost(b, c)
    ensures AtMost(a, c)
  {
    if a != b && b != c {
      LessIsTransitive(a, b, c);
    }
  }
}
