/** Stream positions and the order the server compares them by. */
module Offsets {
  const U64: nat := 0x1_0000_0000_0000_0000

  /** `Start` is written `-1` on the wire, `Now` is written `now`. */
  datatype Offset = Start | Now | Concrete(readSeq: nat, byteOffset: nat)

  predicate Less(a: Offset, b: Offset) {
    match (a, b)
    case (Concrete(s, x), Concrete(t, y)) => s < t || (s == t && x < y)
    case (Start, Start) => false
    case (Start, _) => true
    case (Concrete(_, _), Now) => true
    case _ => false
  }

  function Min(a: Offset, b: Offset): (m: Offset) {
    if Less(b, a) then b else a
  }
}
