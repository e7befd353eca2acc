/** Integer boxes, and the truncating product of a length and a factor. */
module Geometry {

  datatype Box = Box(x: int, y: int, width: int, height: int) {
    /** The pixel with corner (px, py) lies in the box. */
    predicate Has(px: int, py: int) {
      && x <= px < x + width
      && y <= py < y + height
    }
  }

  function One(b: bool): nat {
    if b then 1 else 0
  }

  /** Conversion of a floating point value to int: truncation toward zero. */
  function Trunc(r: real): int {
    if r >= 0.0 then r.Floor else -((-r).Floor)
  }

  /** `length * factor` stored into an int. */
  function Scale(length: int, factor: real): int {
    Trunc(length as real * factor)
  }

  predicate Fraction(factor: real) {
    0.0 <= factor <= 1.0
  }

  /** The integer next to the value on the side of zero. */
  lemma TruncMeans(r: real)
    ensures r >= 0.0 ==> Trunc(r) as real <= r < (Trunc(r) + 1) as real
    ensures r <= 0.0 ==> (Trunc(r) - 1) as real < r <= Trunc(r) as real
  {
  }

  lemma ScaleBounded(length: nat, factor: real)
    requires Fraction(factor)
    ensures 0 <= Scale(length, factor) <= length
  {
    Between(length as real, factor);
  }

  lemma Between(length: real, factor: real)
    requires 0.0 <= length && 0.0 <= factor <= 1.0
    ensures 0.0 <= length * factor <= length
  {
    var rest := 1.0 - factor;
    assert length * rest >= 0.0;
    assert length * factor + length * rest == length;
  }
}
