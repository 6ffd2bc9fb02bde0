/**
 * Machine-integer casts that the library relies on, and the row-major cell
 * index used by the per-display map of frames.
 */
module Numeric {
  const U16Modulus: nat := 0x1_0000
  const UsizeModulus: nat := 0x1_0000_0000_0000_0000

  /** `v as u16`: keeps the low 16 bits (two's complement for negative v). */
  function U16(v: int): (r: nat)
    ensures r < U16Modulus
    ensures 0 <= v < U16Modulus ==> r == v
    ensures (r - v) % U16Modulus == 0
  {
    v % U16Modulus
  }

  /** `v as usize` on a 64-bit target: keeps the low 64 bits. */
  function ToUsize(v: int): (r: nat)
    ensures r < UsizeModulus
    ensures 0 <= v < UsizeModulus ==> r == v
    ensures (r - v) % UsizeModulus == 0
  {
    v % UsizeModulus
  }

  /** Index of cell (x, y) in a row-major map that is `width` cells wide. */
  function CellIndex(x: nat, y: nat, width: nat): nat {
    x + y * width
  }

  /** Every cell inside a width × height rectangle has an index below width * height. */
  lemma CellIndexBounds(x: nat, y: nat, width: nat, height: nat)
    requires x < width && y < height
    ensures CellIndex(x, y, width) < width * height
  {
    assert y * width + x < y * width + width == (y + 1) * width;
    assert (y + 1) * width <= height * width;
  }

  /** A cell index splits back into its column (the remainder) and its row (the quotient). */
  lemma CellIndexParts(x: nat, y: nat, width: nat)
    requires x < width
    ensures CellIndex(x, y, width) % width == x
    ensures CellIndex(x, y, width) / width == y
  {
    var i := CellIndex(x, y, width);
    var q, r := i / width, i % width;
    assert i == q * width + r;
    if q < y {
      MultipleAtLeast(y - q, width);
    } else if q > y {
      MultipleAtLeast(q - y, width);
    }
  }

  lemma MultipleAtLeast(k: nat, width: nat)
    requires k >= 1
    ensures k * width >= width
  {
    assert k * width == (k - 1) * width + width;
  }
}
