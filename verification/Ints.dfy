/** Signed 64-bit arithmetic: truncating casts, wrapping and saturating operations. */
module Ints {
  import opened Words

  const I64_MIN: int := -0x8000_0000_0000_0000
  const I64_MAX: int := 0x7FFF_FFFF_FFFF_FFFF

  /** `as i64`, and the result of an `i64` operation that wraps. */
  function WrapI64(x: int): (r: int)
    ensures I64_MIN <= r <= I64_MAX
    ensures I64_MIN <= x <= I64_MAX ==> r == x
    ensures (x - r) % WORD == 0
  {
    DivMod(x - I64_MIN, WORD);
    (x - I64_MIN) % WORD + I64_MIN
  }

  /** `i64::saturating_add`. */
  function SaturatingAdd(a: int, b: int): (r: int)
    ensures I64_MIN <= r <= I64_MAX
    ensures I64_MIN <= a + b <= I64_MAX <==> r == a + b
    ensures a + b > I64_MAX ==> r == I64_MAX
    ensures a + b < I64_MIN ==> r == I64_MIN
  {
    if a + b > I64_MAX then I64_MAX else if a + b < I64_MIN then I64_MIN else a + b
  }

  lemma WrapShift(x: int, k: int)
    ensures WrapI64(x + k * WORD) == WrapI64(x)
  {
    var y := x - I64_MIN;
    DivMod(y, WORD);
    DivModUnique(y + k * WORD, WORD, y / WORD + k, y % WORD);
  }

  /** Casting a factor first does not change a wrapped product. */
  lemma {:induction false} WrapProduct(a: int, b: int)
    ensures WrapI64(WrapI64(a) * b) == WrapI64(a * b)
  {
    var q := (a - I64_MIN) / WORD;
    DivMod(a - I64_MIN, WORD);
    assert a == WrapI64(a) + q * WORD;
    assert a * b == WrapI64(a) * b + (q * b) * WORD by {
      assert (q * WORD) * b == (q * b) * WORD;
    }
    WrapShift(WrapI64(a) * b, q * b);
  }
}
