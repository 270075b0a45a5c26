/** Machine words: 64-bit wrap-around arithmetic and the power-of-two masking the ring buffer relies on. */
module Words {

  const WORD: nat := 0x1_0000_0000_0000_0000

  /** A `usize` on a 64-bit target. */
  type Word = x: nat | x < WORD

  function Pow2(k: nat): (r: nat)
    ensures r > 0
  {
    if k == 0 then 1 else 2 * Pow2(k - 1)
  }

  /** `N.is_power_of_two()` for a `usize` const generic. */
  ghost predicate IsCapacity(n: nat) {
    exists k: nat :: k < 64 && n == Pow2(k)
  }

  function WrapAdd(a: nat, b: nat): nat {
    (a + b) % WORD
  }

  function WrapSub(a: nat, b: nat): nat {
    (a - b) % WORD
  }

  /** Bitwise `a & b`, digit by digit. */
  function BitAnd(a: nat, b: nat): (r: nat)
    ensures r <= b
  {
    if a == 0 || b == 0 then 0 else (a % 2) * (b % 2) + 2 * BitAnd(a / 2, b / 2)
  }

  lemma MulSign(m: int, d: int)
    requires m > 0
    ensures d > 0 ==> m * d >= m
    ensures d < 0 ==> m * d <= -m
  {
  }

  lemma MulAssoc(a: int, b: int, c: int)
    ensures (a * b) * c == a * (b * c)
  {
  }

  lemma MulAdd(a: int, b: int, c: int)
    ensures a * (b + c) == a * b + a * c
  {
  }

  lemma DivMod(x: int, m: int)
    requires m > 0
    ensures x == m * (x / m) + x % m && 0 <= x % m < m
  {
  }

  lemma DivModUnique(x: int, m: int, q: int, r: int)
    requires m > 0 && 0 <= r < m && x == m * q + r
    ensures x / m == q && x % m == r
  {
    DivMod(x, m);
    MulAdd(m, q, x / m - q);
    MulSign(m, x / m - q);
  }

  lemma Pow2Sum(j: nat, k: nat)
    ensures Pow2(j + k) == Pow2(j) * Pow2(k)
  {
    if j > 0 {
      Pow2Sum(j - 1, k);
      MulAssoc(2, Pow2(j - 1), Pow2(k));
    }
  }

  lemma WordIsPow2()
    ensures Pow2(64) == WORD
  {
    assert Pow2(8) == 256;
    Pow2Sum(8, 8);
    Pow2Sum(16, 16);
    Pow2Sum(32, 32);
  }

  lemma DoubleMod(x: nat, m: nat)
    requires m > 0
    ensures x % (2 * m) == 2 * ((x / 2) % m) + x % 2
  {
    var h := x / 2;
    DivMod(h, m);
    MulAssoc(2, m, h / m);
    DivModUnique(x, 2 * m, h / m, 2 * (h % m) + x % 2);
  }

  /** `x & (2^k - 1)` keeps exactly the remainder modulo `2^k`. */
  lemma {:induction false} AndMask(x: nat, k: nat)
    ensures BitAnd(x, Pow2(k) - 1) == x % Pow2(k)
  {
    if k == 0 {
    } else if x != 0 {
      var m := Pow2(k - 1);
      AndMask(x / 2, k - 1);
      DoubleMod(x, m);
      assert (2 * m - 1) / 2 == m - 1 && (2 * m - 1) % 2 == 1;
    }
  }

  /** Reducing modulo a multiple first loses nothing. */
  lemma ModOfMultiple(x: nat, n: nat, c: nat)
    requires n > 0 && c > 0
    ensures n * c > 0 && (x % (n * c)) % n == x % n
  {
    MulSign(n, c);
    var w := n * c;
    DivMod(x, w);
    DivMod(x % w, n);
    MulAssoc(n, c, x / w);
    MulAdd(n, c * (x / w), (x % w) / n);
    DivModUnique(x, n, c * (x / w) + (x % w) / n, (x % w) % n);
  }

  /** A capacity divides the word size, so masking a wrapped cursor finds the slot of its unbounded position. */
  lemma {:induction false} MaskOfWrapped(pos: nat, n: nat)
    requires IsCapacity(n)
    ensures 0 < n < WORD
    ensures BitAnd(pos % WORD, n - 1) == pos % n == (pos % WORD) % n
  {
    var k: nat :| k < 64 && n == Pow2(k);
    WordIsPow2();
    Pow2Sum(k, 64 - k);
    var c := Pow2(64 - k);
    assert c == 2 * Pow2(63 - k);
    MulAdd(n, 1, c - 1);
    MulSign(n, c - 1);
    ModOfMultiple(pos, n, c);
    AndMask(pos % WORD, k);
  }

  lemma {:induction false} ResidueUnique(x: nat, y: nat, n: nat)
    requires n > 0 && x <= y < x + n && x % n == y % n
    ensures x == y
  {
    DivMod(x, n);
    DivMod(y, n);
    MulAdd(n, x / n, y / n - x / n);
    MulSign(n, y / n - x / n);
  }

  lemma WrapAddPos(pos: nat, d: nat)
    ensures WrapAdd(pos % WORD, d) == (pos + d) % WORD
  {
  }

  lemma WrapSubPos(hi: nat, lo: nat)
    requires lo <= hi < lo + WORD
    ensures WrapSub(hi % WORD, lo % WORD) == hi - lo
  {
  }

  lemma WrapSubGrow(hi: nat, lo: nat, d: nat)
    requires WrapSub(hi, lo) + d < WORD
    ensures WrapSub(WrapAdd(hi, d), lo) == WrapSub(hi, lo) + d
  {
  }

  lemma WrapSubShrink(hi: nat, lo: nat, d: nat)
    requires d <= WrapSub(hi, lo)
    ensures WrapSub(hi, WrapAdd(lo, d)) == WrapSub(hi, lo) - d
  {
  }

  lemma WrapAddTwice(a: nat, b: nat, c: nat)
    ensures WrapAdd(WrapAdd(a, b), c) == WrapAdd(a, b + c)
  {
  }

  lemma ModShift(x: nat, y: nat, d: nat, n: nat)
    requires n > 0 && x % n == y % n
    ensures (x + d) % n == (y + d) % n
  {
    DivMod(x, n);
    DivMod(y, n);
    var r := x % n + d;
    DivMod(r, n);
    MulAdd(n, x / n, r / n);
    MulAdd(n, y / n, r / n);
    DivModUnique(x + d, n, x / n + r / n, r % n);
    DivModUnique(y + d, n, y / n + r / n, r % n);
  }
}
