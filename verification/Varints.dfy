/** Unsigned varints as Go's `encoding/binary` reads and writes them. */
module Varints {
  import opened Names

  const MAX_UINT64 := 0x1_0000_0000_0000_0000

  /** The varint of `x`: seven bits a byte, the low ones first. */
  function Varint(x: nat): (b: seq<Byte>)
    ensures b != []
  {
    if x < 128 then [x] else [x % 128 + 128] + Varint(x / 128)
  }

  /**
   `binary.Uvarint(b[at..])` after `i` bytes: the value and the number of bytes read, 0 if `b` ends too early and
   negative if the value has more than 64 bits.
   */
  function ReadFrom(b: seq<Byte>, at: nat, i: nat): (r: (nat, int))
    requires at <= |b| && i <= 10
    ensures r.1 <= 0 ==> r.0 == 0
    ensures r.1 > 0 ==> i < r.1 && at + r.1 <= |b| + i
    decreases |b| - at
  {
    if at == |b| then (0, 0)
    else if i == 10 then (0, -11)
    else if b[at] < 128 then
      if i == 9 && b[at] > 1 then (0, -10) else (b[at], i + 1)
    else
      var (high, n) := ReadFrom(b, at + 1, i + 1);
      if n <= 0 then (0, n) else (b[at] - 128 + 128 * high, n)
  }

  function Uvarint(b: seq<Byte>, at: nat): (r: (nat, int))
    requires at <= |b|
    ensures r.1 <= 0 ==> r.0 == 0
    ensures r.1 > 0 ==> at + r.1 <= |b|
  {
    ReadFrom(b, at, 0)
  }

  /** What still fits into 64 bits after `i` bytes. */
  function Bound(i: nat): nat
    requires i <= 9
    decreases 9 - i
  {
    if i == 9 then 2 else 128 * Bound(i + 1)
  }

  lemma BoundOfAll()
    ensures Bound(0) == MAX_UINT64
  {
    assert Bound(7) == 32768;
    assert Bound(5) == 536870912;
    assert Bound(3) == 8796093022208;
    assert Bound(1) == 144115188075855872;
  }

  lemma {:induction false} ReadsBack(b: seq<Byte>, at: nat, i: nat, x: nat, rest: seq<Byte>)
    requires i <= 9 && x < Bound(i) && at <= |b| && b[at..] == Varint(x) + rest
    ensures ReadFrom(b, at, i) == (x, i + |Varint(x)|) && at + |Varint(x)| <= |b| && b[at + |Varint(x)|..] == rest
    decreases x
  {
    assert b[at] == (Varint(x) + rest)[0];
    if x >= 128 {
      assert b[at + 1..] == b[at..][1..] == Varint(x / 128) + rest;
      ReadsBack(b, at + 1, i + 1, x / 128, rest);
      assert at + 1 + |Varint(x / 128)| == at + |Varint(x)|;
    } else {
      assert b[at + 1..] == b[at..][1..] == rest;
    }
  }

  /** Reading what was written gives it back, and leaves the rest. */
  lemma {:induction false} UvarintReadsBack(b: seq<Byte>, at: nat, x: nat, rest: seq<Byte>)
    requires x < MAX_UINT64 && at <= |b| && b[at..] == Varint(x) + rest
    ensures Uvarint(b, at) == (x, |Varint(x)|) && at + |Varint(x)| <= |b| && b[at + |Varint(x)|..] == rest
  {
    BoundOfAll();
    ReadsBack(b, at, 0, x, rest);
  }

  // ---- Any bytes ----

  /** The first byte without the top bit is the `k`-th from `at`. */
  ghost predicate EndsAt(b: seq<Byte>, at: nat, k: nat) {
    at + k < |b| && b[at + k] < 128 && forall j | at <= j < at + k :: b[j] >= 128
  }

  /** The low seven bits of these bytes, the first ones lowest. */
  ghost function Bits(b: seq<Byte>, at: nat, k: nat): nat
    requires at + k < |b|
    decreases k
  {
    b[at] % 128 + if k == 0 then 0 else 128 * Bits(b, at + 1, k - 1)
  }

  /** Within ten bytes, and the tenth adds one bit at most: 64 bits in all. */
  ghost predicate IsComplete(b: seq<Byte>, at: nat, i: nat, k: nat) {
    EndsAt(b, at, k) && (i + k < 9 || (i + k == 9 && b[at + k] <= 1))
  }

  lemma {:induction false} ReadMeans(b: seq<Byte>, at: nat, i: nat)
    requires at <= |b| && i <= 10
    ensures forall k: nat | IsComplete(b, at, i, k) :: ReadFrom(b, at, i) == (Bits(b, at, k), i + k + 1)
    ensures ReadFrom(b, at, i).1 > 0 ==> exists k: nat :: IsComplete(b, at, i, k)
    ensures ReadFrom(b, at, i).1 == 0 <==> |b| - at <= 10 - i && forall j | at <= j < |b| :: b[j] >= 128
    decreases |b| - at
  {
    if at < |b| && i < 10 {
      if b[at] < 128 {
        assert IsComplete(b, at, i, 0) <==> i < 9 || b[at] <= 1;
      } else {
        ReadMeans(b, at + 1, i + 1);
        forall k: nat | IsComplete(b, at, i, k)
          ensures k > 0 && IsComplete(b, at + 1, i + 1, k - 1)
        {
        }
        var next, j := at + 1, i + 1;
        if k: nat :| IsComplete(b, next, j, k) { assert IsComplete(b, at, i, k + 1); }
      }
    }
  }

  /**
   What `binary.Uvarint` makes of any bytes: the low seven bits of each up to the first byte without the top bit, if they
   make 64 bits; nothing, and no byte used, if all that is left has the top bit; and otherwise an overflow.
   */
  lemma {:induction false} UvarintMeans(b: seq<Byte>, at: nat)
    requires at <= |b|
    ensures forall k: nat | IsComplete(b, at, 0, k) :: Uvarint(b, at) == (Bits(b, at, k), k + 1)
    ensures Uvarint(b, at).1 > 0 <==> exists k: nat :: IsComplete(b, at, 0, k)
    ensures Uvarint(b, at).1 == 0 <==> |b| - at <= 10 && forall j | at <= j < |b| :: b[j] >= 128
  {
    ReadMeans(b, at, 0);
  }
}
