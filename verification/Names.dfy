/** Go strings as bytes, with the order Go's `<` gives them. */
module Names {
  type Byte = b: nat | b < 256

  type Name = seq<Byte>

  predicate Less(a: Name, b: Name)
    decreases |a|
  {
    b != [] && (a == [] || a[0] < b[0] || (a[0] == b[0] && Less(a[1..], b[1..])))
  }

  lemma {:induction false} LessOrEqualOrGreater(a: Name, b: Name)
    ensures Less(a, b) || a == b || Less(b, a)
    decreases |a|
  {
    if a != [] && b != [] && a[0] == b[0] {
      LessOrEqualOrGreater(a[1..], b[1..]);
      assert a == [a[0]] + a[1..] && b == [b[0]] + b[1..];
    }
  }

  lemma {:induction false} LessIsTransitive(a: Name, b: Name, c: Name)
    requires Less(a, b) && Less(b, c)
    ensures Less(a, c)
    decreases |a|
  {
    if a != [] && a[0] == b[0] == c[0] { LessIsTransitive(a[1..], b[1..], c[1..]); }
  }

  lemma {:induction false} LessIsStrict(a: Name, b: Name)
    requires Less(a, b)
    ensures a != b && !Less(b, a)
    decreases |a|
  {
    if a != [] && a[0] == b[0] { LessIsStrict(a[1..], b[1..]); }
  }

  /** The names agree before `k` and differ there. */
  ghost predicate FirstDifference(a: Name, b: Name, k: nat) {
    k < |a| && k < |b| && a[k] != b[k] && forall j | 0 <= j < k :: a[j] == b[j]
  }

  /** `a` is the smaller one where they first differ. */
  ghost predicate SmallerThere(a: Name, b: Name) {
    exists k: nat :: FirstDifference(a, b, k) && a[k] < b[k]
  }

  lemma {:induction false} SameFirstByte(a: Name, b: Name)
    requires a != [] && b != [] && a[0] == b[0]
    ensures SmallerThere(a, b) <==> SmallerThere(a[1..], b[1..])
    ensures a <= b && a != b <==> a[1..] <= b[1..] && a[1..] != b[1..]
  {
    assert a == [a[0]] + a[1..] && b == [b[0]] + b[1..];
    if k: nat :| FirstDifference(a[1..], b[1..], k) && a[1..][k] < b[1..][k] {
      assert FirstDifference(a, b, k + 1);
    }
    if k: nat :| FirstDifference(a, b, k) && a[k] < b[k] {
      assert FirstDifference(a[1..], b[1..], k - 1);
    }
  }

  /** The byte order: a proper prefix comes first, and otherwise the first difference decides. */
  lemma {:induction false} LessIsByteOrder(a: Name, b: Name)
    ensures Less(a, b) <==> (a <= b && a != b) || SmallerThere(a, b)
    decreases |a|
  {
    if a != [] && b != [] {
      if a[0] == b[0] {
        SameFirstByte(a, b);
        LessIsByteOrder(a[1..], b[1..]);
      } else {
        assert FirstDifference(a, b, 0);
      }
    }
  }
}
