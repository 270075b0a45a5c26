/** The binary min-heap over a slice of integers. */
module MinHeap {

  /** Go's `(j - 1) / 2`, which truncates: the parent of the root is the root. */
  function Parent(j: nat): (i: nat)
    ensures i <= j && (j > 0 ==> i < j)
  {
    if j == 0 then 0 else (j - 1) / 2
  }

  ghost predicate IsHeap(s: seq<int>) {
    forall k: nat {:trigger Parent(k)} | k < |s| :: s[Parent(k)] <= s[k]
  }

  /** A heap but for `j`, which may be smaller than its parent. */
  ghost predicate HeapAbove(s: seq<int>, j: nat)
    requires j < |s|
  {
    && (forall k: nat {:trigger Parent(k)} | k < |s| && k != j :: s[Parent(k)] <= s[k])
    && (forall k: nat {:trigger Parent(k)} | k < |s| && Parent(k) == j && k != j :: s[Parent(j)] <= s[k])
  }

  /** A heap but for `i`, which may be larger than its children. */
  ghost predicate HeapBelow(s: seq<int>, i: nat) {
    && (forall k: nat {:trigger Parent(k)} | k < |s| && Parent(k) != i :: s[Parent(k)] <= s[k])
    && (forall k: nat {:trigger Parent(k)} | k < |s| && Parent(k) == i && i != 0 && i < |s| :: s[Parent(i)] <= s[k])
  }

  /** The root of a heap is its smallest element. */
  lemma {:induction false} RootIsLeast(s: seq<int>, k: nat)
    requires IsHeap(s) && k < |s|
    ensures s[0] <= s[k]
    decreases k
  {
    if k > 0 {
      RootIsLeast(s, Parent(k));
    }
  }

  ghost function Swapped(s: seq<int>, i: nat, j: nat): seq<int>
    requires i < |s| && j < |s|
  {
    s[i := s[j]][j := s[i]]
  }

  lemma SwapKeepsElements(s: seq<int>, i: nat, j: nat)
    requires i < |s| && j < |s|
    ensures multiset(Swapped(s, i, j)) == multiset(s)
  {
  }

  lemma {:induction false} UpStep(s: seq<int>, j: nat)
    requires 0 < j < |s| && HeapAbove(s, j) && s[j] < s[Parent(j)]
    ensures HeapAbove(Swapped(s, Parent(j), j), Parent(j))
  {
  }

  lemma {:induction false} DownStep(s: seq<int>, i: nat, c: nat)
    requires i < |s| && HeapBelow(s, i) && 0 < c < |s| && Parent(c) == i && s[c] < s[i]
    requires forall k: nat {:trigger Parent(k)} | k < |s| && Parent(k) == i && k != i :: s[c] <= s[k]
    ensures HeapBelow(Swapped(s, i, c), c)
  {
  }

  method Swap(h: array<int>, n: nat, i: nat, j: nat)
    requires i < n <= h.Length && j < n
    modifies h
    ensures h[..n] == Swapped(old(h[..n]), i, j) && h[n..] == old(h[n..])
  {
    h[i], h[j] := h[j], h[i];
  }

  method Up(h: array<int>, n: nat, j0: nat)
    requires j0 < n <= h.Length && HeapAbove(h[..n], j0)
    modifies h
    ensures IsHeap(h[..n]) && multiset(h[..n]) == old(multiset(h[..n]))
  {
    var j: nat := j0;
    while true
      invariant j < n && HeapAbove(h[..n], j) && multiset(h[..n]) == old(multiset(h[..n]))
      decreases j
    {
      var i := Parent(j);
      if i == j || h[j] >= h[i] {
        break;
      }
      UpStep(h[..n], j);
      SwapKeepsElements(h[..n], i, j);
      Swap(h, n, i, j);
      j := i;
    }
  }

  /** Only `2 * i + 1` and `2 * i + 2` have the parent `i`. */
  lemma ChildrenOf(i: nat, k: nat)
    ensures k != 0 && Parent(k) == i <==> k == 2 * i + 1 || k == 2 * i + 2
  {
  }

  /** No child of `i` is smaller than `x`. */
  ghost predicate NoneSmaller(s: seq<int>, i: nat, x: int) {
    && (2 * i + 1 < |s| ==> x <= s[2 * i + 1])
    && (2 * i + 2 < |s| ==> x <= s[2 * i + 2])
  }

  lemma {:induction false} DownDone(s: seq<int>, i: nat)
    requires HeapBelow(s, i) && i <= |s|
    requires i < |s| ==> NoneSmaller(s, i, s[i])
    ensures IsHeap(s)
  {
    forall k: nat {:trigger Parent(k)} | k < |s|
      ensures s[Parent(k)] <= s[k]
    {
      ChildrenOf(i, k);
    }
  }

  lemma {:induction false} DownSwap(s: seq<int>, i: nat, c: nat)
    requires i < |s| && HeapBelow(s, i) && c < |s| && (c == 2 * i + 1 || c == 2 * i + 2) && s[c] < s[i]
    requires NoneSmaller(s, i, s[c])
    ensures HeapBelow(Swapped(s, i, c), c) && multiset(Swapped(s, i, c)) == multiset(s)
  {
    ChildrenOf(i, c);
    forall k: nat {:trigger Parent(k)} | k < |s| && Parent(k) == i && k != i
      ensures s[c] <= s[k]
    {
      ChildrenOf(i, k);
    }
    DownStep(s, i, c);
    SwapKeepsElements(s, i, c);
  }

  /** On the way down from `i0`: what fell is at `i`, and something smaller took its place. */
  ghost predicate Sifting(before: seq<int>, s: seq<int>, i0: nat, i: nat) {
    && i0 <= i <= |s| == |before| && HeapBelow(s, i) && multiset(s) == multiset(before)
    && (if i == i0 then s == before else i0 < |s| && s[i0] < before[i0])
  }

  lemma {:induction false} SiftStep(before: seq<int>, s: seq<int>, i0: nat, i: nat, c: nat)
    requires Sifting(before, s, i0, i) && i < |s| && c < |s| && (c == 2 * i + 1 || c == 2 * i + 2) && s[c] < s[i]
    requires NoneSmaller(s, i, s[c])
    ensures Sifting(before, Swapped(s, i, c), i0, c)
  {
    DownSwap(s, i, c);
  }

  method Down(h: array<int>, i0: nat, n: nat) returns (moved: bool)
    requires n <= h.Length && i0 <= n && HeapBelow(h[..n], i0)
    modifies h
    ensures IsHeap(h[..n]) && multiset(h[..n]) == old(multiset(h[..n])) && h[n..] == old(h[n..])
    ensures !moved ==> h[..] == old(h[..])
    ensures moved <==> i0 < n && h[i0] < old(h[i0])
  {
    ghost var before := h[..n];
    var i: nat := i0;
    while true
      invariant Sifting(before, h[..n], i0, i) && h[n..] == old(h[n..])
      decreases n - i
    {
      var j1 := 2 * i + 1;
      if j1 >= n {
        break;
      }
      var j := j1;
      if j1 + 1 < n && h[j1 + 1] < h[j1] {
        j := j1 + 1;
      }
      if h[j] >= h[i] {
        break;
      }
      SiftStep(before, h[..n], i0, i, j);
      Swap(h, n, i, j);
      i := j;
    }
    DownDone(h[..n], i);
    moved := i > i0;
    Whole(h, n);
  }

  lemma Whole(h: array<int>, n: nat)
    requires n <= h.Length
    ensures h[..] == h[..n] + h[n..]
  {
  }

  /** The same elements in a larger array. */
  method Enlarge(h: array<int>, n: nat) returns (r: array<int>)
    requires n <= h.Length
    ensures fresh(r) && n < r.Length && r[..n] == h[..n]
  {
    r := new int[2 * n + 1](_ => 0);
    for k := 0 to n
      invariant forall i | 0 <= i < k :: r[i] == h[i]
    {
      r[k] := h[k];
    }
  }

  /** Appends `x` and lets it rise. The slice grows in place while its capacity lasts. */
  method Push(h: array<int>, n: nat, x: int) returns (r: array<int>)
    requires n <= h.Length && IsHeap(h[..n])
    modifies h
    ensures n < r.Length && IsHeap(r[..n + 1]) && multiset(r[..n + 1]) == old(multiset(h[..n])) + multiset{x}
    ensures r == h || fresh(r)
    ensures n < h.Length ==> r == h
  {
    ghost var before := h[..n];
    r := h;
    if n == h.Length {
      r := Enlarge(h, n);
    }
    r[n] := x;
    assert r[..n + 1] == before + [x];
    Up(r, n + 1, n);
  }

  /** The smallest element is gone, and only the root may be out of order. */
  ghost predicate WithoutRoot(t: seq<int>, before: seq<int>)
    requires before != []
  {
    HeapBelow(t, 0) && multiset(t) == multiset(before) - multiset{before[0]}
  }

  lemma LastLeaves(s: seq<int>, before: seq<int>)
    requires |s| == |before| > 0 && s == Swapped(before, 0, |s| - 1) && IsHeap(before)
    ensures WithoutRoot(s[..|s| - 1], before)
  {
    SwapKeepsElements(before, 0, |s| - 1);
    var t := s[..|s| - 1];
    assert s == t + [before[0]];
    assert multiset(s) == multiset(t) + multiset{before[0]};
    assert forall k: nat {:trigger Parent(k)} | k < |t| && Parent(k) != 0 :: before[Parent(k)] <= before[k];
  }

  /** Removes the smallest element. */
  method Pop(h: array<int>, n: nat)
    requires 0 < n <= h.Length && IsHeap(h[..n])
    modifies h
    ensures IsHeap(h[..n - 1])
    ensures multiset(h[..n - 1]) == old(multiset(h[..n])) - multiset{old(h[0])}
  {
    LastLeaves(Swapped(h[..n], 0, n - 1), h[..n]);
    LastToFront(h, n);
    var moved := Down(h, 0, n - 1);
  }

  lemma FrontOf(h: array<int>, n: nat)
    requires 0 < n <= h.Length
    ensures h[..n - 1] == h[..n][..n - 1]
  {
  }

  /** The first element changes places with the last one. */
  method LastToFront(h: array<int>, n: nat)
    requires 0 < n <= h.Length
    modifies h
    ensures h[..n - 1] == Swapped(old(h[..n]), 0, n - 1)[..n - 1]
  {
    Swap(h, n, 0, n - 1);
    FrontOf(h, n);
  }
}
