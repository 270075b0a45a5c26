/** `minValue`: the total below which nodes are cut off when only so many may be shown. */
module TreeMin {
  import opened Basics
  import opened TreeModel
  import opened TreeFix
  import MinHeap

  /** `x` is the `k`-th largest total: `k` nodes have at least `x`, one of them exactly, and all others at most. */
  ghost predicate KthLargest(v: Arena, k: nat, x: int) {
    exists top: set<Node> | top <= v.Keys :: Top(v, k, x, top)
  }

  ghost predicate Top(v: Arena, k: nat, x: int, top: set<Node>) {
    && top <= v.Keys && |top| == k
    && (exists n :: n in top && v[n].total == x) && (forall n | n in top :: v[n].total >= x)
    && forall n | n in v && n !in top :: v[n].total <= x
  }

  /** There is only one such total. */
  lemma {:induction false} KthLargestIsUnique(v: Arena, k: nat, x: int, y: int)
    requires KthLargest(v, k, x) && KthLargest(v, k, y)
    ensures x == y
  {
    var a :| a <= v.Keys && Top(v, k, x, a);
    var b :| b <= v.Keys && Top(v, k, y, b);
    Below(v, k, x, y, a, b);
    Below(v, k, y, x, b, a);
  }

  lemma {:induction false} Below(v: Arena, k: nat, x: int, y: int, a: set<Node>, b: set<Node>)
    requires Top(v, k, x, a) && Top(v, k, y, b)
    ensures x >= y
  {
    if x < y {
      assert b <= a;
      EqualSize(b, a);
    }
  }

  lemma {:induction false} EqualSize(b: set<Node>, a: set<Node>)
    requires b <= a && |b| == |a|
    ensures b == a
    decreases |b|
  {
    if b != {} {
      var n :| n in b;
      EqualSize(b - {n}, a - {n});
      assert b == (b - {n}) + {n} && a == (a - {n}) + {n};
    }
  }

  // ---- The walk ----

  /** The walk over the trees: nodes looked into, nodes passed over with all below them, and nodes to come. */
  ghost predicate Walk(v: Arena, s: Shape, done: set<Node>, skipped: set<Node>, stack: seq<Node>) {
    && done <= v.Keys && skipped <= v.Keys && done !! skipped
    && Distinct(stack) && (forall n | n in stack :: n in v && n !in done && n !in skipped)
    && (forall n {:trigger Met(done, skipped, stack, n)} | n in v :: Met(done, skipped, stack, n) <==> n !in s.par || s.par[n] in done)
  }

  ghost predicate Met(done: set<Node>, skipped: set<Node>, stack: seq<Node>, n: Node) {
    n in done || n in skipped || n in stack
  }

  lemma {:induction false} WalkStarts(v: Arena, root: seq<Node>, s: Shape)
    requires Forest(v, root, s)
    ensures Walk(v, s, {}, {}, root)
  {
  }

  lemma {:induction false} WalkInto(v: Arena, root: seq<Node>, s: Shape, done: set<Node>, skipped: set<Node>, front: seq<Node>, n: Node)
    requires Forest(v, root, s) && Walk(v, s, done, skipped, front + [n])
    ensures n in v && n !in done && n !in skipped && Walk(v, s, done + {n}, skipped, front + v[n].children)
  {
    LastApart(front + [n]);
    assert (front + [n])[..|front|] == front;
    assert Lists(v, s, n);
    if n in s.par { assert Listed(v, s, n); }
    forall c | c in v[n].children
      ensures c in v && c !in front && c !in done && c !in skipped && c != n
    {
      assert Met(done, skipped, front + [n], c) <==> c !in s.par || s.par[c] in done;
    }
    DistinctConcat(front, v[n].children);
    forall m | m in v
      ensures Met(done + {n}, skipped, front + v[n].children, m) <==> m !in s.par || s.par[m] in done + {n}
    {
      assert Met(done, skipped, front + [n], m) <==> m !in s.par || s.par[m] in done;
      if m in s.par { assert Listed(v, s, m); }
    }
  }

  lemma {:induction false} WalkPast(v: Arena, s: Shape, done: set<Node>, skipped: set<Node>, front: seq<Node>, n: Node)
    requires Walk(v, s, done, skipped, front + [n])
    ensures n in v && n !in done && n !in skipped && Walk(v, s, done, skipped + {n}, front)
  {
    LastApart(front + [n]);
    assert (front + [n])[..|front|] == front;
    forall m | m in v
      ensures Met(done, skipped + {n}, front, m) <==> m !in s.par || s.par[m] in done
    {
      assert Met(done, skipped, front + [n], m) <==> m !in s.par || s.par[m] in done;
    }
  }

  /** A walk that passes over nothing looks into every node. */
  lemma {:induction false} WalkSeesAll(v: Arena, root: seq<Node>, s: Shape, done: set<Node>, n: Node)
    requires Forest(v, root, s) && Walk(v, s, done, {}, []) && n in v
    ensures n in done
    decreases |if n in s.path then s.path[n] else []|
  {
    if n in s.par {
      assert Listed(v, s, n);
      WalkSeesAll(v, root, s, done, s.par[n]);
    }
    assert Met(done, {}, [], n) <==> n !in s.par || s.par[n] in done;
  }

  /** What was passed over, and everything below it, has at most `x`. */
  lemma {:induction false} PassedIsSmall(v: Arena, root: seq<Node>, s: Shape, done: set<Node>, skipped: set<Node>, x: int, n: Node, b: nat)
    requires Forest(v, root, s) && Consistent(v) && NonNegative(v) && Walk(v, s, done, skipped, []) && n in v && n !in done
    requires forall m | m in s.path :: |s.path[m]| <= b
    requires forall m | m in skipped :: v[m].total <= x
    ensures v[n].total <= x
    decreases |if n in s.path then s.path[n] else []|
  {
    assert Met(done, skipped, [], n) <==> n !in s.par || s.par[n] in done;
    if n !in skipped {
      assert Listed(v, s, n);
      PassedIsSmall(v, root, s, done, skipped, x, s.par[n], b);
      TotalsFall(v, s, s.par[n], b);
    }
  }

  method Size(t: Tree) returns (size: nat)
    requires t.Valid()
    ensures size == |t.nodes|
  {
    ghost var v, s, done := t.Arena(), t.shape, {};
    var stack := t.root;
    size := 0;
    WalkStarts(v, t.root, s);
    while |stack| > 0
      invariant Walk(v, s, done, {}, stack) && size == |done|
      decreases |v.Keys - done|
    {
      var n, front := stack[|stack| - 1], stack[..|stack| - 1];
      SplitLast(stack);
      WalkInto(v, t.root, s, done, {}, front, n);
      assert v[n] == CellOf(n);
      stack := front + n.children;
      Smaller(v.Keys, done, n);
      done := done + {n};
      size := size + 1;
    }
    forall n | n in v
      ensures n in done
    {
      WalkSeesAll(v, t.root, s, done, n);
    }
    assert done == t.nodes;
  }

  lemma Smaller(all: set<Node>, done: set<Node>, n: Node)
    requires n in all && n !in done
    ensures |all - (done + {n})| < |all - done|
  {
    assert all - done == (all - (done + {n})) + {n};
  }

  // ---- The heap of the largest totals ----

  function Totals(v: Arena, ns: seq<Node>): seq<int> {
    seq(|ns|, i requires 0 <= i < |ns| => if ns[i] in v then v[ns[i]].total else 0)
  }

  /** The heap holds the totals of `best`, the largest of those looked into so far, and nothing larger was passed over. */
  ghost predicate Holds(v: Arena, k: nat, done: set<Node>, skipped: set<Node>, best: seq<Node>, h: seq<int>) {
    && MinHeap.IsHeap(h) && multiset(h) == multiset(Totals(v, best)) && |h| == |best| <= k
    && Distinct(best) && (forall n | n in best :: n in v && n in done)
    && (|best| < k ==> skipped == {} && forall n | n in done :: n in best)
    && (h != [] ==> forall n | n in v && (n in done || n in skipped) && n !in best :: v[n].total <= h[0])
  }

  /** The root of the heap is the least total of `best`, and is there. */
  lemma {:induction false} RootOfHeap(v: Arena, best: seq<Node>, h: seq<int>) returns (i: nat)
    requires MinHeap.IsHeap(h) && h != [] && multiset(h) == multiset(Totals(v, best)) && forall n | n in best :: n in v
    ensures i < |best| && v[best[i]].total == h[0] && forall n | n in best :: v[n].total >= h[0]
  {
    var t := Totals(v, best);
    assert h[0] in multiset(t);
    i :| i < |t| && t[i] == h[0];
    forall n | n in best
      ensures v[n].total >= h[0]
    {
      var j :| 0 <= j < |best| && best[j] == n;
      assert t[j] in multiset(h);
      var m :| 0 <= m < |h| && h[m] == t[j];
      MinHeap.RootIsLeast(h, m);
    }
  }

  lemma TotalsAppend(v: Arena, ns: seq<Node>, n: Node)
    requires n in v
    ensures multiset(Totals(v, ns + [n])) == multiset(Totals(v, ns)) + multiset{v[n].total}
  {
    assert Totals(v, ns + [n]) == Totals(v, ns) + [v[n].total];
  }

  lemma TotalsRemove(v: Arena, ns: seq<Node>, i: nat)
    requires i < |ns| && ns[i] in v
    ensures multiset(Totals(v, ns[..i] + ns[i + 1..])) == multiset(Totals(v, ns)) - multiset{v[ns[i]].total}
  {
    var t := Totals(v, ns);
    assert Totals(v, ns[..i] + ns[i + 1..]) == t[..i] + t[i + 1..];
    assert t == t[..i] + [t[i]] + t[i + 1..];
  }

  /** While there is room everything looked into is kept. */
  lemma {:induction false} HoldsMore(v: Arena, k: nat, done: set<Node>, best: seq<Node>, h: seq<int>, n: Node, h2: seq<int>)
    requires Holds(v, k, done, {}, best, h) && |best| < k && n in v && n !in done
    requires MinHeap.IsHeap(h2) && |h2| == |h| + 1 && multiset(h2) == multiset(h) + multiset{v[n].total}
    ensures Holds(v, k, done + {n}, {}, best + [n], h2)
  {
    TotalsAppend(v, best, n);
    InAppended(best, n);
  }

  lemma InAppended(ns: seq<Node>, n: Node)
    ensures n in ns + [n] && (forall m | m in ns :: m in ns + [n]) && forall m | m in ns + [n] :: m in ns || m == n
  {
    assert (ns + [n])[|ns|] == n;
    assert forall i | 0 <= i < |ns| :: (ns + [n])[i] == ns[i];
  }

  lemma OneMoreDistinct(ns: seq<Node>, n: Node)
    requires Distinct(ns) && n !in ns
    ensures Distinct(ns + [n])
  {
  }

  /** Once it is full, a larger total takes the place of the least one. */
  lemma {:induction false} HoldsLarger(v: Arena, k: nat, done: set<Node>, skipped: set<Node>, best: seq<Node>, h: seq<int>, n: Node, h1: seq<int>, h2: seq<int>)
    returns (best2: seq<Node>)
    requires Holds(v, k, done, skipped, best, h) && |best| == k > 0 && n in v && n !in done && n !in skipped && v[n].total > h[0]
    requires MinHeap.IsHeap(h1) && multiset(h1) == multiset(h) - multiset{h[0]} && |h1| == |h| - 1
    requires MinHeap.IsHeap(h2) && multiset(h2) == multiset(h1) + multiset{v[n].total} && |h2| == |h|
    ensures Holds(v, k, done + {n}, skipped, best2, h2)
  {
    var i := RootOfHeap(v, best, h);
    var fewer := best[..i] + best[i + 1..];
    RemoveAt(best, i);
    TotalsRemove(v, best, i);
    TotalsAppend(v, fewer, n);
    best2 := fewer + [n];
    OneMoreDistinct(fewer, n);
    InAppended(fewer, n);
    var j := RootOfHeap(v, best2, h2);
    assert h2[0] >= h[0] by { assert best2[j] in best2; }
  }

  /** A node that is not larger is passed over with all below it. */
  lemma HoldsPast(v: Arena, k: nat, done: set<Node>, skipped: set<Node>, best: seq<Node>, h: seq<int>, n: Node)
    requires Holds(v, k, done, skipped, best, h) && |best| == k > 0 && n in v && n !in done && v[n].total <= h[0]
    ensures Holds(v, k, done, skipped + {n}, best, h)
  {
  }

  ghost function Members(ns: seq<Node>): set<Node> {
    set n | n in ns
  }

  lemma {:induction false} MembersCount(ns: seq<Node>)
    requires Distinct(ns)
    ensures |Members(ns)| == |ns|
    decreases |ns|
  {
    if ns != [] {
      LastApart(ns);
      MembersCount(ns[..|ns| - 1]);
      assert Members(ns) == Members(ns[..|ns| - 1]) + {ns[|ns| - 1]};
    }
  }

  /** At the end of the walk the heap is full, and its root is the `k`-th largest total. */
  lemma {:induction false} RootIsKthLargest(v: Arena, root: seq<Node>, s: Shape, k: nat, done: set<Node>, skipped: set<Node>, best: seq<Node>, h: seq<int>)
    requires Forest(v, root, s) && Consistent(v) && NonNegative(v) && Walk(v, s, done, skipped, []) && Holds(v, k, done, skipped, best, h)
    requires |v.Keys| > k > 0
    ensures |h| == k && KthLargest(v, k, h[0])
  {
    MembersCount(best);
    var top := Members(best);
    forall n | n in v && |best| < k
      ensures n in top
    {
      WalkSeesAll(v, root, s, done, n);
    }
    SubsetSize(v.Keys, top);
    var i := RootOfHeap(v, best, h);
    assert best[i] in top;
    var b := DepthBound(s.path);
    forall n | n in v && n !in top
      ensures v[n].total <= h[0]
    {
      if n !in done { PassedIsSmall(v, root, s, done, skipped, h[0], n, b); }
    }
    assert Top(v, k, h[0], top);
  }

  /** Puts a total on the heap, in place of the least one when it is full and this one is larger. */
  method Offer(h: array<int>, len: nat, k: nat, total: int) returns (len2: nat, pushed: bool, ghost h1: seq<int>)
    requires len <= k <= h.Length && 0 < k && MinHeap.IsHeap(h[..len])
    modifies h
    ensures len2 <= k && MinHeap.IsHeap(h[..len2])
    ensures !pushed ==> len2 == len == k && total <= h[0] && h[..len] == old(h[..len])
    ensures pushed && len < k ==> len2 == len + 1 && multiset(h[..len2]) == old(multiset(h[..len])) + multiset{total}
    ensures pushed && len == k ==>
      && len2 == len && total > old(h[0]) && MinHeap.IsHeap(h1) && |h1| == len - 1
      && multiset(h1) == old(multiset(h[..len])) - multiset{old(h[0])}
      && multiset(h[..len2]) == multiset(h1) + multiset{total}
  {
    len2, h1 := len, [];
    if len >= k {
      if total > h[0] {
        MinHeap.Pop(h, len);
        len2 := len - 1;
        h1 := h[..len2];
      } else {
        return len, false, [];
      }
    }
    var r := MinHeap.Push(h, len2, total);
    len2, pushed := len2 + 1, true;
  }

  /** How far a count is: the walk, and what the heap holds. */
  datatype Stage = Stage(done: set<Node>, skipped: set<Node>, stack: seq<Node>, best: seq<Node>)

  predicate LookAt(x: Stage, h: seq<int>) {
    true
  }

  /** Where the walk and the heap stand. The loop passes it on closed; the lemmas open it. */
  ghost predicate Counting(v: Arena, root: seq<Node>, s: Shape, k: nat, x: Stage, h: seq<int>) {
    forall y {:trigger LookAt(y, h)} | y == x && LookAt(y, h) ::
      && Forest(v, root, s) && Consistent(v) && NonNegative(v)
      && Walk(v, s, y.done, y.skipped, y.stack) && Holds(v, k, y.done, y.skipped, y.best, h)
  }

  lemma Opened(v: Arena, root: seq<Node>, s: Shape, k: nat, x: Stage, h: seq<int>)
    requires Counting(v, root, s, k, x, h)
    ensures Forest(v, root, s) && Consistent(v) && NonNegative(v)
    ensures Walk(v, s, x.done, x.skipped, x.stack) && Holds(v, k, x.done, x.skipped, x.best, h)
  {
    assert LookAt(x, h);
  }

  lemma {:induction false} NodeIsNew(v: Arena, root: seq<Node>, s: Shape, k: nat, x: Stage, h: seq<int>)
    requires Counting(v, root, s, k, x, h) && x.stack != []
    ensures var n := x.stack[|x.stack| - 1]; n in v && n !in x.done + x.skipped && x.done + x.skipped <= v.Keys
    ensures |h| <= k
  {
    Opened(v, root, s, k, x, h);
  }

  /** The nodes neither looked into nor passed over yet. */
  ghost function Left(v: Arena, x: Stage): nat {
    |v.Keys - (x.done + x.skipped)|
  }

  ghost function Taken(v: Arena, x: Stage, n: Node, front: seq<Node>, best: seq<Node>): Stage
    requires n in v
  {
    Stage(x.done + {n}, x.skipped, front + v[n].children, best)
  }

  lemma {:induction false} CountMore(v: Arena, root: seq<Node>, s: Shape, k: nat, x: Stage, h: seq<int>, n: Node, front: seq<Node>, h2: seq<int>)
    requires Counting(v, root, s, k, x, h) && x.stack == front + [n] && |h| < k && n in v
    requires MinHeap.IsHeap(h2) && |h2| == |h| + 1 && multiset(h2) == multiset(h) + multiset{v[n].total}
    ensures Counting(v, root, s, k, Taken(v, x, n, front, x.best + [n]), h2) && Left(v, Taken(v, x, n, front, x.best + [n])) < Left(v, x)
  {
    NodeIsNew(v, root, s, k, x, h);
    Smaller(v.Keys, x.done + x.skipped, n);
    assert x.done + {n} + x.skipped == x.done + x.skipped + {n};
    Opened(v, root, s, k, x, h);
    WalkInto(v, root, s, x.done, x.skipped, front, n);
    HoldsMore(v, k, x.done, x.best, h, n, h2);
  }

  lemma {:induction false} CountLarger(v: Arena, root: seq<Node>, s: Shape, k: nat, x: Stage, h: seq<int>, n: Node, front: seq<Node>, h1: seq<int>, h2: seq<int>)
    returns (best: seq<Node>)
    requires Counting(v, root, s, k, x, h) && x.stack == front + [n] && |h| == k > 0 && n in v && v[n].total > h[0]
    requires MinHeap.IsHeap(h1) && multiset(h1) == multiset(h) - multiset{h[0]} && |h1| == |h| - 1
    requires MinHeap.IsHeap(h2) && multiset(h2) == multiset(h1) + multiset{v[n].total} && |h2| == |h|
    ensures Counting(v, root, s, k, Taken(v, x, n, front, best), h2) && Left(v, Taken(v, x, n, front, best)) < Left(v, x)
  {
    NodeIsNew(v, root, s, k, x, h);
    Smaller(v.Keys, x.done + x.skipped, n);
    assert x.done + {n} + x.skipped == x.done + x.skipped + {n};
    Opened(v, root, s, k, x, h);
    WalkInto(v, root, s, x.done, x.skipped, front, n);
    best := HoldsLarger(v, k, x.done, x.skipped, x.best, h, n, h1, h2);
  }

  lemma {:induction false} CountPast(v: Arena, root: seq<Node>, s: Shape, k: nat, x: Stage, h: seq<int>, n: Node, front: seq<Node>)
    requires Counting(v, root, s, k, x, h) && x.stack == front + [n] && |h| == k > 0 && n in v && v[n].total <= h[0]
    ensures Counting(v, root, s, k, Stage(x.done, x.skipped + {n}, front, x.best), h)
    ensures Left(v, Stage(x.done, x.skipped + {n}, front, x.best)) < Left(v, x)
  {
    NodeIsNew(v, root, s, k, x, h);
    Smaller(v.Keys, x.done + x.skipped, n);
    assert x.done + (x.skipped + {n}) == x.done + x.skipped + {n};
    Opened(v, root, s, k, x, h);
    WalkPast(v, s, x.done, x.skipped, front, n);
    HoldsPast(v, k, x.done, x.skipped, x.best, h, n);
  }

  lemma {:induction false} CountStarts(v: Arena, root: seq<Node>, s: Shape, k: nat)
    requires Forest(v, root, s) && Consistent(v) && NonNegative(v)
    ensures Counting(v, root, s, k, Stage({}, {}, root, []), [])
  {
    WalkStarts(v, root, s);
    assert Totals(v, []) == [];
  }

  lemma {:induction false} CountEnds(v: Arena, root: seq<Node>, s: Shape, k: nat, x: Stage, h: seq<int>)
    requires |v.Keys| > k > 0
    requires Counting(v, root, s, k, x, h) && x.stack == []
    ensures |h| == k && KthLargest(v, k, h[0])
  {
    Opened(v, root, s, k, x, h);
    RootIsKthLargest(v, root, s, k, x.done, x.skipped, x.best, h);
  }

  /** One node of the walk: its total is offered, and only if it is taken does the walk go on below it. */
  method Visit(n: Node, front: seq<Node>, h: array<int>, len: nat, k: nat, ghost v: Arena, ghost root: seq<Node>, ghost s: Shape, ghost x: Stage)
    returns (stack: seq<Node>, len2: nat, ghost y: Stage)
    requires n in v && v[n] == CellOf(n) && 0 < k <= h.Length && len <= k && x.stack == front + [n]
    requires MinHeap.IsHeap(h[..len]) && Counting(v, root, s, k, x, h[..len])
    modifies h
    ensures len2 <= k && MinHeap.IsHeap(h[..len2]) && Counting(v, root, s, k, y, h[..len2]) && y.stack == stack
    ensures Left(v, y) < Left(v, x)
  {
    ghost var before := h[..len];
    var pushed;
    ghost var h1;
    len2, pushed, h1 := Offer(h, len, k, n.total);
    if !pushed {
      stack := front;
      CountPast(v, root, s, k, x, before, n, front);
      y := Stage(x.done, x.skipped + {n}, front, x.best);
    } else {
      stack := front + n.children;
      ghost var best := x.best + [n];
      if len < k {
        CountMore(v, root, s, k, x, before, n, front, h[..len2]);
      } else {
        best := CountLarger(v, root, s, k, x, before, n, front, h1, h[..len2]);
      }
      y := Taken(v, x, n, front, best);
    }
  }

  /**
   With at most `maxNodes` nodes nothing is cut off; with more, the result is exactly the `maxNodes`-th largest
   total, though whole subtrees are never looked into. The heap is full by then: the last test never fails.
   */
  method MinValue(t: Tree, maxNodes: int) returns (x: int)
    requires t.Valid() && t.Sums() && NonNegative(t.Arena())
    ensures maxNodes < 1 || |t.nodes| <= maxNodes ==> x == 0
    ensures 1 <= maxNodes < |t.nodes| ==> KthLargest(t.Arena(), maxNodes, x)
  {
    if maxNodes < 1 {
      return 0;
    }
    var size := Size(t);
    if size <= maxNodes {
      return 0;
    }
    CountStarts(t.Arena(), t.root, t.shape, maxNodes);
    x := SelectTotal(t.root, maxNodes, t.Arena(), t.shape);
  }

  method SelectTotal(root: seq<Node>, k: nat, ghost v: Arena, ghost s: Shape) returns (least: int)
    requires 1 <= k < |v.Keys| && Counting(v, root, s, k, Stage({}, {}, root, []), [])
    requires forall m | m in v :: CellOf(m) == v[m]
    ensures KthLargest(v, k, least)
  {
    var h := new int[k](_ => 0);
    var len: nat, stack := 0, root;
    ghost var x := Stage({}, {}, root, []);
    assert h[..0] == [];
    while |stack| > 0
      invariant len <= k && x.stack == stack && forall m | m in v :: CellOf(m) == v[m]
      invariant MinHeap.IsHeap(h[..len]) && Counting(v, root, s, k, x, h[..len])
      decreases Left(v, x)
    {
      var n, front := stack[|stack| - 1], stack[..|stack| - 1];
      SplitLast(stack);
      NodeIsNew(v, root, s, k, x, h[..len]);
      stack, len, x := Visit(n, front, h, len, k, v, root, s, x);
    }
    CountEnds(v, root, s, k, x, h[..len]);
    if len < k {
      assert false;
    }
    least := h[0];
  }
}
