/**
 `Merge` of a tree with one that has the same nodes: with itself, or with the source that an earlier merge took
 over. Each node is found again under its own name and added to itself.
 */
module TreeShared {
  import opened Basics
  import opened Sums
  import opened TreeModel
  import opened TreeInsert
  import opened TreeFix
  import opened TreeDecode
  import opened TreeMerge
  import opened TreeRename

  /** The nodes of `done` count twice. */
  ghost function Doubled(v: Arena, done: set<Node>): Arena {
    map n | n in v :: if n in done then v[n].(own := v[n].own + v[n].own, total := v[n].total + v[n].total) else v[n]
  }

  lemma {:induction false} DoubledLinks(v: Arena, r: Node, s: Shape, done: set<Node>)
    requires Rooted(v, r, s) && Sorted(v)
    ensures Rooted(Doubled(v, done), r, s) && Sorted(Doubled(v, done))
  {
    var w := Doubled(v, done);
    forall n | n in s.par
      ensures Listed(w, s, n)
    {
      assert Listed(v, s, n);
    }
    forall n | n in w
      ensures Lists(w, s, n) && SortedAt(w, n)
    {
      assert Lists(v, s, n) && SortedAt(v, n);
    }
  }

  /** The walk: `done` were added to themselves, the nodes on the stack come next. */
  ghost predicate Doubling(v0: Arena, r: Node, s: Shape, v: Arena, done: set<Node>, stack: seq<Node>) {
    Rooted(v0, r, s) && Sorted(v0) && Visited(v0, s, r, done, stack) && v == Doubled(v0, done)
  }

  /** The same, closed. */
  ghost predicate DoublingKept(v0: Arena, r: Node, s: Shape, v: Arena, done: set<Node>, stack: seq<Node>) {
    forall w {:trigger Look(w)} | w == v && Look(w) :: Doubling(v0, r, s, w, done, stack)
  }

  lemma Opened(v0: Arena, r: Node, s: Shape, v: Arena, done: set<Node>, stack: seq<Node>)
    requires DoublingKept(v0, r, s, v, done, stack)
    ensures Doubling(v0, r, s, v, done, stack)
  {
    assert Look(v);
  }

  /** The source stack is the same, but for the top, which has its twin there. */
  ghost predicate Twinned(S: seq<Node>, D: seq<Node>, sr: Node, dr: Node) {
    |S| == |D| && forall i | 0 <= i < |D| :: S[i] == if D[i] == dr then sr else D[i]
  }

  /** A child that is there is found. */
  lemma {:induction false} FoundAgain(v: Arena, r: Node, s: Shape, w: Arena, t: Shape, n: Node, c: Node, k: Node)
    requires Rooted(v, r, s) && Sorted(v) && Rooted(w, r, t) && Sorted(w) && k in v && n in v && k in v[n].children
    requires Inserted(v, s, w, t, n, c, v[k].name)
    ensures c == k && w == v && t == s
  {
    assert Lists(v, s, n) && Listed(v, s, k) && Listed(w, t, c) && SortedAt(w, n) && SortedAt(v, n);
    if c in v {
      SameNameSameChild(v, v[n].children, k, c);
    } else {
      var i: nat :| i <= |v[n].children| && w == Grown(v, n, v[n].children[..i] + [c] + v[n].children[i..], c, v[k].name);
      InGrown(v[n].children, i, c, k);
      SameNameSameChild(w, w[n].children, k, c);
    }
  }

  lemma InGrown(kids: seq<Node>, i: nat, c: Node, k: Node)
    requires i <= |kids| && k in kids
    ensures k in kids[..i] + [c] + kids[i..]
  {
    assert kids == kids[..i] + kids[i..];
  }

  /** `insert` of a child's name gives that child, and leaves the tree as it is. */
  method InsertAgain(n: Node, k: Node, ghost nodes: set<Node>, ghost r: Node, ghost s: Shape) returns (c: Node)
    requires n in nodes && Rooted(View(nodes), r, s) && Sorted(View(nodes)) && k in n.children
    modifies n`children
    ensures c == k && View(nodes) == old(View(nodes))
  {
    ghost var v := View(nodes);
    assert Lists(v, s, n);
    ghost var nodes2, t;
    c, nodes2, t := Insert(n, k.name, nodes, r, s);
    FoundAgain(v, r, s, View(nodes2), t, n, c, k);
    assert nodes2 == nodes;
  }

  /** The pairs of children go on the stacks: each child with itself. */
  method PushChildren(st: Node, dt: Node, S0: seq<Node>, D0: seq<Node>, ghost nodes: set<Node>, ghost r: Node, ghost s: Shape)
    returns (S: seq<Node>, D: seq<Node>)
    requires dt in nodes && Rooted(View(nodes), r, s) && Sorted(View(nodes)) && st.children == dt.children
    requires st == dt || st !in nodes
    modifies dt`children
    ensures S == S0 + dt.children && D == D0 + dt.children && View(nodes) == old(View(nodes)) && dt.children == old(dt.children)
  {
    S, D := S0, D0;
    ghost var v, kids := View(nodes), dt.children;
    assert kids[..0] == [];
    for i := 0 to |st.children|
      invariant View(nodes) == v && v[dt] == CellOf(dt) && dt.children == kids && st.children == kids
      invariant S == S0 + kids[..i] && D == D0 + kids[..i]
    {
      var k := st.children[i];
      OneLonger(kids, i);
      var c := InsertAgain(dt, k, nodes, r, s);
      assert View(nodes)[dt] == CellOf(dt);
      S, D := S + [k], D + [c];
    }
    assert kids[..|kids|] == kids;
  }

  // ---- One pair ----

  /** Two nodes that are one, or the two temporary tops. */
  ghost predicate Pair(st: Node, dt: Node, nodes: set<Node>, v0: Arena, r: Node)
    reads st
  {
    && r in v0 && v0[r].own == 0 && v0[r].total == 0
    && (st == dt || (st !in nodes && dt == r && st.own == 0 && st.total == 0 && st.children == v0[r].children))
  }

  lemma {:induction false} DoubleOne(v0: Arena, r: Node, s: Shape, v: Arena, done: set<Node>, rest: seq<Node>, n: Node)
    requires DoublingKept(v0, r, s, v, done, rest + [n])
    ensures n in v0 && n !in done && v.Keys == v0.Keys && v[n] == v0[n]
    ensures Doubled(v0, done + {n}) == v[n := v[n].(own := v[n].own + v[n].own, total := v[n].total + v[n].total)]
    ensures DoublingKept(v0, r, s, Doubled(v0, done + {n}), done + {n}, rest + v0[n].children)
    ensures Rooted(Doubled(v0, done + {n}), r, s) && Sorted(Doubled(v0, done + {n}))
    ensures forall k | k in v0[n].children :: k != r
  {
    Opened(v0, r, s, v, done, rest + [n]);
    assert n in rest + [n];
    VisitMoves(v0, s, r, n, done, rest);
    DoubledLinks(v0, r, s, done + {n});
    assert Lists(v0, s, n);
  }

  /** Takes the last pair: the node is added to itself, and the pairs of its children go on the stacks. */
  method VisitPair(st: Node, dt: Node, S0: seq<Node>, D0: seq<Node>, ghost nodes: set<Node>, ghost v0: Arena, ghost r: Node, ghost s: Shape, ghost done: set<Node>)
    returns (S: seq<Node>, D: seq<Node>)
    requires dt in nodes && DoublingKept(v0, r, s, View(nodes), done, D0 + [dt]) && Pair(st, dt, nodes, v0, r)
    modifies dt
    ensures dt in v0 && dt !in done && S == S0 + v0[dt].children && D == D0 + v0[dt].children
    ensures DoublingKept(v0, r, s, View(nodes), done + {dt}, D) && forall k | k in v0[dt].children :: k != r
  {
    ghost var v := View(nodes);
    DoubleOne(v0, r, s, v, done, D0, dt);
    assert v[dt] == CellOf(dt);
    dt.own := dt.own + st.own;
    dt.total := dt.total + st.total;
    assert View(nodes) == Doubled(v0, done + {dt});
    S, D := PushChildren(st, dt, S0, D0, nodes, r, s);
  }

  // ---- The walk ----

  lemma TwinsLast(S: seq<Node>, D: seq<Node>, sr: Node, dr: Node)
    requires Twinned(S, D, sr, dr) && D != []
    ensures S != [] && S[|S| - 1] == (if D[|D| - 1] == dr then sr else D[|D| - 1])
    ensures Twinned(S[..|S| - 1], D[..|D| - 1], sr, dr)
  {
  }

  lemma TwinsMore(S: seq<Node>, D: seq<Node>, sr: Node, dr: Node, kids: seq<Node>)
    requires Twinned(S, D, sr, dr) && forall k | k in kids :: k != dr
    ensures Twinned(S + kids, D + kids, sr, dr)
  {
    forall i | 0 <= i < |D + kids|
      ensures (S + kids)[i] == if (D + kids)[i] == dr then sr else (D + kids)[i]
    {
      if i >= |D| { assert kids[i - |D|] in kids; }
    }
  }

  lemma {:induction false} Everything(v0: Arena, r: Node, s: Shape, v: Arena, done: set<Node>)
    requires DoublingKept(v0, r, s, v, done, [])
    ensures v == Doubled(v0, v0.Keys)
  {
    Opened(v0, r, s, v, done, []);
    forall n | n in v0
      ensures n in done
    {
      AllFixed(v0, s, r, done, n);
    }
  }

  lemma {:induction false} DoublingStarts(v0: Arena, r: Node, s: Shape)
    requires Rooted(v0, r, s) && Sorted(v0)
    ensures DoublingKept(v0, r, s, v0, {}, [r])
  {
    assert Doubled(v0, {}) == v0;
    forall n | n in s.par
      ensures Reached({}, [r], n) <==> s.par[n] in {}
    {
      assert n != r;
    }
    assert Reached({}, [r], r);
    assert Visited(v0, s, r, {}, [r]);
  }

  /** The last pairs of two stacks. */
  method Last(S: seq<Node>, D: seq<Node>, ghost sr: Node, ghost dr: Node) returns (st: Node, dt: Node, S1: seq<Node>, D1: seq<Node>)
    requires Twinned(S, D, sr, dr) && S != []
    ensures D == D1 + [dt] && Twinned(S1, D1, sr, dr) && st == if dt == dr then sr else dt
  {
    TwinsLast(S, D, sr, dr);
    SplitLast(D);
    st, dt, S1, D1 := S[|S| - 1], D[|D| - 1], S[..|S| - 1], D[..|D| - 1];
  }

  method StepShared(S: seq<Node>, D: seq<Node>, sr: Node, dr: Node, ghost nodes: set<Node>, ghost v0: Arena, ghost s: Shape, ghost done: set<Node>)
    returns (S2: seq<Node>, D2: seq<Node>, ghost n: Node)
    requires S != [] && Twinned(S, D, sr, dr) && sr !in nodes && View(nodes).Keys == v0.Keys
    requires Pair(sr, dr, nodes, v0, dr) && DoublingKept(v0, dr, s, View(nodes), done, D)
    modifies nodes
    ensures n in nodes && n !in done && Twinned(S2, D2, sr, dr) && DoublingKept(v0, dr, s, View(nodes), done + {n}, D2)
  {
    var st, dt, S1, D1 := Last(S, D, sr, dr);
    n := dt;
    DoubleOne(v0, dr, s, View(nodes), done, D1, dt);
    S2, D2 := VisitPair(st, dt, S1, D1, nodes, v0, dr, s, done);
    TwinsMore(S1, D1, sr, dr, v0[dt].children);
  }

  method WalkShared(sr: Node, dr: Node, ghost nodes: set<Node>, ghost s: Shape)
    requires dr in nodes && sr !in nodes && Rooted(View(nodes), dr, s) && Sorted(View(nodes))
    requires Pair(sr, dr, nodes, View(nodes), dr)
    modifies nodes
    ensures View(nodes) == Doubled(old(View(nodes)), nodes)
  {
    ghost var v0 := View(nodes);
    DoublingStarts(v0, dr, s);
    var S, D := [sr], [dr];
    ghost var done := {};
    while S != []
      invariant Twinned(S, D, sr, dr) && Pair(sr, dr, nodes, v0, dr) && DoublingKept(v0, dr, s, View(nodes), done, D)
      decreases |nodes - done|
    {
      ghost var n;
      S, D, n := StepShared(S, D, sr, dr, nodes, v0, s, done);
      OneLess(nodes, nodes, done, n);
      done := done + {n};
    }
    Everything(v0, dr, s, View(nodes), done);
  }

  // ---- Merge ----

  /** Twice the weight at every path. */
  lemma {:induction false} DoubledWeighs(v: Arena, s: Shape)
    ensures forall p :: Weight(Doubled(v, v.Keys), s, p) == Weight(v, s, p) + Weight(v, s, p)
  {
    forall p
      ensures Weight(Doubled(v, v.Keys), s, p) == Weight(v, s, p) + Weight(v, s, p)
    {
      SumTwice<Node>(At(v, s, p), At(Doubled(v, v.Keys), s, p));
    }
  }

  lemma {:induction false} DoubledTotals(v: Arena, kids: seq<Node>)
    requires forall c | c in kids :: c in v
    ensures TotalsOf(Doubled(v, v.Keys), kids) == TotalsOf(v, kids) + TotalsOf(v, kids)
    decreases |kids|
  {
    if kids != [] { DoubledTotals(v, kids[..|kids| - 1]); }
  }

  lemma {:induction false} DoubledAddsUp(v: Arena, s: Shape)
    requires Links(v, s) && Consistent(v)
    ensures Consistent(Doubled(v, v.Keys))
  {
    forall n | n in v
      ensures Adds(Doubled(v, v.Keys), n, {}, 0)
    {
      assert Lists(v, s, n) && Adds(v, n, {}, 0);
      DoubledTotals(v, v[n].children);
    }
  }

  lemma {:induction false} DoubledForest(v: Arena, root: seq<Node>, s: Shape)
    requires WellFormed(v, root, s)
    ensures WellFormed(Doubled(v, v.Keys), root, s)
  {
    var w := Doubled(v, v.Keys);
    forall n | n in s.par
      ensures Listed(w, s, n)
    {
      assert Listed(v, s, n);
    }
    forall n | n in w
      ensures Lists(w, s, n) && SortedAt(w, n)
    {
      assert Lists(v, s, n) && SortedAt(v, n);
    }
  }

  /** Doubling is what a merge with the same tree comes to. */
  lemma {:induction false} DoubledIsMerged(v: Arena, root: seq<Node>, s: Shape)
    requires WellFormed(v, root, s)
    ensures MergeOf(v, root, s, v, root, s, Doubled(v, v.Keys), root, s)
  {
    DoubledForest(v, root, s);
    DoubledWeighs(v, s);
    DoubledTotals(v, root);
    if Consistent(v) { DoubledAddsUp(v, s); }
  }

  lemma {:induction false} DoubledBelow(v: Arena, r: Node, cell: Cell, nodes: set<Node>)
    requires r !in v && v.Keys == nodes && cell.own == 0 && cell.total == 0
    ensures Doubled(v[r := cell], nodes + {r}) == Doubled(v, nodes)[r := cell]
  {
  }

  /**
   A merge with a tree of the same nodes, be it the tree itself: every node counts twice, and so it does in the
   source, which shares it. With nothing in the source, nothing happens.
   */
  method MergeShared(t: Tree, src: Tree)
    requires t.Valid() && src.root == t.root && src.nodes == t.nodes && src.shape == t.shape
    modifies t, t.nodes
    ensures t.Valid() && t.root == old(t.root) && t.nodes == old(t.nodes) && src.root == t.root && src.nodes == t.nodes
    ensures t.Arena() == src.Arena()
         == if TotalsOf(old(t.Arena()), old(t.root)) == 0 then old(t.Arena()) else Doubled(old(t.Arena()), t.nodes)
  {
    var a := Total(t);
    var b := Total(src);
    if a == 0 && b > 0 {
      assert false;
    } else if b != 0 {
      DoubleAll(t, src);
    }
  }

  method DoubleAll(t: Tree, src: Tree)
    requires t.Valid() && src.root == t.root && src.nodes == t.nodes && src.shape == t.shape
    modifies t, t.nodes
    ensures t.Valid() && t.root == old(t.root) && t.nodes == old(t.nodes) && src.root == t.root && src.nodes == t.nodes
    ensures t.Arena() == Doubled(old(t.Arena()), t.nodes)
  {
    ghost var v, root, nodes, shape := t.Arena(), t.root, t.nodes, t.shape;
    DoubledForest(v, root, shape);
    var sr := new Node(null, src.root, []);
    var dr := DoubleUnderTop(t, sr);
    SetRoot(t, dr.children);
  }

  /** The children of the temporary top are the roots again. */
  method SetRoot(t: Tree, root: seq<Node>)
    requires root == t.root
    modifies t`root
    ensures t.root == old(t.root) && t.nodes == old(t.nodes) && t.shape == old(t.shape) && t.Arena() == old(t.Arena())
  {
    t.root := root;
  }

  method DoubleUnderTop(t: Tree, sr: Node) returns (dr: Node)
    requires t.Valid() && sr !in t.nodes && sr.children == t.root && sr.own == 0 && sr.total == 0
    modifies t.nodes
    ensures fresh(dr) && dr.children == t.root && t.Arena() == Doubled(old(t.Arena()), t.nodes)
  {
    ghost var v := t.Arena();
    var r, nodes, s := Plant(t);
    dr := r;
    ghost var w := View(nodes);
    Opens(v, t.root, t.shape, dr, w, s);
    WalkShared(sr, dr, nodes, s);
    DoubledBelow(v, dr, w[dr], t.nodes);
    assert View(nodes)[dr] == CellOf(dr);
    ViewOfSome(nodes, t.nodes);
    BelowAgain(v, dr, w[dr], t.nodes);
  }

  lemma BelowAgain(v: Arena, r: Node, cell: Cell, nodes: set<Node>)
    requires r !in v && v.Keys == nodes
    ensures (map n | n in nodes :: Doubled(v, nodes)[r := cell][n]) == Doubled(v, nodes)
  {
  }
}
