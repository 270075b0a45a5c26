/** Finding and adding children, and `InsertStack`. */
module TreeInsert {
  import opened Basics
  import opened Names
  import opened Sums
  import opened TreeModel

  /** The first child whose name is not below `name`. */
  method Search(children: seq<Node>, name: Name) returns (i: nat)
    requires forall a, b | 0 <= a < b < |children| :: Less(children[a].name, children[b].name)
    ensures i <= |children|
    ensures forall k | 0 <= k < i :: Less(children[k].name, name)
    ensures forall k | i <= k < |children| :: !Less(children[k].name, name)
  {
    var j: nat;
    i, j := 0, |children|;
    while i < j
      invariant i <= j <= |children|
      invariant forall k | 0 <= k < i :: Less(children[k].name, name)
      invariant forall k | j <= k < |children| :: !Less(children[k].name, name)
    {
      var h := (i + j) / 2;
      if Less(children[h].name, name) {
        forall k | 0 <= k < h
          ensures Less(children[k].name, name)
        {
          LessIsTransitive(children[k].name, children[h].name, name);
        }
        i := h + 1;
      } else {
        forall k | h < k < |children|
          ensures !Less(children[k].name, name)
        {
          if Less(children[k].name, name) { LessIsTransitive(children[h].name, children[k].name, name); }
        }
        j := h;
      }
    }
  }

  // ---- A new child ----

  ghost function Grown(v: Arena, n: Node, kids: seq<Node>, c: Node, name: Name): Arena
    requires n in v
  {
    v[n := v[n].(children := kids)][c := Cell(n, [], 0, 0, name)]
  }

  ghost function GrownShape(s: Shape, n: Node, c: Node, name: Name): Shape
    requires n in s.path
  {
    Shape(s.par[c := n], s.path[c := s.path[n] + [name]])
  }

  lemma GrownListed(v: Arena, s: Shape, n: Node, kids: seq<Node>, c: Node, name: Name, x: Node)
    requires n in v && n in s.path && c !in v && c !in s.path && c in kids && c != n
    requires (forall y | y in v[n].children :: y in kids) && (x == c || Listed(v, s, x))
    ensures Listed(Grown(v, n, kids, c, name), GrownShape(s, n, c, name), x)
  {
  }

  lemma GrownLists(v: Arena, s: Shape, n: Node, i: nat, c: Node, name: Name, p: Node)
    requires n in v && n in s.path && c !in v && i <= |v[n].children| && (p == c || Lists(v, s, p))
    ensures Lists(Grown(v, n, v[n].children[..i] + [c] + v[n].children[i..], c, name), GrownShape(s, n, c, name), p)
  {
    if p == n { DistinctInsert(v[n].children, i, c); }
  }

  lemma GrownIsRooted(v: Arena, r: Node, s: Shape, n: Node, i: nat, c: Node, name: Name, kids: seq<Node>)
    requires Rooted(v, r, s) && n in v && c !in v && i <= |v[n].children|
    requires kids == v[n].children[..i] + [c] + v[n].children[i..]
    ensures Rooted(Grown(v, n, kids, c, name), r, GrownShape(s, n, c, name))
  {
    var w, t := Grown(v, n, kids, c, name), GrownShape(s, n, c, name);
    assert v[n].children == v[n].children[..i] + v[n].children[i..];
    assert t.par.Keys == w.Keys - {r} && t.path.Keys == w.Keys;
    forall x | x in t.par
      ensures Listed(w, t, x)
    {
      if x != c { assert Listed(v, s, x); }
      GrownListed(v, s, n, kids, c, name, x);
    }
    forall p | p in w
      ensures Lists(w, t, p)
    {
      if p != c { assert Lists(v, s, p); }
      GrownLists(v, s, n, i, c, name, p);
    }
  }

  lemma DistinctInsert(ns: seq<Node>, i: nat, c: Node)
    requires Distinct(ns) && c !in ns && i <= |ns|
    ensures Distinct(ns[..i] + [c] + ns[i..])
  {
  }

  lemma GrownIsSorted(v: Arena, r: Node, s: Shape, n: Node, i: nat, c: Node, name: Name, kids: seq<Node>)
    requires Rooted(v, r, s) && Sorted(v) && n in v && c !in v && i <= |v[n].children|
    requires kids == v[n].children[..i] + [c] + v[n].children[i..]
    requires forall x | x in v[n].children :: x in v
    requires forall k | 0 <= k < i :: Less(v[v[n].children[k]].name, name)
    requires forall k | i <= k < |v[n].children| :: Less(name, v[v[n].children[k]].name)
    ensures Sorted(Grown(v, n, kids, c, name))
  {
    var w := Grown(v, n, kids, c, name);
    forall p | p in w
      ensures SortedAt(w, p)
    {
      if p != c {
        assert Lists(v, s, p);
        assert SortedAt(v, p);
      }
    }
  }

  /** The new node weighs nothing anywhere. */
  lemma GrownWeighsTheSame(v: Arena, s: Shape, n: Node, kids: seq<Node>, c: Node, name: Name, p: seq<Name>)
    requires s.path.Keys == v.Keys && n in v && c !in v
    ensures Weight(Grown(v, n, kids, c, name), GrownShape(s, n, c, name), p) == Weight(v, s, p)
  {
    GrownAt(v, s, n, kids, c, name, p);
    if s.path[n] + [name] == p {
      SumSet<Node>(At(v, s, p), c, 0);
    }
  }

  lemma GrownAt(v: Arena, s: Shape, n: Node, kids: seq<Node>, c: Node, name: Name, p: seq<Name>)
    requires s.path.Keys == v.Keys && n in v && c !in v
    ensures At(Grown(v, n, kids, c, name), GrownShape(s, n, c, name), p)
         == if s.path[n] + [name] == p then At(v, s, p)[c := 0] else At(v, s, p)
  {
    var w, t := Grown(v, n, kids, c, name), GrownShape(s, n, c, name);
    forall m
      ensures m in w && m in t.path && t.path[m] == p <==> (m in v && s.path[m] == p) || (m == c && s.path[n] + [name] == p)
    {
    }
  }

  /** What `Insert` does to the tree: nothing, or one more child without weight. */
  ghost predicate Inserted(v: Arena, s: Shape, w: Arena, t: Shape, n: Node, c: Node, name: Name) {
    && n in v && c in w && w[c].name == name && c in t.par && t.par[c] == n
    && if c in v then w == v && t == s
       else
         && n in s.path && c !in s.path && t == GrownShape(s, n, c, name)
         && exists i: nat :: i <= |v[n].children| && w == Grown(v, n, v[n].children[..i] + [c] + v[n].children[i..], c, name)
  }

  /** Puts a new child at place `i`. */
  method AddChild(n: Node, i: nat, name: Name, ghost nodes: set<Node>, ghost r: Node, ghost s: Shape) returns (c: Node)
    requires n in nodes && Rooted(View(nodes), r, s) && Sorted(View(nodes)) && i <= |n.children|
    requires forall x | x in n.children :: x in nodes
    requires forall k | 0 <= k < i :: Less(n.children[k].name, name)
    requires forall k | i <= k < |n.children| :: Less(name, n.children[k].name)
    modifies n`children
    ensures fresh(c)
    ensures View(nodes + {c}) == Grown(old(View(nodes)), n, old(n.children[..i] + [c] + n.children[i..]), c, name)
    ensures Rooted(View(nodes + {c}), r, GrownShape(s, n, c, name)) && Sorted(View(nodes + {c}))
  {
    ghost var v := View(nodes);
    c := new Node(n, [], name);
    ghost var kids := n.children[..i] + [c] + n.children[i..];
    n.children := n.children[..i] + [c] + n.children[i..];
    GrownIsRooted(v, r, s, n, i, c, name, kids);
    GrownIsSorted(v, r, s, n, i, c, name, kids);
    assert View(nodes + {c}) == Grown(v, n, kids, c, name);
  }

  /** The child of `n` with this name, added in its place if it is not there. */
  method Insert(n: Node, name: Name, ghost nodes: set<Node>, ghost r: Node, ghost s: Shape)
    returns (c: Node, ghost nodes2: set<Node>, ghost s2: Shape)
    requires n in nodes && Rooted(View(nodes), r, s) && Sorted(View(nodes))
    modifies n`children
    ensures nodes2 == nodes + {c} && (c in nodes || fresh(c))
    ensures Rooted(View(nodes2), r, s2) && Sorted(View(nodes2))
    ensures Inserted(old(View(nodes)), s, View(nodes2), s2, n, c, name)
  {
    ghost var v := View(nodes);
    assert Lists(v, s, n) && SortedAt(v, n);
    assert forall x | x in n.children :: x in nodes;
    var i := Search(n.children, name);
    if i < |n.children| && n.children[i].name == name {
      c, nodes2, s2 := n.children[i], nodes, s;
    } else {
      forall k | i <= k < |n.children|
        ensures Less(name, n.children[k].name)
      {
        LessOrEqualOrGreater(name, n.children[k].name);
        assert k > i ==> Less(n.children[i].name, n.children[k].name);
      }
      c := AddChild(n, i, name, nodes, r, s);
      nodes2, s2 := nodes + {c}, GrownShape(s, n, c, name);
    }
  }

  // ---- InsertStack ----

  /** The current node is told of the weight that goes through it; its parent is settled, and it is ahead. */
  lemma {:induction false} PassThrough(v: Arena, r: Node, s: Shape, n: Node, x: int)
    requires Rooted(v, r, s) && n in v && AddsUp(v, r, Ahead(s, n), x)
    ensures AddsUp(v[n := v[n].(total := v[n].total + x)], r, {n}, x)
  {
    var w := v[n := v[n].(total := v[n].total + x)];
    forall m | m in w && m != r
      ensures Adds(w, m, {n}, x)
    {
      assert Adds(v, m, Ahead(s, n), x);
      assert Lists(v, s, m);
      TotalsChange(v, n, w[n], v[m].children);
      if n != r { assert Listed(v, s, n); }
    }
  }

  /** A new child changes no sum. */
  lemma {:induction false} GrownAddsUp(v: Arena, r: Node, s: Shape, w: Arena, t: Shape, n: Node, c: Node, name: Name, x: int)
    requires Rooted(v, r, s) && AddsUp(v, r, {n}, x) && Inserted(v, s, w, t, n, c, name) && Rooted(w, r, t)
    ensures AddsUp(w, r, {n}, x) && c != r
  {
    assert Listed(w, t, c);
    if c !in v {
      var i: nat :| i <= |v[n].children| && w == Grown(v, n, v[n].children[..i] + [c] + v[n].children[i..], c, name);
      forall m | m in w && m != r
        ensures Adds(w, m, {n}, x)
      {
        if m != c {
          assert Adds(v, m, {n}, x);
          assert Lists(v, s, m);
          TotalsSame(v, w, v[m].children);
          if m == n { GrownTotals(v, w, v[n].children, i, c); }
        }
      }
    }
  }

  lemma GrownTotals(v: Arena, w: Arena, kids: seq<Node>, i: nat, c: Node)
    requires i <= |kids| && c in w && w[c].total == 0
    ensures TotalsOf(w, kids[..i] + [c] + kids[i..]) == TotalsOf(w, kids)
  {
    assert kids == kids[..i] + kids[i..];
    assert [c][..0] == [];
    TotalsConcat(w, kids[..i], kids[i..]);
    TotalsConcat(w, kids[..i] + [c], kids[i..]);
    TotalsConcat(w, kids[..i], [c]);
  }

  /** The roots are the nodes at paths of length 1. */
  lemma RootsAreShort(v: Arena, r: Node, s: Shape, n: Node)
    requires Rooted(v, r, s) && n in v
    ensures n in v[r].children <==> |s.path[n]| == 1
  {
    assert Lists(v, s, r);
    if n != r {
      assert Listed(v, s, n);
      if s.par[n] != r { assert Listed(v, s, s.par[n]); }
    }
  }

  /** A change of one node's total shows in the total of the tree if the node is a root. */
  lemma {:induction false} RootTotalChanges(v: Arena, r: Node, s: Shape, n: Node, cell: Cell)
    requires Rooted(v, r, s) && n in v && cell.children == v[n].children
    ensures var w := v[n := cell];
      TotalsOf(w, w[r].children) == TotalsOf(v, v[r].children) + if |s.path[n]| == 1 then cell.total - v[n].total else 0
  {
    assert Lists(v, s, r);
    RootsAreShort(v, r, s, n);
    TotalsChange(v, n, cell, v[r].children);
  }

  /** A new child does not. */
  lemma {:induction false} RootTotalStays(v: Arena, r: Node, s: Shape, w: Arena, t: Shape, n: Node, c: Node, name: Name)
    requires Rooted(v, r, s) && Inserted(v, s, w, t, n, c, name)
    ensures r in w && TotalsOf(w, w[r].children) == TotalsOf(v, v[r].children)
  {
    if c !in v {
      var i: nat :| i <= |v[n].children| && w == Grown(v, n, v[n].children[..i] + [c] + v[n].children[i..], c, name);
      assert Lists(v, s, r);
      TotalsSame(v, w, v[r].children);
      if n == r { GrownTotals(v, w, v[r].children, i, c); }
    }
  }

  lemma InsertedWeighsTheSame(v: Arena, s: Shape, w: Arena, t: Shape, n: Node, c: Node, name: Name, p: seq<Name>)
    requires s.path.Keys == v.Keys && Inserted(v, s, w, t, n, c, name)
    ensures Weight(w, t, p) == Weight(v, s, p)
  {
    if c !in v {
      var i: nat :| i <= |v[n].children| && w == Grown(v, n, v[n].children[..i] + [c] + v[n].children[i..], c, name);
      GrownWeighsTheSame(v, s, n, v[n].children[..i] + [c] + v[n].children[i..], c, name, p);
    }
  }

  /** The node whose total is ahead while `n` has not been told yet: its parent. */
  ghost function Ahead(s: Shape, n: Node): set<Node> {
    if n in s.par then {s.par[n]} else {}
  }

  /** On the way down: `n` is next, and its parent's total counts on `x` more. */
  ghost predicate Descending(v: Arena, r: Node, s: Shape, n: Node, x: int, sums: bool) {
    && Rooted(v, r, s) && Sorted(v) && RealParents(v, s, {r}) && n in v
    && (sums ==> AddsUp(v, r, Ahead(s, n), x))
  }

  /** The total of the tree below `r`. */
  ghost function RootTotal(v: Arena, r: Node): int
    requires r in v
  {
    TotalsOf(v, v[r].children)
  }

  /** One step down: the weight passes through `n`, and the child with this name is next. */
  method Descend(n: Node, name: Name, x: int, ghost nodes: set<Node>, ghost r: Node, ghost s: Shape, ghost sums: bool)
    returns (c: Node, ghost nodes2: set<Node>, ghost s2: Shape)
    requires n in nodes && Descending(View(nodes), r, s, n, x, sums)
    modifies n
    ensures nodes2 == nodes + {c} && (c in nodes || fresh(c))
    ensures Descending(View(nodes2), r, s2, c, x, sums)
    ensures s2.path[c] == s.path[n] + [name]
    ensures SameBelow(old(View(nodes)), s, View(nodes2), s2)
    ensures RootTotal(View(nodes2), r) == old(RootTotal(View(nodes), r)) + if |s.path[n]| == 1 then x else 0
  {
    ghost var v := View(nodes);
    n.total := n.total + x;
    ghost var w := View(nodes);
    assert w == v[n := v[n].(total := v[n].total + x)];
    TotalIsFree(v, r, s, n, w[n]);
    RootTotalChanges(v, r, s, n, w[n]);
    if sums { PassThrough(v, r, s, n, x); }
    c, nodes2, s2 := Insert(n, name, nodes, r, s);
    RootTotalStays(w, r, s, View(nodes2), s2, n, c, name);
    forall p
      ensures Weight(View(nodes2), s2, p) == Weight(v, s, p)
    {
      WeightChange(v, s, n, w[n], p);
      InsertedWeighsTheSame(w, s, View(nodes2), s2, n, c, name, p);
    }
    InsertedParents(w, r, s, View(nodes2), s2, n, c, name);
    if sums { GrownAddsUp(w, r, s, View(nodes2), s2, n, c, name, x); }
    assert Listed(View(nodes2), s2, c);
    if c in nodes { assert Listed(w, s, c); }
  }

  /** Weights and totals have no part in the links and the order. */
  lemma TotalIsFree(v: Arena, r: Node, s: Shape, n: Node, cell: Cell)
    requires Rooted(v, r, s) && Sorted(v) && n in v && cell == v[n].(own := cell.own, total := cell.total)
    ensures Rooted(v[n := cell], r, s) && Sorted(v[n := cell])
  {
    var w := v[n := cell];
    forall m | m in s.par
      ensures Listed(w, s, m)
    {
      assert Listed(v, s, m);
    }
    forall m | m in w
      ensures Lists(w, s, m) && SortedAt(w, m)
    {
      assert Lists(v, s, m) && SortedAt(v, m);
      FreeAt(v, s, n, cell, m);
    }
  }

  lemma FreeAt(v: Arena, s: Shape, n: Node, cell: Cell, m: Node)
    requires n in v && cell == v[n].(own := cell.own, total := cell.total) && m in v
    ensures Lists(v, s, m) ==> Lists(v[n := cell], s, m)
    ensures SortedAt(v, m) ==> SortedAt(v[n := cell], m)
  {
    var w := v[n := cell];
    assert forall x | x in v :: w[x].name == v[x].name && w[x].children == v[x].children;
    if SortedAt(v, m) {
      var kids := v[m].children;
      forall i, j | 0 <= i < j < |kids|
        ensures kids[i] in w && kids[j] in w && Less(w[kids[i]].name, w[kids[j]].name)
      {
        assert kids[i] in v && kids[j] in v && Less(v[kids[i]].name, v[kids[j]].name);
      }
    }
  }

  lemma InsertedParents(v: Arena, r: Node, s: Shape, w: Arena, t: Shape, n: Node, c: Node, name: Name)
    requires RealParents(v, s, {r}) && Inserted(v, s, w, t, n, c, name)
    ensures RealParents(w, t, {r})
  {
  }

  /** Adds `x` at the end of the way: everything adds up again, and the weight lies at the end's path. */
  lemma {:induction false} EndOfTheWay(v: Arena, r: Node, s: Shape, n: Node, x: int, sums: bool)
    requires Descending(v, r, s, n, x, sums)
    ensures var w := v[n := v[n].(total := v[n].total + x, own := v[n].own + x)];
      && Rooted(w, r, s) && Sorted(w) && RealParents(w, s, {r}) && (sums ==> AddsUp(w, r, {}, 0))
      && Gains(v, s, w, s, s.path[n], x)
      && RootTotal(w, r) == RootTotal(v, r) + if |s.path[n]| == 1 then x else 0
  {
    RootTotalChanges(v, r, s, n, v[n].(total := v[n].total + x, own := v[n].own + x));
    var w := v[n := v[n].(total := v[n].total + x, own := v[n].own + x)];
    TotalIsFree(v, r, s, n, w[n]);
    forall p
      ensures Weight(w, s, p) == Weight(v, s, p) + if p == s.path[n] then x else 0
    {
      WeightChange(v, s, n, w[n], p);
    }
    if sums {
      forall m | m in w && m != r
        ensures Adds(w, m, {}, 0)
      {
        assert Adds(v, m, Ahead(s, n), x);
        assert Lists(v, s, m);
        TotalsChange(v, n, w[n], v[m].children);
        if n != r { assert Listed(v, s, n); }
      }
    }
  }

  method Arrive(n: Node, x: int, ghost nodes: set<Node>, ghost r: Node, ghost s: Shape, ghost sums: bool)
    requires n in nodes && Descending(View(nodes), r, s, n, x, sums)
    modifies n
    ensures Rooted(View(nodes), r, s) && Sorted(View(nodes)) && RealParents(View(nodes), s, {r})
    ensures sums ==> AddsUp(View(nodes), r, {}, 0)
    ensures Gains(old(View(nodes)), s, View(nodes), s, s.path[n], x)
    ensures RootTotal(View(nodes), r) == old(RootTotal(View(nodes), r)) + if |s.path[n]| == 1 then x else 0
  {
    ghost var v := View(nodes);
    EndOfTheWay(v, r, s, n, x, sums);
    n.total := n.total + x;
    n.own := n.own + x;
    assert View(nodes) == v[n := v[n].(total := v[n].total + x, own := v[n].own + x)];
  }

  lemma {:induction false} GainsOverall(v0: Arena, s0: Shape, v1: Arena, s1: Shape, v2: Arena, s2: Shape, v3: Arena, s3: Shape, at: seq<Name>, x: int)
    requires SameBelow(v0, s0, v1, s1) && Gains(v1, s1, v2, s2, at, x) && SameBelow(v2, s2, v3, s3)
    ensures Gains(v0, s0, v3, s3, at, x)
  {
  }

  lemma {:induction false} SameOverall(v0: Arena, s0: Shape, v1: Arena, s1: Shape, v2: Arena, s2: Shape)
    requires SameBelow(v0, s0, v1, s1) && SameBelow(v1, s1, v2, s2)
    ensures SameBelow(v0, s0, v2, s2)
  {
  }

  /** Since the tree was `v0` with the shape `s0`, the way led down `prefix` to `n`; a root on it was told. */
  ghost predicate Walked(v0: Arena, s0: Shape, v: Arena, r: Node, s: Shape, n: Node, x: int, sums: bool, prefix: seq<Name>, base: int) {
    && Descending(v, r, s, n, x, sums) && s.path[n] == prefix && SameBelow(v0, s0, v, s)
    && RootTotal(v, r) == base + if |prefix| >= 2 then x else 0
  }

  /** The same, closed. */
  ghost predicate WalkKept(v0: Arena, s0: Shape, v: Arena, r: Node, s: Shape, n: Node, x: int, sums: bool, prefix: seq<Name>, base: int) {
    forall w {:trigger Look(w)} | w == v && Look(w) :: Walked(v0, s0, w, r, s, n, x, sums, prefix, base)
  }

  lemma WalkOpened(v0: Arena, s0: Shape, v: Arena, r: Node, s: Shape, n: Node, x: int, sums: bool, prefix: seq<Name>, base: int)
    requires WalkKept(v0, s0, v, r, s, n, x, sums, prefix, base)
    ensures Walked(v0, s0, v, r, s, n, x, sums, prefix, base)
  {
    assert Look(v);
  }

  method WalkOn(n: Node, name: Name, x: int, ghost nodes: set<Node>, ghost r: Node, ghost s: Shape, ghost sums: bool,
                ghost v0: Arena, ghost s0: Shape, ghost prefix: seq<Name>, ghost base: int)
    returns (c: Node, ghost nodes2: set<Node>, ghost s2: Shape)
    requires n in nodes && WalkKept(v0, s0, View(nodes), r, s, n, x, sums, prefix, base)
    modifies n
    ensures nodes <= nodes2 && fresh(nodes2 - nodes) && c in nodes2
    ensures WalkKept(v0, s0, View(nodes2), r, s2, c, x, sums, prefix + [name], base)
  {
    ghost var v := View(nodes);
    WalkOpened(v0, s0, v, r, s, n, x, sums, prefix, base);
    c, nodes2, s2 := Descend(n, name, x, nodes, r, s, sums);
    SameOverall(v0, s0, v, s, View(nodes2), s2);
  }

  /** From `r` down along the stack. */
  method Walk(stack: seq<Name>, x: int, r: Node, ghost nodes: set<Node>, ghost s: Shape, ghost sums: bool, ghost v0: Arena, ghost s0: Shape, ghost base: int)
    returns (n: Node, ghost nodes2: set<Node>, ghost s2: Shape)
    requires r in nodes && WalkKept(v0, s0, View(nodes), r, s, r, x, sums, [], base)
    modifies nodes
    ensures nodes <= nodes2 && fresh(nodes2 - nodes) && n in nodes2
    ensures WalkKept(v0, s0, View(nodes2), r, s2, n, x, sums, stack, base)
  {
    n, nodes2, s2 := r, nodes, s;
    for k := 0 to |stack|
      invariant nodes <= nodes2 && fresh(nodes2 - nodes) && n in nodes2
      invariant WalkKept(v0, s0, View(nodes2), r, s2, n, x, sums, stack[..k], base)
    {
      OneLonger(stack, k);
      n, nodes2, s2 := WalkOn(n, stack[k], x, nodes2, r, s2, sums, v0, s0, stack[..k], base);
    }
    OneLonger(stack, |stack|);
  }

  /** Above all nodes nobody can be ahead. */
  lemma {:induction false} StartWalking(v: Arena, r: Node, s: Shape, x: int, sums: bool)
    requires Rooted(v, r, s) && Sorted(v) && RealParents(v, s, {r}) && (sums ==> AddsUp(v, r, {}, 0))
    ensures Descending(v, r, s, r, x, sums)
  {
    if sums {
      forall n | n in v && n != r
        ensures Adds(v, n, {}, x)
      {
        assert Adds(v, n, {}, 0);
      }
    }
  }

  /** The same tree with `x` more at one path. */
  ghost predicate HasGained(v0: Arena, r0: seq<Node>, s0: Shape, v: Arena, root: seq<Node>, s: Shape, at: seq<Name>, x: int) {
    && WellFormed(v, root, s) && (Consistent(v0) ==> Consistent(v))
    && Gains(v0, s0, v, s, at, x) && TotalsOf(v, root) == TotalsOf(v0, r0) + if at != [] then x else 0
  }

  /** At the end of the way: the weight stays here, and the roots are the children of `r`. */
  method Finish(t: Tree, n: Node, x: int, ghost nodes: set<Node>, r: Node, ghost s: Shape, ghost sums: bool,
                ghost v0: Arena, ghost r0: seq<Node>, ghost s0: Shape, ghost stack: seq<Name>, ghost base: int)
    requires base == TotalsOf(v0, r0) && (sums <==> Consistent(v0))
    requires n in nodes && r in nodes && WalkKept(v0, s0, View(nodes), r, s, n, x, sums, stack, base)
    modifies t, n
    ensures t.nodes == nodes - {r}
    ensures HasGained(v0, r0, s0, t.Arena(), t.root, t.shape, stack, x)
  {
    ghost var v1 := View(nodes);
    WalkOpened(v0, s0, v1, r, s, n, x, sums, stack, base);
    Arrive(n, x, nodes, r, s, sums);
    ghost var v2 := View(nodes);
    Close(t, r, nodes, s);
    GainsOverall(v0, s0, v1, s, v2, s, t.Arena(), t.shape, stack, x);
  }

  /** The way starts above the roots. */
  method Begin(t: Tree, x: int) returns (r: Node, ghost nodes: set<Node>, ghost s: Shape)
    requires t.Valid()
    ensures fresh(r) && nodes == t.nodes + {r} && r in nodes
    ensures WalkKept(t.Arena(), t.shape, View(nodes), r, s, r, x, t.Sums(), [], TotalsOf(t.Arena(), t.root))
  {
    r, nodes, s := Open(t);
    StartWalking(View(nodes), r, s, x, t.Sums());
  }

  /**
   Adds `x` to the own weight of the node at the path `stack`, and to the total of the tree; nothing if `x` is not
   positive or the stack is empty.
   */
  method InsertStack(t: Tree, x: int, stack: seq<Name>)
    requires t.Valid()
    modifies t, t.nodes
    ensures t.Valid() && fresh(t.nodes - old(t.nodes))
    ensures old(t.Sums()) ==> t.Sums()
    ensures Gains(old(t.Arena()), old(t.shape), t.Arena(), t.shape, stack, if x > 0 then x else 0)
    ensures TotalsOf(t.Arena(), t.root) == old(TotalsOf(t.Arena(), t.root)) + if x > 0 && stack != [] then x else 0
  {
    if x > 0 {
      AddStack(t, x, stack);
    }
  }

  method AddStack(t: Tree, x: int, stack: seq<Name>)
    requires t.Valid()
    modifies t, t.nodes
    ensures fresh(t.nodes - old(t.nodes))
    ensures HasGained(old(t.Arena()), old(t.root), old(t.shape), t.Arena(), t.root, t.shape, stack, x)
  {
    ghost var sums, v0, r0, s0, base := t.Sums(), t.Arena(), t.root, t.shape, TotalsOf(t.Arena(), t.root);
    var r, nodes, s := Begin(t, x);
    var n, nodes1, s1 := Walk(stack, x, r, nodes, s, sums, v0, s0, base);
    Finish(t, n, x, nodes1, r, s1, sums, v0, r0, s0, stack, base);
  }
}
