/** What the total of a tree means: all the weight in it. */
module TreeTotals {
  import opened Sums
  import opened Names
  import opened TreeModel
  import opened TreeFix

  ghost function OwnOf(v: Arena, ns: set<Node>): map<Node, int> {
    map n | n in ns && n in v :: v[n].own
  }

  ghost function TotalsIn(v: Arena, ns: set<Node>): map<Node, int> {
    map n | n in ns && n in v :: v[n].total
  }

  /** With each node, the nodes above it. */
  ghost predicate Upward(v: Arena, s: Shape, ns: set<Node>) {
    ns <= v.Keys && forall n {:trigger s.par[n]} | n in ns && n in s.par :: s.par[n] in ns
  }

  /** The nodes right below `ns`, or roots outside of it. */
  ghost function Edge(v: Arena, s: Shape, ns: set<Node>): set<Node> {
    set n | n in v && n !in ns && (n in s.par ==> s.par[n] in ns)
  }

  lemma {:induction false} Deepest(path: map<Node, seq<Name>>, ns: set<Node>) returns (n: Node)
    requires ns != {} && ns <= path.Keys
    ensures n in ns && forall m | m in ns :: |path[m]| <= |path[n]|
    decreases |ns|
  {
    n :| n in ns;
    if ns != {n} {
      var m := Deepest(path, ns - {n});
      if |path[m]| > |path[n]| { n := m; }
    }
  }

  /** Who the children of `n` are. */
  lemma ChildrenAre(v: Arena, s: Shape, n: Node)
    requires Links(v, s) && n in v
    ensures n !in v[n].children && forall m :: m in v[n].children <==> m in v && m in s.par && s.par[m] == n
  {
    assert Lists(v, s, n);
    assert n in s.par ==> Listed(v, s, n);
    forall m | m in s.par
      ensures m in v && (s.par[m] == n ==> m in v[n].children)
    {
      assert Listed(v, s, m);
    }
  }

  /** Taking a node in puts its children on the edge in its place. */
  lemma {:induction false} EdgeMoves(v: Arena, s: Shape, fewer: set<Node>, n: Node, kids: seq<Node>)
    requires n in v && n !in fewer && n !in kids && forall m :: m in kids <==> m in v && m in s.par && s.par[m] == n
    requires Upward(v, s, fewer) && Upward(v, s, fewer + {n})
    ensures n in Edge(v, s, fewer) && Edge(v, s, fewer + {n}) == Edge(v, s, fewer) - {n} + (set m | m in kids)
    ensures forall m | m in kids :: m in v && m !in Edge(v, s, fewer)
  {
    assert forall m | m in fewer && m in s.par :: s.par[m] != n;
  }

  /** The totals on the edge change by those of `n` and its children. */
  lemma {:induction false} EdgeTotals(v: Arena, edge: set<Node>, n: Node, kids: seq<Node>)
    requires n in v && n in edge && Distinct(kids) && forall m | m in kids :: m in v && m !in edge
    ensures Sum<Node>(TotalsIn(v, edge - {n} + (set m | m in kids))) == Sum<Node>(TotalsIn(v, edge)) - v[n].total + TotalsOf(v, kids)
  {
    var f, g := TotalsIn(v, edge) - {n}, ListTotals(v, kids);
    assert TotalsIn(v, edge - {n} + (set m | m in kids)) == f + g;
    SumJoin<Node>(f, g);
    SumWithout<Node>(TotalsIn(v, edge), n);
    TotalsOfSet(v, kids);
  }

  /** What a set of nodes holds itself, and what hangs below its edge. */
  ghost function Held(v: Arena, s: Shape, ns: set<Node>): int {
    Sum<Node>(OwnOf(v, ns)) + Sum<Node>(TotalsIn(v, Edge(v, s, ns)))
  }

  lemma {:induction false} HeldStays(v: Arena, s: Shape, fewer: set<Node>, n: Node)
    requires Links(v, s) && Consistent(v) && n in v && n !in fewer && Upward(v, s, fewer) && Upward(v, s, fewer + {n})
    ensures Held(v, s, fewer + {n}) == Held(v, s, fewer)
  {
    ChildrenAre(v, s, n);
    assert Lists(v, s, n) && Adds(v, n, {}, 0);
    EdgeMoves(v, s, fewer, n, v[n].children);
    EdgeTotals(v, Edge(v, s, fewer), n, v[n].children);
    SumWithout<Node>(OwnOf(v, fewer + {n}), n);
    assert OwnOf(v, fewer + {n}) - {n} == OwnOf(v, fewer);
  }

  lemma {:induction false} HeldByNone(v: Arena, root: seq<Node>, s: Shape)
    requires Forest(v, root, s)
    ensures Held(v, s, {}) == TotalsOf(v, root)
  {
    TotalsOfSet(v, root);
    assert TotalsIn(v, Edge(v, s, {})) == ListTotals(v, root);
  }

  /** A set that holds, with each node, the nodes above it, and its edge hold all the weight. */
  lemma {:induction false} TotalAtEdge(v: Arena, root: seq<Node>, s: Shape, ns: set<Node>)
    requires Forest(v, root, s) && Consistent(v) && Upward(v, s, ns)
    ensures Held(v, s, ns) == TotalsOf(v, root)
    decreases |ns|
  {
    if ns == {} {
      HeldByNone(v, root, s);
    } else {
      var n := Deepest(s.path, ns);
      WithoutDeepest(v, s, ns, n);
      TotalAtEdge(v, root, s, ns - {n});
      assert ns - {n} + {n} == ns;
      HeldStays(v, s, ns - {n}, n);
    }
  }

  lemma WithoutDeepest(v: Arena, s: Shape, ns: set<Node>, n: Node)
    requires Links(v, s) && Upward(v, s, ns) && n in ns && forall m | m in ns :: |s.path[m]| <= |s.path[n]|
    ensures Upward(v, s, ns - {n})
  {
    forall m | m in ns - {n} && m in s.par
      ensures s.par[m] in ns - {n}
    {
      assert Listed(v, s, m);
    }
  }

  /** Where the totals add up, the total of a tree is the sum of its nodes' own weights. */
  lemma {:induction false} TotalIsAllWeight(v: Arena, root: seq<Node>, s: Shape)
    requires Forest(v, root, s) && Consistent(v)
    ensures TotalsOf(v, root) == Sum<Node>(OwnOf(v, v.Keys))
  {
    assert forall n | n in s.par :: Listed(v, s, n);
    TotalAtEdge(v, root, s, v.Keys);
    assert TotalsIn(v, Edge(v, s, v.Keys)) == map[];
  }
}
