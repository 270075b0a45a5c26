/**
 The profile tree of the integration tests: nodes linked by pointers, siblings sorted by name, each node with
 its own weight and the total of its subtree. Methods change nodes in place; what they mean is said about a
 view of the nodes as a map, the weight that lies at each path of names.
 */
module TreeModel {
  import opened Names
  import opened Sums

  class Node {
    var parent: Node?
    var children: seq<Node>
    var own: int     // `self` in the original
    var total: int
    var name: Name

    constructor (parent: Node?, children: seq<Node>, name: Name)
      ensures this.parent == parent && this.children == children && this.name == name && own == 0 && total == 0
    {
      this.parent, this.children, this.name, own, total := parent, children, name, 0, 0;
    }
  }

  datatype Cell = Cell(parent: Node?, children: seq<Node>, own: int, total: int, name: Name)

  type Arena = map<Node, Cell>

  ghost function CellOf(n: Node): Cell
    reads n
  {
    Cell(n.parent, n.children, n.own, n.total, n.name)
  }

  ghost function View(nodes: set<Node>): (v: Arena)
    reads nodes
    ensures v.Keys == nodes
  {
    map n | n in nodes :: CellOf(n)
  }

  // ---- Well-formed trees ----

  /** Who is whose child, and the names from the root down to each node. */
  datatype Shape = Shape(par: map<Node, Node>, path: map<Node, seq<Name>>)

  ghost predicate Distinct(ns: seq<Node>) {
    forall i, j | 0 <= i < j < |ns| :: ns[i] != ns[j]
  }

  /** `n` is listed by its parent, and its path is its parent's and its own name. */
  ghost predicate Listed(v: Arena, s: Shape, n: Node) {
    && n in v && n in s.par && s.par[n] in v && n in v[s.par[n]].children
    && n in s.path && s.par[n] in s.path && s.path[n] == s.path[s.par[n]] + [v[n].name]
  }

  /** The children of `p` are `p`'s alone, each listed once. */
  ghost predicate Lists(v: Arena, s: Shape, p: Node) {
    && p in v && Distinct(v[p].children)
    && forall c | c in v[p].children :: c in v && c in s.par && s.par[c] == p
  }

  ghost predicate Links(v: Arena, s: Shape) {
    && s.path.Keys == v.Keys && s.par.Keys <= v.Keys
    && (forall n {:trigger Listed(v, s, n)} | n in s.par :: Listed(v, s, n))
    && (forall p {:trigger Lists(v, s, p)} | p in v :: Lists(v, s, p))
  }

  /** A tree below `r`. */
  ghost predicate Rooted(v: Arena, r: Node, s: Shape) {
    && Links(v, s) && r in v && s.path[r] == [] && s.par.Keys == v.Keys - {r}
  }

  ghost predicate RealParents(v: Arena, s: Shape, but: set<Node>) {
    forall n | n in s.par && n in v && s.par[n] !in but :: v[n].parent == s.par[n]
  }

  /** Trees below the nodes of a list. */
  ghost predicate Forest(v: Arena, root: seq<Node>, s: Shape) {
    && Links(v, s) && Distinct(root) && RealParents(v, s, {})
    && s.par.Keys == v.Keys - (set n | n in root)
    && (forall n | n in root :: n in v && s.path[n] == [v[n].name])
  }

  ghost predicate SortedKids(v: Arena, kids: seq<Node>) {
    forall i, j | 0 <= i < j < |kids| :: kids[i] in v && kids[j] in v && Less(v[kids[i]].name, v[kids[j]].name)
  }

  ghost predicate SortedAt(v: Arena, p: Node)
    requires p in v
  {
    SortedKids(v, v[p].children)
  }

  ghost predicate Sorted(v: Arena) {
    forall p {:trigger SortedAt(v, p)} | p in v :: SortedAt(v, p)
  }

  /** The original works on a temporary node above the roots. */
  ghost function Planted(s: Shape, root: seq<Node>, r: Node): Shape {
    Shape(s.par + map n | n in root :: r, s.path[r := []])
  }

  ghost function Uprooted(s: Shape, r: Node): Shape {
    Shape(map n | n in s.par && s.par[n] != r :: s.par[n], s.path - {r})
  }

  lemma PlantIsRooted(v: Arena, root: seq<Node>, s: Shape, r: Node, cell: Cell)
    requires Forest(v, root, s) && r !in v && cell.children == root
    ensures Rooted(v[r := cell], r, Planted(s, root, r)) && RealParents(v[r := cell], Planted(s, root, r), {r})
  {
    var w, t := v[r := cell], Planted(s, root, r);
    assert t.par.Keys == w.Keys - {r} && t.path.Keys == w.Keys;
    forall n | n in t.par
      ensures Listed(w, t, n)
    {
      PlantListed(v, root, s, r, cell, n);
    }
    forall p | p in w
      ensures Lists(w, t, p)
    {
      PlantLists(v, root, s, r, cell, p);
    }
  }

  lemma PlantListed(v: Arena, root: seq<Node>, s: Shape, r: Node, cell: Cell, n: Node)
    requires Forest(v, root, s) && r !in v && cell.children == root && n in v
    ensures Listed(v[r := cell], Planted(s, root, r), n)
  {
    if n !in root { assert Listed(v, s, n); }
  }

  lemma PlantLists(v: Arena, root: seq<Node>, s: Shape, r: Node, cell: Cell, p: Node)
    requires Forest(v, root, s) && r !in v && cell.children == root && (p == r || p in v)
    ensures Lists(v[r := cell], Planted(s, root, r), p)
  {
    if p != r { assert Lists(v, s, p); }
  }

  lemma UprootIsForest(v: Arena, r: Node, s: Shape)
    requires Rooted(v, r, s) && RealParents(v, s, {r})
    ensures Forest(v - {r}, v[r].children, Uprooted(s, r))
  {
    var w, t := v - {r}, Uprooted(s, r);
    assert Lists(v, s, r);
    forall n | n in t.par
      ensures Listed(w, t, n)
    {
      assert Listed(v, s, n);
    }
    forall p | p in w
      ensures Lists(w, t, p)
    {
      assert Lists(v, s, p);
    }
    forall n | n in v && n != r
      ensures s.par[n] == r <==> n in v[r].children
    {
      assert Listed(v, s, n);
    }
    forall n | n in v[r].children
      ensures w[n] == v[n] && t.path[n] == [w[n].name]
    {
      assert Listed(v, s, n);
    }
  }

  // ---- Weights and totals ----

  /** The nodes at a path, with their own weights. */
  ghost function At(v: Arena, s: Shape, p: seq<Name>): map<Node, int> {
    map n | n in v && n in s.path && s.path[n] == p :: v[n].own
  }

  /** The weight that lies at a path. */
  ghost function Weight(v: Arena, s: Shape, p: seq<Name>): int {
    Sum<Node>(At(v, s, p))
  }

  ghost function TotalsOf(v: Arena, kids: seq<Node>): int
    decreases |kids|
  {
    if kids == [] then 0
    else
      var c := kids[|kids| - 1];
      TotalsOf(v, kids[..|kids| - 1]) + if c in v then v[c].total else 0
  }

  /** The total of a node is its own weight and its children's totals, with `x` on top for a node that is ahead. */
  ghost predicate Adds(v: Arena, n: Node, ahead: set<Node>, x: int)
    requires n in v
  {
    v[n].total == v[n].own + TotalsOf(v, v[n].children) + if n in ahead then x else 0
  }

  ghost predicate Consistent(v: Arena) {
    forall n {:trigger Adds(v, n, {}, 0)} | n in v :: Adds(v, n, {}, 0)
  }

  /** Each node below `r` adds up. */
  ghost predicate AddsUp(v: Arena, r: Node, ahead: set<Node>, x: int) {
    forall n {:trigger Adds(v, n, ahead, x)} | n in v && n != r :: Adds(v, n, ahead, x)
  }

  /** The same weight at every path but the empty one, where no node of a tree is. */
  ghost predicate SameBelow(v: Arena, s: Shape, w: Arena, u: Shape) {
    forall p | p != [] :: Weight(w, u, p) == Weight(v, s, p)
  }

  /** As before, but for `x` more at one path. */
  ghost predicate Gains(v: Arena, s: Shape, w: Arena, u: Shape, at: seq<Name>, x: int) {
    forall p | p != [] :: Weight(w, u, p) == Weight(v, s, p) + if p == at then x else 0
  }

  lemma {:induction false} TotalsSame(v: Arena, w: Arena, kids: seq<Node>)
    requires forall c | c in kids :: c in v && c in w && v[c].total == w[c].total
    ensures TotalsOf(v, kids) == TotalsOf(w, kids)
    decreases |kids|
  {
    if kids != [] { TotalsSame(v, w, kids[..|kids| - 1]); }
  }

  /** One node's total changed; it shows where the node is listed. */
  lemma {:induction false} TotalsChange(v: Arena, n: Node, cell: Cell, kids: seq<Node>)
    requires n in v && Distinct(kids) && forall c | c in kids :: c in v
    ensures TotalsOf(v[n := cell], kids) == TotalsOf(v, kids) + if n in kids then cell.total - v[n].total else 0
    decreases |kids|
  {
    if kids != [] {
      var front := kids[..|kids| - 1];
      assert kids == front + [kids[|kids| - 1]];
      if kids[|kids| - 1] == n {
        TotalsSame(v, v[n := cell], front);
      } else {
        TotalsChange(v, n, cell, front);
      }
    }
  }

  lemma {:induction false} TotalsConcat(v: Arena, a: seq<Node>, b: seq<Node>)
    ensures TotalsOf(v, a + b) == TotalsOf(v, a) + TotalsOf(v, b)
    decreases |b|
  {
    if b == [] {
      assert a + b == a;
    } else {
      assert (a + b)[..|a + b| - 1] == a + b[..|b| - 1];
      TotalsConcat(v, a, b[..|b| - 1]);
    }
  }

  /** A node's own weight changed. */
  lemma WeightChange(v: Arena, s: Shape, n: Node, cell: Cell, p: seq<Name>)
    requires n in v && n in s.path
    ensures Weight(v[n := cell], s, p) == Weight(v, s, p) + if s.path[n] == p then cell.own - v[n].own else 0
  {
    if s.path[n] == p {
      assert At(v[n := cell], s, p) == At(v, s, p)[n := cell.own];
      SumSet<Node>(At(v, s, p), n, cell.own);
    } else {
      assert At(v[n := cell], s, p) == At(v, s, p);
    }
  }

  /** A node above the roots changes neither order nor sums, and weighs nothing at any real path. */
  lemma {:induction false} PlantKeeps(v: Arena, root: seq<Node>, s: Shape, r: Node, cell: Cell)
    requires Forest(v, root, s) && r !in v && cell.children == root
    ensures Sorted(v) && SortedKids(v, root) ==> Sorted(v[r := cell])
    ensures Consistent(v) ==> AddsUp(v[r := cell], r, {}, 0)
  {
    var w := v[r := cell];
    forall n | n in v
      ensures (Adds(v, n, {}, 0) ==> Adds(w, n, {}, 0)) && (SortedAt(v, n) ==> SortedAt(w, n))
    {
      assert Lists(v, s, n);
      TotalsSame(v, w, v[n].children);
    }
    if SortedKids(v, root) { assert SortedAt(w, r); }
  }

  lemma PlantWeighsTheSame(v: Arena, root: seq<Node>, s: Shape, r: Node, cell: Cell, p: seq<Name>)
    requires Forest(v, root, s) && r !in v && p != []
    ensures Weight(v[r := cell], Planted(s, root, r), p) == Weight(v, s, p)
  {
    assert At(v[r := cell], Planted(s, root, r), p) == At(v, s, p);
  }

  lemma {:induction false} UprootKeeps(v: Arena, r: Node, s: Shape)
    requires Rooted(v, r, s)
    ensures Sorted(v) ==> Sorted(v - {r}) && SortedKids(v - {r}, v[r].children)
    ensures AddsUp(v, r, {}, 0) ==> Consistent(v - {r})
    ensures SameBelow(v, s, v - {r}, Uprooted(s, r))
  {
    var w := v - {r};
    forall n | n in w
      ensures (Adds(v, n, {}, 0) ==> Adds(w, n, {}, 0)) && (SortedAt(v, n) ==> SortedAt(w, n))
    {
      assert Lists(v, s, n);
      TotalsSame(v, w, v[n].children);
    }
    if Sorted(v) {
      assert Lists(v, s, r) && SortedAt(v, r);
    }
    forall p | p != []
      ensures Weight(w, Uprooted(s, r), p) == Weight(v, s, p)
    {
      assert At(w, Uprooted(s, r), p) == At(v, s, p);
    }
  }

  // ---- Trees without negative weights ----

  ghost predicate NonNegative(v: Arena) {
    forall n | n in v :: v[n].own >= 0
  }

  lemma {:induction false} DepthBound(path: map<Node, seq<Name>>) returns (b: nat)
    ensures forall n | n in path :: |path[n]| <= b
    decreases |path|
  {
    if path == map[] {
      b := 0;
    } else {
      var n :| n in path;
      var rest := path - {n};
      var c := DepthBound(rest);
      b := if |path[n]| > c then |path[n]| else c;
      forall m | m in path
        ensures |path[m]| <= b
      {
        if m != n { assert m in rest && rest[m] == path[m]; }
      }
    }
  }

  lemma {:induction false} SumOfNonNegatives(v: Arena, kids: seq<Node>)
    requires forall c | c in kids :: c in v && v[c].total >= 0
    ensures TotalsOf(v, kids) >= 0 && forall c | c in kids :: v[c].total <= TotalsOf(v, kids)
    decreases |kids|
  {
    if kids != [] { SumOfNonNegatives(v, kids[..|kids| - 1]); }
  }

  /** Totals are not negative, and no child's total exceeds its parent's. */
  lemma {:induction false} TotalsFall(v: Arena, s: Shape, n: Node, b: nat)
    requires Links(v, s) && Consistent(v) && NonNegative(v) && n in v
    requires forall m | m in s.path :: |s.path[m]| <= b
    ensures v[n].total >= 0 && v[n].own <= v[n].total
    ensures forall c | c in v[n].children :: c in v && 0 <= v[c].total <= v[n].total
    decreases b - |s.path[n]|
  {
    assert Lists(v, s, n) && Adds(v, n, {}, 0);
    forall c | c in v[n].children
      ensures v[c].total >= 0
    {
      assert Listed(v, s, c);
      TotalsFall(v, s, c, b);
    }
    SumOfNonNegatives(v, v[n].children);
  }

  /** Links as they should be, and siblings in strict order of their names. */
  ghost predicate WellFormed(v: Arena, root: seq<Node>, s: Shape) {
    Forest(v, root, s) && Sorted(v) && SortedKids(v, root)
  }

  /**
   Loops pass their invariants on closed, as `forall w | w == v && Look(w) :: ...`: only a lemma that asserts
   `Look(v)` looks into them.
   */
  predicate Look(v: Arena) {
    true
  }

  class Tree {
    var root: seq<Node>
    ghost var nodes: set<Node>
    ghost var shape: Shape

    ghost function Arena(): Arena
      reads this, nodes
    {
      View(nodes)
    }

    ghost predicate Valid()
      reads this, nodes
    {
      WellFormed(Arena(), root, shape)
    }

    /** The links alone, in whatever order. */
    ghost predicate Linked()
      reads this, nodes
    {
      Forest(Arena(), root, shape)
    }

    ghost predicate Sums()
      reads this, nodes
    {
      Consistent(Arena())
    }

    ghost function WeightAt(p: seq<Name>): int
      reads this, nodes
    {
      Weight(Arena(), shape, p)
    }

    constructor ()
      ensures root == [] && nodes == {} && Valid() && Sums() && forall p :: WeightAt(p) == 0
    {
      root, nodes, shape := [], {}, Shape(map[], map[]);
      new;
      forall p
        ensures WeightAt(p) == 0
      {
        assert At(Arena(), shape, p) == map[];
      }
    }
  }

  /** What `w` is with a temporary top: the same trees below one node. */
  lemma {:induction false} OpensLinks(v: Arena, root: seq<Node>, s: Shape, r: Node, w: Arena, u: Shape)
    requires Forest(v, root, s) && r !in v
    requires w == v[r := Cell(null, root, 0, 0, [])] && u == Planted(s, root, r)
    ensures Rooted(w, r, u) && RealParents(w, u, {r}) && (Consistent(v) ==> AddsUp(w, r, {}, 0)) && SameBelow(v, s, w, u)
    ensures TotalsOf(w, root) == TotalsOf(v, root)
  {
    var cell := Cell(null, root, 0, 0, []);
    PlantIsRooted(v, root, s, r, cell);
    PlantKeeps(v, root, s, r, cell);
    TotalsSame(v, w, root);
    forall p | p != []
      ensures Weight(w, u, p) == Weight(v, s, p)
    {
      PlantWeighsTheSame(v, root, s, r, cell, p);
    }
  }

  /** And in order, if they were. */
  lemma {:induction false} Opens(v: Arena, root: seq<Node>, s: Shape, r: Node, w: Arena, u: Shape)
    requires WellFormed(v, root, s) && r !in v
    requires w == v[r := Cell(null, root, 0, 0, [])] && u == Planted(s, root, r)
    ensures Rooted(w, r, u) && Sorted(w) && RealParents(w, u, {r}) && (Consistent(v) ==> AddsUp(w, r, {}, 0)) && SameBelow(v, s, w, u)
    ensures TotalsOf(w, root) == TotalsOf(v, root)
  {
    OpensLinks(v, root, s, r, w, u);
    PlantKeeps(v, root, s, r, Cell(null, root, 0, 0, []));
  }

  /** A temporary node whose children are the roots. */
  method Plant(t: Tree) returns (r: Node, ghost nodes: set<Node>, ghost s: Shape)
    ensures fresh(r) && nodes == t.nodes + {r} && r !in t.nodes && s == Planted(t.shape, t.root, r)
    ensures View(nodes) == t.Arena()[r := Cell(null, t.root, 0, 0, [])]
  {
    r := new Node(null, t.root, []);
    nodes, s := t.nodes + {r}, Planted(t.shape, t.root, r);
    assert View(nodes) == t.Arena()[r := Cell(null, t.root, 0, 0, [])];
  }

  /** Puts a temporary node above the roots. */
  method Open(t: Tree) returns (r: Node, ghost nodes: set<Node>, ghost s: Shape)
    requires t.Valid()
    ensures fresh(r) && nodes == t.nodes + {r} && r in nodes
    ensures Rooted(View(nodes), r, s) && Sorted(View(nodes)) && RealParents(View(nodes), s, {r})
    ensures t.Sums() ==> AddsUp(View(nodes), r, {}, 0)
    ensures SameBelow(t.Arena(), t.shape, View(nodes), s)
    ensures TotalsOf(View(nodes), r.children) == TotalsOf(t.Arena(), t.root)
  {
    r, nodes, s := Plant(t);
    Opens(t.Arena(), t.root, t.shape, r, View(nodes), s);
  }

  /** What `w` is without its temporary top: the same tree. */
  lemma {:induction false} Closes(v: Arena, r: Node, s: Shape, w: Arena, root: seq<Node>, u: Shape)
    requires Rooted(v, r, s) && Sorted(v) && RealParents(v, s, {r})
    requires w == v - {r} && root == v[r].children && u == Uprooted(s, r)
    ensures WellFormed(w, root, u) && (AddsUp(v, r, {}, 0) ==> Consistent(w)) && SameBelow(v, s, w, u)
    ensures TotalsOf(w, root) == TotalsOf(v, root)
  {
    UprootIsForest(v, r, s);
    UprootKeeps(v, r, s);
    TotalsSame(v, w, root);
  }

  /** Takes the children of the temporary node as the new roots. */
  method Close(t: Tree, r: Node, ghost nodes: set<Node>, ghost s: Shape)
    requires r in nodes && Rooted(View(nodes), r, s) && Sorted(View(nodes)) && RealParents(View(nodes), s, {r})
    modifies t
    ensures t.nodes == nodes - {r} && t.root == r.children && t.Valid()
    ensures View(nodes) == old(View(nodes))
    ensures AddsUp(View(nodes), r, {}, 0) ==> t.Sums()
    ensures SameBelow(View(nodes), s, t.Arena(), t.shape) && TotalsOf(t.Arena(), t.root) == TotalsOf(View(nodes), r.children)
  {
    Closes(View(nodes), r, s, View(nodes) - {r}, r.children, Uprooted(s, r));
    Uproot(t, r, nodes, Uprooted(s, r));
  }

  method Uproot(t: Tree, r: Node, ghost nodes: set<Node>, ghost s: Shape)
    requires r in nodes
    modifies t
    ensures t.nodes == nodes - {r} && t.root == r.children && t.shape == s
    ensures t.Arena() == View(nodes) - {r} && View(nodes) == old(View(nodes))
  {
    t.root := r.children;
    t.nodes, t.shape := nodes - {r}, s;
    assert t.Arena() == View(nodes) - {r};
  }
}
