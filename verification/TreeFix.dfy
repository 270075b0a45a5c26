/** `FormatNodeNames` and `Fix`: siblings that share a name after renaming are merged, level by level. */
module TreeFix {
  import opened Names
  import opened Sums
  import opened TreeModel
  import opened TreeInsert

  // ---- Reordering children ----

  ghost function Relisted(v: Arena, q: Node, kids: seq<Node>): Arena
    requires q in v
  {
    v[q := v[q].(children := kids)]
  }

  ghost predicate SameNodes(a: seq<Node>, b: seq<Node>) {
    Distinct(a) && Distinct(b) && (forall x | x in a :: x in b) && (forall x | x in b :: x in a)
  }

  ghost function ListTotals(v: Arena, kids: seq<Node>): map<Node, int> {
    map c | c in kids && c in v :: v[c].total
  }

  /** Without repeats, the totals of a list are those of its set. */
  lemma {:induction false} TotalsOfSet(v: Arena, kids: seq<Node>)
    requires Distinct(kids) && forall c | c in kids :: c in v
    ensures TotalsOf(v, kids) == Sum<Node>(ListTotals(v, kids))
    decreases |kids|
  {
    if kids == [] {
      assert ListTotals(v, kids) == map[];
    } else {
      var front, last := kids[..|kids| - 1], kids[|kids| - 1];
      TotalsOfSet(v, front);
      LastApart(kids);
      assert ListTotals(v, front) == ListTotals(v, kids) - {last};
      SumWithout<Node>(ListTotals(v, kids), last);
    }
  }

  lemma LastApart(kids: seq<Node>)
    requires kids != [] && Distinct(kids)
    ensures var front, last := kids[..|kids| - 1], kids[|kids| - 1];
      Distinct(front) && last !in front && (forall c | c in kids :: c in front || c == last) && (forall c | c in front :: c in kids)
  {
    var front, last := kids[..|kids| - 1], kids[|kids| - 1];
    assert kids == front + [last];
  }

  lemma {:induction false} TotalsOfSame(v: Arena, a: seq<Node>, b: seq<Node>)
    requires SameNodes(a, b) && forall c | c in a :: c in v
    ensures TotalsOf(v, a) == TotalsOf(v, b)
  {
    TotalsOfSet(v, a);
    TotalsOfSet(v, b);
    assert ListTotals(v, a) == ListTotals(v, b);
  }

  lemma {:induction false} RelistKeeps(v: Arena, r: Node, s: Shape, q: Node, kids: seq<Node>)
    requires Rooted(v, r, s) && RealParents(v, s, {}) && q in v && SameNodes(v[q].children, kids)
    ensures var w := Relisted(v, q, kids); Rooted(w, r, s) && RealParents(w, s, {}) && SameBelow(v, s, w, s)
  {
    var w := Relisted(v, q, kids);
    forall n | n in s.par
      ensures Listed(w, s, n)
    {
      assert Listed(v, s, n);
    }
    forall n | n in w
      ensures Lists(w, s, n)
    {
      assert Lists(v, s, n);
    }
    forall p | p != []
      ensures Weight(w, s, p) == Weight(v, s, p)
    {
      WeightChange(v, s, q, w[q], p);
    }
  }

  /** What the children of each node come to, and the children of the top. */
  ghost predicate SameSums(v: Arena, w: Arena, r: Node) {
    && r in v && r in w && TotalsOf(w, w[r].children) == TotalsOf(v, v[r].children)
    && (AddsUp(v, r, {}, 0) ==> AddsUp(w, r, {}, 0))
  }

  lemma {:induction false} RelistSums(v: Arena, r: Node, s: Shape, q: Node, kids: seq<Node>)
    requires Rooted(v, r, s) && q in v && SameNodes(v[q].children, kids)
    ensures SameSums(v, Relisted(v, q, kids), r)
  {
    var w := Relisted(v, q, kids);
    forall n | n in v
      ensures TotalsOf(w, w[n].children) == TotalsOf(v, v[n].children)
      ensures Adds(v, n, {}, 0) ==> Adds(w, n, {}, 0)
    {
      assert Lists(v, s, n);
      TotalsSame(v, w, v[n].children);
      if n == q {
        assert forall c | c in kids :: c in v[q].children;
        TotalsSame(v, w, kids);
        TotalsOfSame(v, v[q].children, kids);
      }
    }
  }

  // ---- Merging a sibling into another ----

  /** The children of `c` go to `p`, with its weight. */
  ghost function Moved(v: Arena, p: Node, c: Node): Arena
    requires p in v && c in v
  {
    map n | n in v ::
      if n == p then v[p].(children := v[p].children + v[c].children, own := v[p].own + v[c].own, total := v[p].total + v[c].total)
      else if n in v[c].children then v[n].(parent := p)
      else v[n]
  }

  ghost function Absorbed(v: Arena, q: Node, kids: seq<Node>, p: Node, c: Node): Arena
    requires p in v && c in v && q in v
  {
    Relisted(Moved(v, p, c), q, kids) - {c}
  }

  ghost function AbsorbedShape(s: Shape, p: Node, c: Node): Shape {
    Shape(map n | n in s.par && n != c :: if s.par[n] == c then p else s.par[n], s.path - {c})
  }

  /** `p` and `c` are children of `q` with one name, and `kids` are the children without `c`. */
  ghost predicate Twins(v: Arena, r: Node, s: Shape, q: Node, kids: seq<Node>, p: Node, c: Node) {
    && Rooted(v, r, s) && RealParents(v, s, {})
    && q in v && p in v[q].children && c in v[q].children && p != c && p in v && c in v && v[p].name == v[c].name
    && Distinct(kids) && (forall x | x in kids :: x in v[q].children && x != c) && (forall x | x in v[q].children :: x == c || x in kids)
  }

  lemma {:induction false} TwinFacts(v: Arena, r: Node, s: Shape, q: Node, kids: seq<Node>, p: Node, c: Node)
    requires Twins(v, r, s, q, kids, p, c)
    ensures p in s.par && c in s.par && s.par[p] == q && s.par[c] == q && p in s.path && c in s.path && s.path[p] == s.path[c] && s.path[p] != []
    ensures q != p && q != c && r != c && r != p
    ensures q !in v[c].children && p !in v[c].children && c !in v[c].children && c !in v[p].children
    ensures forall x | x in v[c].children :: x in v && x in s.par && s.par[x] == c && x !in v[p].children
  {
    assert Lists(v, s, q) && Lists(v, s, c) && Lists(v, s, p) && Listed(v, s, p) && Listed(v, s, c);
    if q in s.par { assert Listed(v, s, q); }
  }

  lemma {:induction false} AbsorbListed(v: Arena, r: Node, s: Shape, q: Node, kids: seq<Node>, p: Node, c: Node, n: Node)
    requires Twins(v, r, s, q, kids, p, c) && n in s.par && n != c
    ensures Listed(Absorbed(v, q, kids, p, c), AbsorbedShape(s, p, c), n)
  {
    TwinFacts(v, r, s, q, kids, p, c);
    assert Listed(v, s, n);
  }

  lemma {:induction false} AbsorbLists(v: Arena, r: Node, s: Shape, q: Node, kids: seq<Node>, p: Node, c: Node, n: Node)
    requires Twins(v, r, s, q, kids, p, c) && n in v && n != c
    ensures Lists(Absorbed(v, q, kids, p, c), AbsorbedShape(s, p, c), n)
  {
    TwinFacts(v, r, s, q, kids, p, c);
    assert Lists(v, s, n) && Lists(v, s, c) && Lists(v, s, q);
    if n == p { DistinctConcat(v[p].children, v[c].children); }
  }

  lemma DistinctConcat(a: seq<Node>, b: seq<Node>)
    requires Distinct(a) && Distinct(b) && forall x | x in b :: x !in a
    ensures Distinct(a + b)
  {
    forall i, j | 0 <= i < j < |a + b|
      ensures (a + b)[i] != (a + b)[j]
    {
      if i < |a| <= j { assert (a + b)[j] == b[j - |a|] && b[j - |a|] in b; }
    }
  }

  lemma {:induction false} AbsorbRooted(v: Arena, r: Node, s: Shape, q: Node, kids: seq<Node>, p: Node, c: Node)
    requires Twins(v, r, s, q, kids, p, c)
    ensures Rooted(Absorbed(v, q, kids, p, c), r, AbsorbedShape(s, p, c))
    ensures RealParents(Absorbed(v, q, kids, p, c), AbsorbedShape(s, p, c), {})
  {
    var w, t := Absorbed(v, q, kids, p, c), AbsorbedShape(s, p, c);
    TwinFacts(v, r, s, q, kids, p, c);
    assert t.par.Keys == w.Keys - {r} && t.path.Keys == w.Keys;
    forall n | n in t.par
      ensures Listed(w, t, n) && w[n].parent == t.par[n]
    {
      AbsorbListed(v, r, s, q, kids, p, c, n);
      assert Listed(v, s, n);
    }
    forall n | n in w
      ensures Lists(w, t, n)
    {
      AbsorbLists(v, r, s, q, kids, p, c, n);
    }
  }

  lemma {:induction false} AbsorbWeighs(v: Arena, r: Node, s: Shape, q: Node, kids: seq<Node>, p: Node, c: Node)
    requires Twins(v, r, s, q, kids, p, c)
    ensures SameBelow(v, s, Absorbed(v, q, kids, p, c), AbsorbedShape(s, p, c))
  {
    var w, t := Absorbed(v, q, kids, p, c), AbsorbedShape(s, p, c);
    TwinFacts(v, r, s, q, kids, p, c);
    forall x | x != []
      ensures Weight(w, t, x) == Weight(v, s, x)
    {
      AbsorbWeighsAt(v, s, w, t, q, kids, p, c, x);
    }
  }

  lemma {:induction false} AbsorbWeighsAt(v: Arena, s: Shape, w: Arena, t: Shape, q: Node, kids: seq<Node>, p: Node, c: Node, x: seq<Name>)
    requires p in v && c in v && q in v && p != c && q != p && q != c && p in s.path && c in s.path && s.path[p] == s.path[c]
    requires w == Absorbed(v, q, kids, p, c) && t == AbsorbedShape(s, p, c)
    ensures Weight(w, t, x) == Weight(v, s, x)
  {
    if x == s.path[p] {
      AbsorbFolds(v, s, w, t, q, kids, p, c);
      SumFold<Node>(At(v, s, x), At(w, t, x), p, c);
    } else {
      assert At(w, t, x) == At(v, s, x);
    }
  }

  /** At the path of the twins, one has the weight of both. */
  lemma {:induction false} AbsorbFolds(v: Arena, s: Shape, w: Arena, t: Shape, q: Node, kids: seq<Node>, p: Node, c: Node)
    requires p in v && c in v && q in v && p != c && q != p && q != c && p in s.path && c in s.path && s.path[p] == s.path[c]
    requires w == Absorbed(v, q, kids, p, c) && t == AbsorbedShape(s, p, c)
    ensures var f, g := At(v, s, s.path[p]), At(w, t, s.path[p]);
      && p in f && c in f && g.Keys == f.Keys - {c} && g[p] == f[p] + f[c]
      && forall m | m in g && m != p :: g[m] == f[m]
  {
  }

  /** `q` keeps its sum: what `c` had, `p` has now. */
  lemma {:induction false} AbsorbTotalsAbove(v: Arena, w: Arena, kids: seq<Node>, fewer: seq<Node>, p: Node, c: Node)
    requires Distinct(kids) && Distinct(fewer) && p in kids && c in kids && p != c
    requires (forall x | x in kids :: x in v && (x == c || x in fewer)) && (forall x | x in fewer :: x in w && x in kids && x != c)
    requires forall x | x in fewer :: w[x].total == v[x].total + if x == p then v[c].total else 0
    ensures TotalsOf(w, fewer) == TotalsOf(v, kids)
  {
    TotalsOfSet(v, kids);
    TotalsOfSet(w, fewer);
    SumFold<Node>(ListTotals(v, kids), ListTotals(w, fewer), p, c);
  }

  lemma {:induction false} AbsorbTotals(v: Arena, r: Node, s: Shape, q: Node, kids: seq<Node>, p: Node, c: Node, n: Node)
    requires Twins(v, r, s, q, kids, p, c) && n in v && n != c
    ensures var w := Absorbed(v, q, kids, p, c);
      TotalsOf(w, w[n].children) == TotalsOf(v, v[n].children) + if n == p then TotalsOf(v, v[c].children) else 0
  {
    if n == q {
      AbsorbTotalsAt(v, r, s, q, kids, p, c);
    } else {
      AbsorbTotalsBelow(v, r, s, q, kids, p, c, n);
    }
  }

  lemma {:induction false} AbsorbTotalsAt(v: Arena, r: Node, s: Shape, q: Node, kids: seq<Node>, p: Node, c: Node)
    requires Twins(v, r, s, q, kids, p, c)
    ensures var w := Absorbed(v, q, kids, p, c); q in v && q in w && q != p && q != c && TotalsOf(w, w[q].children) == TotalsOf(v, v[q].children)
  {
    TwinFacts(v, r, s, q, kids, p, c);
    assert Lists(v, s, q);
    AbsorbTotalsAbove(v, Absorbed(v, q, kids, p, c), v[q].children, kids, p, c);
  }

  lemma {:induction false} AbsorbTotalsBelow(v: Arena, r: Node, s: Shape, q: Node, kids: seq<Node>, p: Node, c: Node, n: Node)
    requires Twins(v, r, s, q, kids, p, c) && n in v && n != c && n != q
    ensures var w := Absorbed(v, q, kids, p, c);
      TotalsOf(w, w[n].children) == TotalsOf(v, v[n].children) + if n == p then TotalsOf(v, v[c].children) else 0
  {
    var w := Absorbed(v, q, kids, p, c);
    TwinFacts(v, r, s, q, kids, p, c);
    assert Lists(v, s, n) && Lists(v, s, c);
    TotalsSame(v, w, v[n].children);
    if n == p {
      TotalsSame(v, w, v[c].children);
      TotalsConcat(w, v[p].children, v[c].children);
    }
  }

  lemma {:induction false} AbsorbSums(v: Arena, r: Node, s: Shape, q: Node, kids: seq<Node>, p: Node, c: Node)
    requires Twins(v, r, s, q, kids, p, c)
    ensures SameSums(v, Absorbed(v, q, kids, p, c), r)
  {
    var w := Absorbed(v, q, kids, p, c);
    TwinFacts(v, r, s, q, kids, p, c);
    forall n | n in w && AddsUp(v, r, {}, 0) && n != r
      ensures Adds(w, n, {}, 0)
    {
      assert Adds(v, n, {}, 0) && Adds(v, c, {}, 0);
      AbsorbTotals(v, r, s, q, kids, p, c, n);
    }
    AbsorbTotals(v, r, s, q, kids, p, c, r);
  }

  // ---- One level ----

  /** In the order of names, repeats allowed. */
  ghost predicate InOrder(v: Arena, kids: seq<Node>) {
    && (forall c | c in kids :: c in v)
    && forall i, j | 0 <= i < j < |kids| :: !Less(v[kids[j]].name, v[kids[i]].name)
  }

  /** What fixing the children of `q` leaves alone. */
  ghost predicate Apart(v: Arena, s: Shape, w: Arena, t: Shape, q: Node) {
    && q in v && q in w && w.Keys <= v.Keys && t.par.Keys <= s.par.Keys
    && (forall n | n in w :: w[n].name == v[n].name)
    && (forall n | n in w && n != q && n !in v[q].children :: w[n].children == v[n].children)
    && (forall n | n in v && n !in v[q].children :: n in w)
    && (forall n | n in w[q].children :: n in v[q].children)
    && (forall n {:trigger t.par[n]} | n in t.par :: t.par[n] == s.par[n] || (s.par[n] in v[q].children && t.par[n] in v[q].children))
  }

  /**
   Between two siblings: the children of `q` are the kept ones, in strict order, and those still to come. The
   tree weighs and adds up as it did.
   */
  ghost predicate Level(v0: Arena, s0: Shape, v: Arena, s: Shape, r: Node, q: Node, kept: seq<Node>, rest: seq<Node>) {
    && Rooted(v, r, s) && RealParents(v, s, {}) && Apart(v0, s0, v, s, q)
    && SameBelow(v0, s0, v, s) && SameSums(v0, v, r)
    && v[q].children == kept + rest && kept != [] && SortedKids(v, kept) && InOrder(v, kept + rest)
  }

  lemma {:induction false} LevelStarts(v0: Arena, s0: Shape, r: Node, q: Node, m: seq<Node>)
    requires Rooted(v0, r, s0) && RealParents(v0, s0, {}) && q in v0 && v0[q].children != []
    requires SameNodes(v0[q].children, m) && InOrder(v0, m)
    ensures m != [] && Level(v0, s0, Relisted(v0, q, m), s0, r, q, [m[0]], m[1..])
  {
    assert v0[q].children[0] in m;
    assert Lists(v0, s0, q);
    RelistKeeps(v0, r, s0, q, m);
    RelistSums(v0, r, s0, q, m);
    assert m == [m[0]] + m[1..];
  }

  lemma {:induction false} StrictlyLonger(v: Arena, kept: seq<Node>, c: Node)
    requires kept != [] && SortedKids(v, kept) && c in v && kept[|kept| - 1] in v && Less(v[kept[|kept| - 1]].name, v[c].name)
    ensures SortedKids(v, kept + [c])
  {
    var p := kept[|kept| - 1];
    forall i, j | 0 <= i < j < |kept + [c]|
      ensures (kept + [c])[i] in v && (kept + [c])[j] in v && Less(v[(kept + [c])[i]].name, v[(kept + [c])[j]].name)
    {
      if j == |kept| && i < |kept| - 1 { LessIsTransitive(v[kept[i]].name, v[p].name, v[c].name); }
    }
  }

  lemma {:induction false} LevelKeeps(v0: Arena, s0: Shape, v: Arena, s: Shape, r: Node, q: Node, kept: seq<Node>, rest: seq<Node>)
    requires Level(v0, s0, v, s, r, q, kept, rest) && rest != []
    requires kept[|kept| - 1] in v && rest[0] in v && v[kept[|kept| - 1]].name != v[rest[0]].name
    ensures Level(v0, s0, v, s, r, q, kept + [rest[0]], rest[1..])
  {
    var p, c := kept[|kept| - 1], rest[0];
    Regroup(kept, rest);
    NextInOrder(v, kept, rest);
    StrictlyLonger(v, kept, c);
  }

  lemma Regroup(kept: seq<Node>, rest: seq<Node>)
    requires rest != []
    ensures (kept + [rest[0]]) + rest[1..] == kept + rest
  {
  }

  lemma {:induction false} NextInOrder(v: Arena, kept: seq<Node>, rest: seq<Node>)
    requires kept != [] && rest != [] && InOrder(v, kept + rest)
    requires kept[|kept| - 1] in v && rest[0] in v && v[kept[|kept| - 1]].name != v[rest[0]].name
    ensures Less(v[kept[|kept| - 1]].name, v[rest[0]].name)
  {
    var p, c := kept[|kept| - 1], rest[0];
    assert (kept + rest)[|kept| - 1] == p && (kept + rest)[|kept|] == c;
    LessOrEqualOrGreater(v[p].name, v[c].name);
  }

  lemma {:induction false} TwinsOf(v: Arena, r: Node, s: Shape, q: Node, kept: seq<Node>, rest: seq<Node>)
    requires Rooted(v, r, s) && RealParents(v, s, {}) && q in v && v[q].children == kept + rest && kept != [] && rest != []
    requires kept[|kept| - 1] in v && rest[0] in v && v[kept[|kept| - 1]].name == v[rest[0]].name
    ensures Twins(v, r, s, q, kept + rest[1..], kept[|kept| - 1], rest[0])
  {
    var p, c := kept[|kept| - 1], rest[0];
    assert Lists(v, s, q);
    assert (kept + rest)[|kept| - 1] == p && (kept + rest)[|kept|] == c;
    RemoveAt(kept + rest, |kept|);
    assert (kept + rest)[..|kept|] + (kept + rest)[|kept| + 1..] == kept + rest[1..];
  }

  lemma RemoveAt(ns: seq<Node>, i: nat)
    requires i < |ns| && Distinct(ns)
    ensures var fewer := ns[..i] + ns[i + 1..];
      Distinct(fewer) && (forall x | x in fewer :: x in ns && x != ns[i]) && (forall x | x in ns :: x == ns[i] || x in fewer)
  {
    var fewer := ns[..i] + ns[i + 1..];
    assert forall k | 0 <= k < |fewer| :: fewer[k] == if k < i then ns[k] else ns[k + 1];
    forall x | x in ns
      ensures x == ns[i] || x in fewer
    {
      var k :| 0 <= k < |ns| && ns[k] == x;
      if k != i { assert fewer[if k < i then k else k - 1] == x; }
    }
  }

  lemma {:induction false} AbsorbApart(v0: Arena, s0: Shape, v: Arena, s: Shape, r: Node, q: Node, kids: seq<Node>, p: Node, c: Node)
    requires Apart(v0, s0, v, s, q) && Twins(v, r, s, q, kids, p, c)
    ensures Apart(v0, s0, Absorbed(v, q, kids, p, c), AbsorbedShape(s, p, c), q)
  {
    TwinFacts(v, r, s, q, kids, p, c);
    var w, t := Absorbed(v, q, kids, p, c), AbsorbedShape(s, p, c);
    forall n | n in t.par
      ensures t.par[n] == s0.par[n] || (s0.par[n] in v0[q].children && t.par[n] in v0[q].children)
    {
      assert s.par[n] == s0.par[n] || (s0.par[n] in v0[q].children && s.par[n] in v0[q].children);
    }
  }

  lemma {:induction false} LevelAbsorbs(v0: Arena, s0: Shape, v: Arena, s: Shape, r: Node, q: Node, kept: seq<Node>, rest: seq<Node>)
    requires Level(v0, s0, v, s, r, q, kept, rest) && rest != []
    requires kept[|kept| - 1] in v && rest[0] in v && v[kept[|kept| - 1]].name == v[rest[0]].name
    ensures var p, c := kept[|kept| - 1], rest[0];
      Level(v0, s0, Absorbed(v, q, kept + rest[1..], p, c), AbsorbedShape(s, p, c), r, q, kept, rest[1..])
  {
    var p, c, kids := kept[|kept| - 1], rest[0], kept + rest[1..];
    TwinsOf(v, r, s, q, kept, rest);
    TwinFacts(v, r, s, q, kids, p, c);
    AbsorbRooted(v, r, s, q, kids, p, c);
    AbsorbWeighs(v, r, s, q, kids, p, c);
    AbsorbSums(v, r, s, q, kids, p, c);
    AbsorbApart(v0, s0, v, s, r, q, kids, p, c);
    var w, t := Absorbed(v, q, kids, p, c), AbsorbedShape(s, p, c);
    SameOverall(v0, s0, v, s, w, t);
    OrderWithout(v, w, kept, rest);
  }

  lemma {:induction false} OrderWithout(v: Arena, w: Arena, kept: seq<Node>, rest: seq<Node>)
    requires rest != [] && SortedKids(v, kept) && InOrder(v, kept + rest)
    requires forall x | x in kept + rest[1..] :: x in w
    requires forall x | x in w :: x in v && w[x].name == v[x].name
    ensures SortedKids(w, kept) && InOrder(w, kept + rest[1..])
  {
    var a, b := kept + rest, kept + rest[1..];
    assert forall k | 0 <= k < |b| :: b[k] == if k < |kept| then a[k] else a[k + 1];
    assert forall k | 0 <= k < |kept| :: b[k] == kept[k];
    forall i, j | 0 <= i < j < |b|
      ensures !Less(w[b[j]].name, w[b[i]].name)
    {
      var k, l := if i < |kept| then i else i + 1, if j < |kept| then j else j + 1;
      assert b[i] in b && b[j] in b && a[k] == b[i] && a[l] == b[j];
      assert !Less(v[a[l]].name, v[a[k]].name);
    }
  }

  // ---- Levels done and levels to do ----

  ghost predicate Reached(fin: set<Node>, owners: seq<Node>, n: Node) {
    n in fin || n in owners
  }

  /** A walk from the top down: the nodes visited, and those that come next, just below the visited ones. */
  ghost predicate Visited(v: Arena, s: Shape, r: Node, fin: set<Node>, owners: seq<Node>) {
    && fin <= v.Keys && Distinct(owners) && (forall n | n in owners :: n in v && n !in fin)
    && Reached(fin, owners, r)
    && (forall n {:trigger Reached(fin, owners, n)} | n in s.par :: Reached(fin, owners, n) <==> s.par[n] in fin)
  }

  /** The nodes whose children are fixed, and those whose children come next. */
  ghost predicate Frontier(v: Arena, s: Shape, r: Node, fin: set<Node>, owners: seq<Node>) {
    Visited(v, s, r, fin, owners) && forall n {:trigger SortedAt(v, n)} | n in fin :: SortedAt(v, n)
  }

  ghost predicate StackOk(v: Arena, owners: seq<Node>, stack: seq<seq<Node>>) {
    |owners| == |stack| && forall i | 0 <= i < |owners| :: owners[i] in v && stack[i] == v[owners[i]].children
  }

  /** The nodes already reached are not below `q`, so fixing `q` leaves them alone. */
  lemma {:induction false} ReachedIsAside(v: Arena, s: Shape, r: Node, fin: set<Node>, owners: seq<Node>, q: Node, n: Node)
    requires Rooted(v, r, s) && Visited(v, s, r, fin, owners + [q]) && Reached(fin, owners, n)
    ensures q in v && n in v && n != q && n !in v[q].children
  {
    assert q in owners + [q];
    assert Lists(v, s, q);
    assert forall x | x in owners :: x in owners + [q];
    if n in owners { OwnersAreOthers(owners, q, n); }
    if n in s.par {
      assert Reached(fin, owners + [q], n) <==> s.par[n] in fin;
    }
  }

  lemma OwnersAreOthers(owners: seq<Node>, q: Node, n: Node)
    requires Distinct(owners + [q]) && n in owners
    ensures n != q
  {
    var i :| 0 <= i < |owners| && owners[i] == n;
    assert (owners + [q])[i] == n && (owners + [q])[|owners|] == q;
  }

  lemma {:induction false} MovedReach(v: Arena, s: Shape, w: Arena, t: Shape, r: Node, q: Node, fin: set<Node>, owners: seq<Node>, kept: seq<Node>, n: Node)
    requires Rooted(v, r, s) && Rooted(w, r, t) && Visited(v, s, r, fin, owners + [q]) && Apart(v, s, w, t, q)
    requires w[q].children == kept && n in t.par
    ensures Reached(fin + {q}, owners + kept, n) <==> t.par[n] in fin + {q}
  {
    assert q in owners + [q];
    assert Listed(w, t, n) && Listed(v, s, n) && Lists(w, t, q) && Lists(v, s, q);
    assert Reached(fin, owners + [q], n) <==> s.par[n] in fin;
    assert t.par[n] == s.par[n] || (s.par[n] in v[q].children && t.par[n] in v[q].children);
    forall x | x in v[q].children
      ensures x !in fin
    {
      assert Reached(fin, owners + [q], x) <==> s.par[x] in fin;
    }
  }

  lemma {:induction false} FrontierMoves(v: Arena, s: Shape, w: Arena, t: Shape, r: Node, q: Node, fin: set<Node>, owners: seq<Node>, kept: seq<Node>)
    requires Rooted(v, r, s) && Rooted(w, r, t) && Frontier(v, s, r, fin, owners + [q]) && Apart(v, s, w, t, q)
    requires w[q].children == kept && SortedKids(w, kept)
    ensures Frontier(w, t, r, fin + {q}, owners + kept)
  {
    assert Lists(w, t, q) && Lists(v, s, q) && q in owners + [q];
    forall n | Reached(fin, owners, n)
      ensures n in w && n !in v[q].children && n != q && w[n].children == v[n].children
    {
      ReachedIsAside(v, s, r, fin, owners, q, n);
    }
    forall n | n in t.par
      ensures Reached(fin + {q}, owners + kept, n) <==> t.par[n] in fin + {q}
    {
      MovedReach(v, s, w, t, r, q, fin, owners, kept, n);
    }
    forall n | n in fin + {q}
      ensures n in w && SortedAt(w, n)
    {
      if n != q {
        assert Reached(fin, owners, n) && SortedAt(v, n) && Lists(w, t, n);
      } else {
        assert SortedAt(w, q);
      }
    }
    OwnersGrow(v, s, r, fin, owners, q, kept);
    if r != q {
      assert Reached(fin, owners + [q], r);
      assert Reached(fin, owners, r);
    }
  }

  lemma {:induction false} OwnersGrow(v: Arena, s: Shape, r: Node, fin: set<Node>, owners: seq<Node>, q: Node, kept: seq<Node>)
    requires Rooted(v, r, s) && Visited(v, s, r, fin, owners + [q]) && Distinct(kept)
    requires q in v && forall n | n in kept :: n in v[q].children
    ensures Distinct(owners + kept) && (forall n | n in owners + kept :: n !in fin + {q})
    ensures forall n | n in owners :: n in owners + [q]
  {
    assert q in owners + [q] && Lists(v, s, q);
    assert Distinct(owners) by { assert owners == (owners + [q])[..|owners|]; }
    forall n | n in kept
      ensures n !in owners && n !in fin && n != q
    {
      if n in owners { ReachedIsAside(v, s, r, fin, owners, q, n); }
      assert Reached(fin, owners + [q], n) <==> s.par[n] in fin;
      if q in s.par { assert Listed(v, s, q) && Listed(v, s, n); }
    }
    forall n | n in owners
      ensures n != q && n !in fin
    {
      OwnersAreOthers(owners, q, n);
      assert n in owners + [q];
    }
    DistinctConcat(owners, kept);
  }

  /** When nothing is left to do, every level is fixed. */
  lemma {:induction false} AllFixed(v: Arena, s: Shape, r: Node, fin: set<Node>, n: Node)
    requires Rooted(v, r, s) && Visited(v, s, r, fin, []) && n in v
    ensures n in fin
    decreases |if n in s.path then s.path[n] else []|
  {
    if n != r {
      assert Listed(v, s, n);
      AllFixed(v, s, r, fin, s.par[n]);
      assert Reached(fin, [], n) <==> s.par[n] in fin;
    } else {
      assert Reached(fin, [], r);
    }
  }
}
