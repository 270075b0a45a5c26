/** What one step of `UnmarshalTree` does to the tree, for any bytes. */
module TreeDecode {
  import opened Names
  import opened TreeModel
  import opened TreeInsert

  // ---- Paths name nodes ----

  lemma {:induction false} SamePathSameNode(v: Arena, r: Node, s: Shape, m: Node, n: Node)
    requires Rooted(v, r, s) && Sorted(v) && m in v && n in v && s.path[m] == s.path[n]
    ensures m == n
    decreases |s.path[m]|
  {
    if m != r { assert Listed(v, s, m); }
    if n != r { assert Listed(v, s, n); }
    if m != r && n != r {
      var p, q := s.par[m], s.par[n];
      assert s.path[p] == s.path[m][..|s.path[m]| - 1] && s.path[q] == s.path[n][..|s.path[n]| - 1];
      SamePathSameNode(v, r, s, p, q);
      assert v[m].name == s.path[m][|s.path[m]| - 1] && v[n].name == s.path[n][|s.path[n]| - 1];
      assert SortedAt(v, p);
      SameNameSameChild(v, v[p].children, m, n);
    }
  }

  lemma SameNameSameChild(v: Arena, kids: seq<Node>, m: Node, n: Node)
    requires SortedKids(v, kids) && m in kids && n in kids && m in v && n in v && v[m].name == v[n].name
    ensures m == n
  {
    var i :| 0 <= i < |kids| && kids[i] == m;
    var j :| 0 <= j < |kids| && kids[j] == n;
    if i < j { LessIsStrict(v[m].name, v[n].name); }
    if j < i { LessIsStrict(v[n].name, v[m].name); }
  }

  /** `m` is strictly below `c`. */
  ghost predicate Under(s: Shape, c: Node, m: Node) {
    c in s.path && m in s.path && s.path[c] < s.path[m]
  }

  /** Below `c` means: a child of `c`, or below it with the parent. */
  lemma UnderParent(v: Arena, r: Node, s: Shape, c: Node, m: Node)
    requires Rooted(v, r, s) && Sorted(v) && c in v && m in s.par
    ensures Under(s, c, m) <==> s.par[m] == c || Under(s, c, s.par[m])
  {
    assert Listed(v, s, m);
    var p := s.par[m];
    if Under(s, c, m) && s.path[c] == s.path[p] { SamePathSameNode(v, r, s, c, p); }
    if s.path[c] <= s.path[m] && |s.path[c]| < |s.path[m]| {
      assert s.path[m][..|s.path[c]|] == s.path[c];
      assert s.path[p][..|s.path[c]|] == s.path[c];
    }
  }

  // ---- A node without what was below it ----

  ghost function Emptied(v: Arena, s: Shape, c: Node, own: int): Arena {
    map m | m in v && !Under(s, c, m) :: if m == c then v[m].(children := [], own := own) else v[m]
  }

  ghost function EmptiedShape(s: Shape, c: Node): Shape {
    Shape(map m | m in s.par && !Under(s, c, m) :: s.par[m], map m | m in s.path && !Under(s, c, m) :: s.path[m])
  }

  lemma {:induction false} EmptiedAt(v: Arena, r: Node, s: Shape, c: Node, own: int, m: Node)
    requires Rooted(v, r, s) && Sorted(v) && RealParents(v, s, {}) && c in v && m in v && !Under(s, c, m)
    ensures var w, t := Emptied(v, s, c, own), EmptiedShape(s, c);
      Lists(w, t, m) && SortedAt(w, m) && (m in s.par ==> Listed(w, t, m) && w[m].parent == t.par[m])
  {
    var w, t := Emptied(v, s, c, own), EmptiedShape(s, c);
    assert Lists(v, s, m) && SortedAt(v, m);
    if m in s.par {
      assert Listed(v, s, m);
      UnderParent(v, r, s, c, m);
    }
    forall d | d in v[m].children && m != c
      ensures !Under(s, c, d)
    {
      UnderParent(v, r, s, c, d);
    }
  }

  lemma {:induction false} EmptiedIsRooted(v: Arena, r: Node, s: Shape, c: Node, own: int)
    requires Rooted(v, r, s) && Sorted(v) && RealParents(v, s, {}) && c in s.par
    ensures var w, t := Emptied(v, s, c, own), EmptiedShape(s, c);
      Rooted(w, r, t) && Sorted(w) && RealParents(w, t, {})
  {
    var w, t := Emptied(v, s, c, own), EmptiedShape(s, c);
    assert Listed(v, s, c);
    assert t.par.Keys == w.Keys - {r} && t.path.Keys == w.Keys;
    forall m | m in w
      ensures Lists(w, t, m) && SortedAt(w, m) && (m in t.par ==> Listed(w, t, m) && w[m].parent == t.par[m])
    {
      EmptiedAt(v, r, s, c, own, m);
    }
  }

  // ---- What each node is off by ----

  /** A node's total is its own weight, its children's totals and `off`; and `late` is `x` short of it. */
  ghost predicate OffAt(v: Arena, n: Node, off: map<Node, int>, late: set<Node>, x: int) {
    && n in v && n in off
    && v[n].total == v[n].own + TotalsOf(v, v[n].children) + off[n] - if n in late then x else 0
  }

  ghost predicate Off(v: Arena, r: Node, off: map<Node, int>, late: set<Node>, x: int) {
    forall n {:trigger OffAt(v, n, off, late, x)} | n in v && n != r :: OffAt(v, n, off, late, x)
  }

  lemma {:induction false} GrownIsOff(v: Arena, r: Node, s: Shape, w: Arena, t: Shape, n: Node, c: Node, name: Name, off: map<Node, int>)
    requires Rooted(v, r, s) && Off(v, r, off, {}, 0) && Inserted(v, s, w, t, n, c, name)
    ensures Off(w, r, if c in v then off else off[c := 0], {}, 0)
  {
    if c !in v {
      var off2 := off[c := 0];
      var i: nat :| i <= |v[n].children| && w == Grown(v, n, v[n].children[..i] + [c] + v[n].children[i..], c, name);
      forall m | m in w && m != r
        ensures OffAt(w, m, off2, {}, 0)
      {
        if m != c {
          assert OffAt(v, m, off, {}, 0) && Lists(v, s, m);
          TotalsSame(v, w, v[m].children);
          if m == n { GrownTotals(v, w, v[n].children, i, c); }
        }
      }
    }
  }

  lemma {:induction false} EmptiedIsOff(v: Arena, r: Node, s: Shape, c: Node, own: int, off: map<Node, int>)
    requires Rooted(v, r, s) && Sorted(v) && RealParents(v, s, {}) && c in s.par && c in v && Off(v, r, off, {}, 0)
    ensures Off(Emptied(v, s, c, own), r, off[c := v[c].total], {c}, own)
  {
    var w := Emptied(v, s, c, own);
    EmptiedIsRooted(v, r, s, c, own);
    forall m | m in w && m != r
      ensures OffAt(w, m, off[c := v[c].total], {c}, own)
    {
      assert OffAt(v, m, off, {}, 0);
      EmptiedAt(v, r, s, c, own, m);
      if m != c { TotalsSame(v, w, v[m].children); }
    }
  }

  /** One node on the way up is settled, and its parent is late. */
  lemma {:induction false} ClimbIsOff(v: Arena, r: Node, s: Shape, n: Node, off: map<Node, int>, x: int)
    requires Rooted(v, r, s) && n in s.par && Off(v, r, off, {n}, x)
    ensures var w := v[n := v[n].(total := v[n].total + x)]; Off(w, r, off, {s.par[n]}, x)
  {
    assert Listed(v, s, n);
    var w := v[n := v[n].(total := v[n].total + x)];
    forall m | m in w && m != r
      ensures OffAt(w, m, off, {s.par[n]}, x)
    {
      assert OffAt(v, m, off, {n}, x) && Lists(v, s, m);
      TotalsChange(v, n, w[n], v[m].children);
    }
  }

  lemma {:induction false} TopIsNeverLate(v: Arena, r: Node, off: map<Node, int>, x: int)
    requires Off(v, r, off, {r}, x)
    ensures Off(v, r, off, {}, 0)
  {
    forall m | m in v && m != r
      ensures OffAt(v, m, off, {}, 0)
    {
      assert OffAt(v, m, off, {r}, x);
    }
  }

  // ---- The way up ----

  /** `n` or a node above it, below the top. */
  ghost predicate OnTheWay(r: Node, s: Shape, c: Node, m: Node) {
    m != r && m in s.path && c in s.path && s.path[m] <= s.path[c]
  }

  /** The totals on the way from `c` up, but not those from `n` on. */
  ghost function Climbed(v: Arena, r: Node, s: Shape, c: Node, n: Node, x: int): Arena {
    map m | m in v :: if OnTheWay(r, s, c, m) && !OnTheWay(r, s, n, m) then v[m].(total := v[m].total + x) else v[m]
  }

  lemma {:induction false} ClimbOn(v: Arena, r: Node, s: Shape, c: Node, n: Node, x: int)
    requires Rooted(v, r, s) && Sorted(v) && c in v && n in s.par && OnTheWay(r, s, c, n)
    ensures var w := Climbed(v, r, s, c, n, x);
      n in w && Climbed(v, r, s, c, s.par[n], x) == w[n := w[n].(total := w[n].total + x)]
    ensures s.par[n] == r || OnTheWay(r, s, c, s.par[n])
  {
    assert Listed(v, s, n);
    var q := s.par[n];
    forall m | m in v
      ensures OnTheWay(r, s, n, m) <==> OnTheWay(r, s, q, m) || m == n
    {
      if m != r && s.path[m] <= s.path[n] && |s.path[m]| == |s.path[n]| {
        assert s.path[n] == s.path[n][..|s.path[m]|] == s.path[m];
        SamePathSameNode(v, r, s, m, n);
      }
      PrefixOfLonger(s.path[m], s.path[q], v[n].name);
    }
    PrefixOfLonger(s.path[q], s.path[q], v[n].name);
    assert s.path[q] <= s.path[c];
  }

  lemma PrefixOfLonger<T>(a: seq<T>, b: seq<T>, x: T)
    ensures a <= b + [x] <==> a <= b || a == b + [x]
  {
    if a <= b + [x] && |a| <= |b| { assert b == (b + [x])[..|b|] && a == b[..|a|]; }
    if a <= b + [x] && |a| == |b| + 1 { assert a == b + [x]; }
    if a <= b { assert a == (b + [x])[..|a|]; }
  }

  lemma {:induction false} TotalsAreFree(v: Arena, r: Node, s: Shape, w: Arena)
    requires Rooted(v, r, s) && Sorted(v) && RealParents(v, s, {})
    requires w.Keys == v.Keys && forall m | m in v :: w[m] == v[m].(total := w[m].total)
    ensures Rooted(w, r, s) && Sorted(w) && RealParents(w, s, {})
  {
    forall m | m in s.par
      ensures Listed(w, s, m)
    {
      assert Listed(v, s, m);
    }
    forall m | m in w
      ensures Lists(w, s, m) && SortedAt(w, m)
    {
      assert Lists(v, s, m) && SortedAt(v, m);
    }
  }
}
