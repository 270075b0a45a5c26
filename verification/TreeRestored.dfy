/** `UnmarshalTree` on bytes that encode a tree: every step keeps what the nodes stand for. */
module TreeRestored {
  import opened Basics
  import opened Ints
  import opened Names
  import opened TreeModel
  import opened TreeDecode
  import opened TreeEncoding

  /** What each node stands for: its tree, the children read so far, and the weight it took over. */
  datatype Deco = Deco(xs: map<Node, Enc>, past: map<Node, seq<Enc>>, extra: map<Node, int>)

  /** The tree being built, with the parents and the trees still to come. */
  datatype Build = Build(v: Arena, s: Shape, P: seq<Node>, T: seq<Enc>)

  ghost predicate ChildOk(b: Build, d: Deco, n: Node, c: Node) {
    && n in d.past && c in b.v && c in d.xs && c in d.extra
    && Has(d.past[n], b.v[c].name)
    && d.xs[c] == LastOf(d.past[n], b.v[c].name) && d.extra[c] == Before(d.past[n], b.v[c].name)
  }

  ghost predicate NamedIn(v: Arena, kids: seq<Node>, name: Name) {
    exists c :: c in kids && c in v && v[c].name == name
  }

  ghost predicate NamedChild(v: Arena, n: Node, name: Name)
    requires n in v
  {
    NamedIn(v, v[n].children, name)
  }

  /** The children of `n` are the last trees of each name read so far. */
  ghost predicate ChildrenOk(b: Build, d: Deco, n: Node) {
    && n in b.v && n in d.past
    && (forall c | c in b.v[n].children :: ChildOk(b, d, n, c))
    && (forall i | 0 <= i < |d.past[n]| :: NamedChild(b.v, n, d.past[n][i].name))
  }

  /** The node has its name and value; its total and what is due come to its tree and what it took over. */
  ghost predicate NodeOk(b: Build, d: Deco, r: Node, n: Node) {
    && n in b.v && n in d.xs && n in d.past && n in d.extra && |b.P| == |b.T|
    && d.xs[n].kids == d.past[n] + ToCome(b.P, b.T, n)
    && ChildrenOk(b, d, n)
    && (n != r ==>
          && b.v[n].name == d.xs[n].name && b.v[n].own == WrapI64(d.xs[n].value)
          && b.v[n].total + Due(b.s, b.P, b.T, n) == d.extra[n] + WeightOf(d.xs[n]))
  }

  /** The stack is a way down: each parent is at or below the one before. */
  ghost predicate Chain(b: Build) {
    && |b.P| == |b.T| && (forall p | p in b.P :: p in b.v && p in b.s.path)
    && forall i, j | 0 <= i < j < |b.P| :: b.s.path[b.P[i]] <= b.s.path[b.P[j]]
  }

  ghost predicate Restoring(b: Build, d: Deco, r: Node) {
    forall n {:trigger NodeOk(b, d, r, n)} | n in b.v :: NodeOk(b, d, r, n)
  }

  // ---- One step ----

  /**
   The step that reads a node below `n`, the last parent: `c` is the node of that name, new or there before with
   the total `had`. It has only its value now; what was below it is gone; it and all above gained the value.
   */
  ghost predicate Stepped(v: Arena, s: Shape, w: Arena, t: Shape, r: Node, n: Node, c: Node, name: Name, val: int, had: int) {
    && c in w && c in t.path && n in s.path && c != r && c != n
    && JustRead(w, t, s.path[n], c, name, val, had) && TakesPlace(v, s, n, c, name, had) && (c in s.path ==> s.path[c] == t.path[c])
    && OthersKept(v, s, w, t, r, n, c, val)
    && KidsWith(v, w, n, c) && OnlyBelowGone(v, s, w, t.path[c])
  }

  /** The node that was read, below the path `above`. */
  ghost predicate JustRead(w: Arena, t: Shape, above: seq<Name>, c: Node, name: Name, val: int, had: int)
    requires c in w && c in t.path
  {
    && w[c].children == [] && w[c].own == val && w[c].total == had + val && w[c].name == name
    && t.path[c] == above + [name]
  }

  /** It was there already, or no sibling had its name. */
  ghost predicate TakesPlace(v: Arena, s: Shape, n: Node, c: Node, name: Name, had: int) {
    && n in v
    && (c in v ==> c in s.path && c in v[n].children && v[c].name == name && v[c].total == had)
    && (c !in v ==> had == 0 && forall m | m in v[n].children :: m in v && v[m].name != name)
  }

  ghost predicate KidsWith(v: Arena, w: Arena, n: Node, c: Node) {
    && n in v && n in w && c in w[n].children
    && (forall m | m in w[n].children :: m in v[n].children || m == c)
    && (forall m | m in v[n].children :: m in w[n].children)
  }

  ghost predicate OnlyBelowGone(v: Arena, s: Shape, w: Arena, p: seq<Name>) {
    forall m | m in v && m in s.path && !(p <= s.path[m]) :: m in w
  }

  ghost predicate OthersKept(v: Arena, s: Shape, w: Arena, t: Shape, r: Node, n: Node, c: Node, val: int) {
    forall m {:trigger KeptNode(v, s, w, t, r, n, c, val, m)} | m in w && m != c :: KeptNode(v, s, w, t, r, n, c, val, m)
  }

  ghost predicate KeptNode(v: Arena, s: Shape, w: Arena, t: Shape, r: Node, n: Node, c: Node, val: int, m: Node) {
    && m in v && m in s.path && m in t.path && m in w && c in t.path && t.path[m] == s.path[m]
    && w[m].name == v[m].name && w[m].own == v[m].own
    && w[m].total == v[m].total + (if m != r && t.path[m] <= t.path[c] then val else 0)
    && (m != n ==> w[m].children == v[m].children)
  }

  ghost function After(b: Build, w: Arena, t: Shape, c: Node, x: Enc): Build
    requires b.P != [] && b.T != []
  {
    Build(w, t, b.P[..|b.P| - 1] + Copies(c, |x.kids|), b.T[..|b.T| - 1] + Reversed(x.kids))
  }

  ghost function AfterDeco(d: Deco, n: Node, c: Node, x: Enc, had: int): Deco
    requires n in d.past
  {
    Deco(d.xs[c := x], d.past[n := d.past[n] + [x]][c := []], d.extra[c := had])
  }

  /** What is due to `m` once `x` is off the stack and its children are on it. */
  lemma {:induction false} DueAfter(b: Build, d: Deco, w: Arena, t: Shape, r: Node, n: Node, c: Node, x: Enc, had: int, m: Node)
    requires b.P != [] && Chain(b) && n == b.P[|b.P| - 1] && x == b.T[|b.T| - 1]
    requires Stepped(b.v, b.s, w, t, r, n, c, x.name, WrapI64(x.value), had) && (forall p | p in b.P :: p in w && p != c) && m in w
    ensures var a := After(b, w, t, c, x);
      Due(t, a.P, a.T, m) == (if m == c then 0 else Due(b.s, b.P, b.T, m))
        - (if m != c && m in t.path && t.path[m] <= b.s.path[n] then WeightOf(x) else 0)
        + (if m in t.path && t.path[m] <= t.path[c] then WeightOfAll(x.kids) else 0)
  {
    var front, rest := b.P[..|b.P| - 1], b.T[..|b.T| - 1];
    DueMore(t, front, rest, c, x.kids, m);
    forall p | p in front
      ensures p in b.P && p in b.s.path && p in t.path && b.s.path[p] == t.path[p]
    {
      assert KeptNode(b.v, b.s, w, t, r, n, c, WrapI64(x.value), p);
    }
    if m == c {
      forall p | p in front
        ensures !(t.path[c] <= t.path[p])
      {
        var i :| 0 <= i < |front| && front[i] == p;
        assert b.P[i] == p && b.s.path[b.P[i]] <= b.s.path[b.P[|b.P| - 1]];
      }
      DueNothing(t, front, rest, c);
    } else {
      assert KeptNode(b.v, b.s, w, t, r, n, c, WrapI64(x.value), m);
      DueSame(b.s, t, front, rest, m);
      assert KeptNode(b.v, b.s, w, t, r, n, c, WrapI64(x.value), n);
    }
  }

  /** A step below `n`, the last parent, that leaves a tree in order and the other parents in it. */
  ghost predicate Aligned(b: Build, w: Arena, t: Shape, r: Node, n: Node, c: Node, x: Enc, had: int) {
    && b.P != [] && Chain(b) && n == b.P[|b.P| - 1] && Rooted(w, r, t) && Sorted(w)
    && Stepped(b.v, b.s, w, t, r, n, c, x.name, WrapI64(x.value), had) && (forall p | p in b.P :: p in w && p != c)
  }

  /** The premises of a step that reads `x`, the next tree. */
  ghost predicate Reading(b: Build, d: Deco, w: Arena, t: Shape, r: Node, n: Node, c: Node, x: Enc, had: int) {
    Aligned(b, w, t, r, n, c, x, had) && x == b.T[|b.T| - 1] && n in d.past && Restoring(b, d, r)
  }

  lemma {:induction false} StackIsAbove(b: Build, p: Node)
    requires Chain(b) && b.P != [] && p in b.P
    ensures p in b.s.path && b.P[|b.P| - 1] in b.s.path && b.s.path[p] <= b.s.path[b.P[|b.P| - 1]]
  {
    var i :| 0 <= i < |b.P| && b.P[i] == p;
  }

  lemma ReadHasChild(b: Build, d: Deco, n: Node, name: Name)
    requires ChildrenOk(b, d, n)
    ensures Has(d.past[n], name) ==> NamedChild(b.v, n, name)
  {
  }

  /** What the node took over is the weight of the earlier trees of its name. */
  lemma {:induction false} TakenOver(b: Build, d: Deco, w: Arena, t: Shape, r: Node, n: Node, c: Node, x: Enc, had: int)
    requires Reading(b, d, w, t, r, n, c, x, had)
    ensures had == AllOf(d.past[n], x.name)
  {
    assert NodeOk(b, d, r, n);
    if c in b.v {
      assert NodeOk(b, d, r, c) && ChildOk(b, d, n, c);
      forall p | p in b.P && p in b.s.path
        ensures !(b.s.path[c] <= b.s.path[p])
      {
        StackIsAbove(b, p);
      }
      DueNothing(b.s, b.P, b.T, c);
    } else {
      ReadHasChild(b, d, n, x.name);
      NoneOfName(d.past[n], x.name);
    }
  }

  /** All the children of the node just read are still to come. */
  lemma {:induction false} AllToCome(b: Build, w: Arena, t: Shape, c: Node, x: Enc)
    requires b.P != [] && |b.P| == |b.T| && forall p | p in b.P :: p != c
    ensures var a := After(b, w, t, c, x); ToCome(a.P, a.T, c) == x.kids
  {
    var front, rest := b.P[..|b.P| - 1], b.T[..|b.T| - 1];
    ToComeMore(front, rest, c, x.kids, c);
    forall p | p in front
      ensures p != c
    {
      assert p in b.P;
    }
    NothingToCome(front, rest, c);
    assert x.kids + [] == x.kids;
  }

  lemma {:induction false} ReadNode(b: Build, d: Deco, w: Arena, t: Shape, r: Node, n: Node, c: Node, x: Enc, had: int)
    requires Reading(b, d, w, t, r, n, c, x, had)
    ensures NodeOk(After(b, w, t, c, x), AfterDeco(d, n, c, x, had), r, c)
  {
    DueAfter(b, d, w, t, r, n, c, x, had, c);
    AllToCome(b, w, t, c, x);
    assert [] + x.kids == x.kids;
  }

  lemma {:induction false} NothingToCome(P: seq<Node>, T: seq<Enc>, n: Node)
    requires |P| == |T| && n !in P
    ensures ToCome(P, T, n) == []
    decreases |P|
  {
    if P != [] { NothingToCome(P[..|P| - 1], T[..|T| - 1], n); }
  }

  /** The trees still to come below a node that was there before. */
  lemma {:induction false} ToComeAfter(b: Build, w: Arena, t: Shape, n: Node, c: Node, x: Enc, m: Node)
    requires b.P != [] && |b.P| == |b.T| && n == b.P[|b.P| - 1] && x == b.T[|b.T| - 1] && m != c
    ensures var a := After(b, w, t, c, x);
      ToCome(b.P, b.T, m) == (if m == n then [x] else []) + ToCome(a.P, a.T, m)
  {
    ToComeMore(b.P[..|b.P| - 1], b.T[..|b.T| - 1], c, x.kids, m);
  }

  /** The total of a node that was there before, and what is due to it, still come to the same. */
  lemma {:induction false} TotalAfter(b: Build, d: Deco, w: Arena, t: Shape, r: Node, n: Node, c: Node, x: Enc, had: int, m: Node)
    requires Reading(b, d, w, t, r, n, c, x, had) && m in w && m != c && m != r
    ensures var a := After(b, w, t, c, x);
      m in b.v && w[m].total + Due(t, a.P, a.T, m) == b.v[m].total + Due(b.s, b.P, b.T, m)
  {
    DueAfter(b, d, w, t, r, n, c, x, had, m);
    assert KeptNode(b.v, b.s, w, t, r, n, c, WrapI64(x.value), m);
    if t.path[m] == t.path[c] { SamePathSameNode(w, r, t, m, c); }
    PrefixOfLonger(t.path[m], b.s.path[n], x.name);
  }

  lemma {:induction false} KeptKids(b: Build, d: Deco, w: Arena, t: Shape, r: Node, n: Node, c: Node, x: Enc, had: int, m: Node)
    requires Reading(b, d, w, t, r, n, c, x, had) && m in w && m != c && m != n
    ensures ChildrenOk(After(b, w, t, c, x), AfterDeco(d, n, c, x, had), m)
  {
    var a, e := After(b, w, t, c, x), AfterDeco(d, n, c, x, had);
    assert KeptNode(b.v, b.s, w, t, r, n, c, WrapI64(x.value), m);
    assert NodeOk(b, d, r, m) && Lists(w, t, m) && Lists(w, t, n);
    forall k | k in w[m].children
      ensures ChildOk(a, e, m, k) && w[k].name == b.v[k].name
    {
      assert k != c;
      assert KeptNode(b.v, b.s, w, t, r, n, c, WrapI64(x.value), k) && ChildOk(b, d, m, k);
    }
    assert e.past[m] == d.past[m];
    forall i | 0 <= i < |e.past[m]|
      ensures NamedChild(w, m, e.past[m][i].name)
    {
      assert NamedChild(b.v, m, d.past[m][i].name);
      var k :| k in b.v[m].children && k in b.v && b.v[k].name == d.past[m][i].name;
      assert k in w[m].children && w[k].name == b.v[k].name;
    }
  }

  lemma {:induction false} ParentKid(b: Build, d: Deco, w: Arena, t: Shape, r: Node, n: Node, c: Node, x: Enc, had: int, k: Node)
    requires Reading(b, d, w, t, r, n, c, x, had) && k in w[n].children
    ensures ChildOk(After(b, w, t, c, x), AfterDeco(d, n, c, x, had), n, k)
  {
    assert NodeOk(b, d, r, n) && Lists(w, t, n) && SortedAt(w, n);
    TakenOver(b, d, w, t, r, n, c, x, had);
    OneMoreName(d.past[n], x, w[k].name);
    if k != c {
      assert KeptNode(b.v, b.s, w, t, r, n, c, WrapI64(x.value), k) && ChildOk(b, d, n, k);
      if w[k].name == x.name { SameNameSameChild(w, w[n].children, k, c); }
    }
  }

  lemma {:induction false} ParentName(b: Build, d: Deco, w: Arena, t: Shape, r: Node, n: Node, c: Node, x: Enc, had: int, i: nat)
    requires Reading(b, d, w, t, r, n, c, x, had) && n in d.past && i < |d.past[n]|
    ensures NamedChild(w, n, d.past[n][i].name)
  {
    var name := d.past[n][i].name;
    assert NodeOk(b, d, r, n);
    assert NamedChild(b.v, n, name);
    var k :| k in b.v[n].children && k in b.v && b.v[k].name == name;
    assert k in w[n].children && Lists(w, t, n);
    if k != c { assert KeptNode(b.v, b.s, w, t, r, n, c, WrapI64(x.value), k); }
    assert w[k].name == name;
  }

  lemma {:induction false} ParentKids(b: Build, d: Deco, w: Arena, t: Shape, r: Node, n: Node, c: Node, x: Enc, had: int)
    requires Reading(b, d, w, t, r, n, c, x, had)
    ensures ChildrenOk(After(b, w, t, c, x), AfterDeco(d, n, c, x, had), n)
  {
    var a, e := After(b, w, t, c, x), AfterDeco(d, n, c, x, had);
    assert NodeOk(b, d, r, n);
    forall k | k in w[n].children
      ensures ChildOk(a, e, n, k)
    {
      ParentKid(b, d, w, t, r, n, c, x, had, k);
    }
    forall i | 0 <= i < |e.past[n]|
      ensures NamedChild(w, n, e.past[n][i].name)
    {
      if i < |d.past[n]| {
        ParentName(b, d, w, t, r, n, c, x, had, i);
      } else {
        assert c in w[n].children && w[c].name == x.name;
      }
    }
  }

  /** What was read and what is to come make up the tree still. */
  lemma {:induction false} KidsAfter(b: Build, d: Deco, w: Arena, t: Shape, n: Node, c: Node, x: Enc, had: int, m: Node)
    requires b.P != [] && |b.P| == |b.T| && n == b.P[|b.P| - 1] && x == b.T[|b.T| - 1] && m != c && n != c
    requires n in d.past && m in d.past && m in d.xs && d.xs[m].kids == d.past[m] + ToCome(b.P, b.T, m)
    ensures var a, e := After(b, w, t, c, x), AfterDeco(d, n, c, x, had);
      m in e.past && m in e.xs && e.xs[m].kids == e.past[m] + ToCome(a.P, a.T, m)
  {
    var a := After(b, w, t, c, x);
    ToComeAfter(b, w, t, n, c, x, m);
    if m == n { Associative(d.past[n], [x], ToCome(a.P, a.T, n)); } else { assert [] + ToCome(a.P, a.T, m) == ToCome(a.P, a.T, m); }
  }

  lemma {:induction false} KeptNodeOk(b: Build, d: Deco, w: Arena, t: Shape, r: Node, n: Node, c: Node, x: Enc, had: int, m: Node)
    requires Reading(b, d, w, t, r, n, c, x, had) && m in w && m != c
    ensures NodeOk(After(b, w, t, c, x), AfterDeco(d, n, c, x, had), r, m)
  {
    assert KeptNode(b.v, b.s, w, t, r, n, c, WrapI64(x.value), m);
    assert NodeOk(b, d, r, m);
    KidsAfter(b, d, w, t, n, c, x, had, m);
    if m == n { ParentKids(b, d, w, t, r, n, c, x, had); } else { KeptKids(b, d, w, t, r, n, c, x, had, m); }
    if m != r { TotalAfter(b, d, w, t, r, n, c, x, had, m); }
  }

  /** Reading one node keeps what all nodes stand for. */
  lemma {:induction false} ReadingKeeps(b: Build, d: Deco, w: Arena, t: Shape, r: Node, n: Node, c: Node, x: Enc, had: int)
    requires Reading(b, d, w, t, r, n, c, x, had)
    ensures Restoring(After(b, w, t, c, x), AfterDeco(d, n, c, x, had), r)
  {
    var a, e := After(b, w, t, c, x), AfterDeco(d, n, c, x, had);
    forall m | m in w
      ensures NodeOk(a, e, r, m)
    {
      if m == c { ReadNode(b, d, w, t, r, n, c, x, had); } else { KeptNodeOk(b, d, w, t, r, n, c, x, had, m); }
    }
  }

  /** The other parents are above the node that was read, so they are still there. */
  lemma {:induction false} StackSurvives(b: Build, w: Arena, t: Shape, r: Node, n: Node, c: Node, name: Name, val: int, had: int)
    requires b.P != [] && Chain(b) && n == b.P[|b.P| - 1] && Stepped(b.v, b.s, w, t, r, n, c, name, val, had)
    ensures forall p | p in b.P :: p in w && p != c
  {
    forall p | p in b.P
      ensures p in w && p != c
    {
      StackIsAbove(b, p);
      assert |b.s.path[p]| < |t.path[c]|;
    }
  }

  lemma {:induction false} ChainAfter(b: Build, w: Arena, t: Shape, r: Node, n: Node, c: Node, x: Enc, had: int)
    requires Aligned(b, w, t, r, n, c, x, had)
    ensures Chain(After(b, w, t, c, x))
  {
    var a, front := After(b, w, t, c, x), b.P[..|b.P| - 1];
    forall p | p in front
      ensures p in w && p in t.path && t.path[p] == b.s.path[p] && t.path[p] <= t.path[c]
    {
      assert p in b.P;
      assert KeptNode(b.v, b.s, w, t, r, n, c, WrapI64(x.value), p);
      StackIsAbove(b, p);
    }
    forall i, j | 0 <= i < j < |a.P|
      ensures a.P[i] in t.path && a.P[j] in t.path && t.path[a.P[i]] <= t.path[a.P[j]]
    {
      if i < |front| { assert a.P[i] == front[i] == b.P[i] && front[i] in front; }
      if j < |front| { assert a.P[j] == front[j] == b.P[j] && front[j] in front; }
    }
  }

  // ---- What has been built at the end ----

  /**
   The node shows the tree: its name, its value, the weight of the whole tree and of what it took over; its
   children, in strict order, show the last tree of each name.
   */
  ghost predicate Shows(v: Arena, n: Node, x: Enc, extra: int)
    decreases x
  {
    && n in v && v[n].name == x.name && v[n].own == WrapI64(x.value) && v[n].total == extra + WeightOf(x)
    && ShowsKids(v, v[n].children, x)
  }

  ghost predicate ShowsKids(v: Arena, kids: seq<Node>, x: Enc)
    decreases x, 0
  {
    && SortedKids(v, kids)
    && (forall c | c in kids :: c in v && Has(x.kids, v[c].name) && Shows(v, c, LastOf(x.kids, v[c].name), Before(x.kids, v[c].name)))
    && (forall i | 0 <= i < |x.kids| :: NamedIn(v, kids, x.kids[i].name))
  }

  /** Nothing is to come any more. */
  ghost predicate Finished(b: Build, d: Deco, r: Node) {
    b.P == [] && b.T == [] && Restoring(b, d, r) && Rooted(b.v, r, b.s) && Sorted(b.v)
  }

  lemma {:induction false} NodeShows(b: Build, d: Deco, r: Node, n: Node, x: Enc)
    requires Finished(b, d, r) && n in b.v && n in d.xs && x == d.xs[n] && n in d.extra
    ensures ShowsKids(b.v, b.v[n].children, x) && (n != r ==> Shows(b.v, n, x, d.extra[n]))
    decreases x
  {
    assert NodeOk(b, d, r, n) && Lists(b.v, b.s, n) && SortedAt(b.v, n);
    assert x.kids == d.past[n] + [] == d.past[n];
    forall c | c in b.v[n].children
      ensures c in b.v && Has(x.kids, b.v[c].name) && Shows(b.v, c, LastOf(x.kids, b.v[c].name), Before(x.kids, b.v[c].name))
    {
      assert ChildOk(b, d, n, c);
      assert c in b.s.par;
      NodeShows(b, d, r, c, d.xs[c]);
    }
    forall i | 0 <= i < |x.kids|
      ensures NamedIn(b.v, b.v[n].children, x.kids[i].name)
    {
      assert NamedChild(b.v, n, d.past[n][i].name);
    }
  }

  /** Nodes elsewhere do not matter. */
  lemma {:induction false} ShowsIn(v: Arena, w: Arena, kids: seq<Node>, x: Enc)
    requires ShowsKids(v, kids, x)
    requires (forall c | c in kids :: c in w) && forall c | c in w :: c in v && w[c] == v[c] && forall k | k in w[c].children :: k in w
    ensures ShowsKids(w, kids, x)
    decreases x
  {
    forall c | c in kids
      ensures Shows(w, c, LastOf(x.kids, v[c].name), Before(x.kids, v[c].name))
    {
      ShowsIn(v, w, v[c].children, LastOf(x.kids, v[c].name));
    }
    forall i | 0 <= i < |x.kids|
      ensures NamedIn(w, kids, x.kids[i].name)
    {
      assert NamedIn(v, kids, x.kids[i].name);
      var c :| c in kids && c in v && v[c].name == x.kids[i].name;
      assert c in w && w[c].name == x.kids[i].name;
    }
  }

  ghost predicate ShownBy(v: Arena, kids: seq<Node>, x: Enc) {
    exists c :: c in kids && Shows(v, c, x, 0)
  }

  ghost predicate ShowsOne(v: Arena, c: Node, xs: seq<Enc>) {
    exists x :: x in xs && Shows(v, c, x, 0)
  }

  /** With distinct names, siblings are only sorted: each tree is shown by one node, each node shows one tree. */
  lemma {:induction false} DistinctComesBack(v: Arena, kids: seq<Node>, x: Enc)
    requires ShowsKids(v, kids, x) && DistinctNames(x)
    ensures forall c | c in kids :: ShowsOne(v, c, x.kids)
    ensures forall i | 0 <= i < |x.kids| :: ShownBy(v, kids, x.kids[i])
  {
    forall c | c in kids
      ensures ShowsOne(v, c, x.kids)
    {
      var i :| 0 <= i < |x.kids| && x.kids[i].name == v[c].name;
      OnlyOfItsName(x.kids, i);
      assert x.kids[i] in x.kids && Shows(v, c, x.kids[i], 0);
    }
    forall i | 0 <= i < |x.kids|
      ensures ShownBy(v, kids, x.kids[i])
    {
      assert NamedIn(v, kids, x.kids[i].name);
      var c :| c in kids && c in v && v[c].name == x.kids[i].name;
      OnlyOfItsName(x.kids, i);
      assert Shows(v, c, x.kids[i], 0);
    }
  }

  // ---- When the totals add up ----

  /** No node took anything over, so no weight was lost in the tree. */
  lemma {:induction false} NothingTakenNoLoss(b: Build, d: Deco, r: Node, n: Node, x: Enc)
    requires Finished(b, d, r) && n in b.v && n in d.xs && x == d.xs[n]
    requires forall m | m in b.v && m in d.extra && m != r :: d.extra[m] == 0
    ensures NoLoss(x)
    decreases x
  {
    assert NodeOk(b, d, r, n) && Lists(b.v, b.s, n);
    assert x.kids == d.past[n] + [] == d.past[n];
    forall name | Has(x.kids, name)
      ensures Before(x.kids, name) == 0 && NoLoss(LastOf(x.kids, name))
    {
      ReadHasChild(b, d, n, name);
      var c :| c in b.v[n].children && c in b.v && b.v[c].name == name;
      assert ChildOk(b, d, n, c) && c != r;
      NothingTakenNoLoss(b, d, r, c, d.xs[c]);
    }
  }

  /** Without loss, no node below the first one took anything over. */
  lemma {:induction false} NoLossNothingTaken(b: Build, d: Deco, r: Node, x: Enc, n: Node)
    requires Finished(b, d, r) && n in b.v && n != r && r in d.xs && d.xs[r].kids == [x] && NoLoss(x)
    ensures n in d.xs && n in d.extra && d.extra[n] == 0 && NoLoss(d.xs[n])
    decreases |if n in b.s.path then b.s.path[n] else []|
  {
    assert Listed(b.v, b.s, n);
    var p := b.s.par[n];
    assert NodeOk(b, d, r, p) && NodeOk(b, d, r, n) && ChildOk(b, d, p, n);
    assert d.xs[p].kids == d.past[p] + [] == d.past[p];
    if p == r {
      OneMoreName([], x, b.v[n].name);
      assert [] + [x] == [x];
    } else {
      NoLossNothingTaken(b, d, r, x, p);
    }
  }

  lemma {:induction false} NoLossIffNothingTaken(b: Build, d: Deco, r: Node, x: Enc)
    requires Finished(b, d, r) && r in d.xs && d.xs[r].kids == [x]
    ensures NoLoss(x) <==> forall n | n in b.v && n in d.extra && n != r :: d.extra[n] == 0
  {
    if NoLoss(x) {
      forall n | n in b.v && n in d.extra && n != r
        ensures d.extra[n] == 0
      {
        NoLossNothingTaken(b, d, r, x, n);
      }
    }
    if forall n | n in b.v && n in d.extra && n != r :: d.extra[n] == 0 {
      NothingTakenNoLoss(b, d, r, r, d.xs[r]);
      assert [x][0] == x;
      OneMoreName([], x, x.name);
      assert [] + [x] == [x];
    }
  }
}
