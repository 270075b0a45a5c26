/** The loops of `Fix` and `FormatNodeNames`. */
module TreeRename {
  import opened Basics
  import opened Names
  import opened TreeModel
  import opened TreeInsert
  import opened TreeFix

  // ---- Sorting siblings ----

  method InsertByName(m: seq<Node>, x: Node, ghost nodes: set<Node>) returns (r: seq<Node>)
    requires x in nodes && x !in m && (forall c | c in m :: c in nodes) && Distinct(m) && InOrder(View(nodes), m)
    ensures SameNodes(m + [x], r) && InOrder(View(nodes), r)
  {
    var i := 0;
    while i < |m| && !Less(x.name, m[i].name)
      invariant i <= |m|
      invariant forall k | 0 <= k < i :: !Less(x.name, m[k].name)
    {
      i := i + 1;
    }
    r := m[..i] + [x] + m[i..];
    PlaceInOrder(View(nodes), m, x, i);
  }

  lemma {:induction false} PlaceInOrder(v: Arena, m: seq<Node>, x: Node, i: nat)
    requires i <= |m| && x in v && x !in m && Distinct(m) && InOrder(v, m)
    requires forall k | 0 <= k < i :: !Less(v[x].name, v[m[k]].name)
    requires i < |m| ==> Less(v[x].name, v[m[i]].name)
    ensures var r := m[..i] + [x] + m[i..]; SameNodes(m + [x], r) && InOrder(v, r)
  {
    var r := m[..i] + [x] + m[i..];
    DistinctInsert(m, i, x);
    assert m == m[..i] + m[i..];
    assert Distinct(m + [x]);
    forall k | i <= k < |m|
      ensures !Less(v[m[k]].name, v[x].name)
    {
      LessIsStrict(v[x].name, v[m[i]].name);
      if Less(v[m[k]].name, v[x].name) { LessIsTransitive(v[m[k]].name, v[x].name, v[m[i]].name); }
    }
    forall a, b | 0 <= a < b < |r|
      ensures !Less(v[r[b]].name, v[r[a]].name)
    {
      assert r[a] == if a < i then m[a] else if a == i then x else m[a - 1];
      assert r[b] == if b < i then m[b] else if b == i then x else m[b - 1];
    }
  }

  /** Some order of the siblings by name; which of those with one name comes first does not matter below. */
  method SortByName(n: seq<Node>, ghost nodes: set<Node>) returns (m: seq<Node>)
    requires Distinct(n) && forall c | c in n :: c in nodes
    ensures SameNodes(n, m) && InOrder(View(nodes), m)
  {
    m := [];
    for k := 0 to |n|
      invariant SameNodes(n[..k], m) && InOrder(View(nodes), m)
    {
      assert n[..k + 1] == n[..k] + [n[k]];
      assert n[k] in nodes && n[k] !in n[..k];
      ghost var before := m;
      m := InsertByName(m, n[k], nodes);
      SameNodesGrow(n[..k], before, n[k], m);
    }
    assert n[..|n|] == n;
  }

  lemma SameNodesGrow(a: seq<Node>, b: seq<Node>, x: Node, c: seq<Node>)
    requires SameNodes(a, b) && SameNodes(b + [x], c) && x !in a
    ensures SameNodes(a + [x], c)
  {
    forall y | y in c
      ensures y in a + [x]
    {
      assert y in b + [x];
    }
    forall y | y in a + [x]
      ensures y in c
    {
      assert y in b + [x];
    }
  }

  // ---- Merging a sibling into another ----

  /** The nodes with new parents for the first `i` children of `c`. */
  ghost function Handed(v: Arena, p: Node, kids: seq<Node>): Arena {
    map n | n in v :: if n in kids then v[n].(parent := p) else v[n]
  }

  method HandOver(p: Node, kids: seq<Node>, ghost nodes: set<Node>)
    requires forall x | x in kids :: x in nodes
    modifies nodes
    ensures View(nodes) == Handed(old(View(nodes)), p, kids)
  {
    ghost var v := View(nodes);
    for i := 0 to |kids|
      invariant View(nodes) == Handed(v, p, kids[..i])
    {
      assert kids[i] in nodes;
      kids[i].parent := p;
      assert kids[..i + 1] == kids[..i] + [kids[i]];
    }
    assert kids[..|kids|] == kids;
  }

  method Absorb(p: Node, c: Node, ghost nodes: set<Node>)
    requires p in nodes && c in nodes && p != c && p !in c.children && c !in c.children && forall x | x in c.children :: x in nodes
    modifies nodes
    ensures View(nodes) == Moved(old(View(nodes)), p, c)
  {
    ghost var v := View(nodes);
    HandOver(p, c.children, nodes);
    assert CellOf(p) == v[p] && CellOf(c) == v[c] by { assert View(nodes)[p] == v[p] && View(nodes)[c] == v[c]; }
    p.children := p.children + c.children;
    p.total := p.total + c.total;
    p.own := p.own + c.own;
  }

  // ---- One level ----
  /** `Level`, with `v` listing the old children of `q`: the list is rewritten only at the end of the level. */
  ghost predicate LevelKept(v0: Arena, s0: Shape, v: Arena, s: Shape, r: Node, q: Node, kept: seq<Node>, rest: seq<Node>) {
    q in v && forall u {:trigger Look(u)} | u == Relisted(v, q, kept + rest) && Look(u) :: Level(v0, s0, u, s, r, q, kept, rest)
  }

  lemma LevelOpened(v0: Arena, s0: Shape, v: Arena, s: Shape, r: Node, q: Node, kept: seq<Node>, rest: seq<Node>)
    requires LevelKept(v0, s0, v, s, r, q, kept, rest)
    ensures q in v && Level(v0, s0, Relisted(v, q, kept + rest), s, r, q, kept, rest)
  {
    assert Look(Relisted(v, q, kept + rest));
  }

  lemma {:induction false} StepFacts(v0: Arena, s0: Shape, v: Arena, s: Shape, r: Node, q: Node, kept: seq<Node>, rest: seq<Node>)
    requires LevelKept(v0, s0, v, s, r, q, kept, rest) && rest != []
    ensures kept != []
    ensures var p, c := kept[|kept| - 1], rest[0];
      && p in v && c in v
      && (v[p].name == v[c].name ==> p != c && q != p && q != c && r != c && q !in v[c].children && p !in v[c].children && c !in v[c].children)
      && (v[p].name == v[c].name ==> forall x | x in v[c].children :: x in v)
  {
    LevelOpened(v0, s0, v, s, r, q, kept, rest);
    var w := Relisted(v, q, kept + rest);
    var p, c := kept[|kept| - 1], rest[0];
    assert p in kept + rest && c in kept + rest;
    assert Lists(w, s, q);
    if v[p].name == v[c].name {
      TwinsOf(w, r, s, q, kept, rest);
      TwinFacts(w, r, s, q, kept + rest[1..], p, c);
    }
  }

  lemma {:induction false} StepAbsorbs(v0: Arena, s0: Shape, v: Arena, s: Shape, r: Node, q: Node, kept: seq<Node>, rest: seq<Node>, p: Node, c: Node)
    requires LevelKept(v0, s0, v, s, r, q, kept, rest) && rest != [] && kept != [] && p == kept[|kept| - 1] && c == rest[0]
    requires p in v && c in v && v[p].name == v[c].name
    ensures LevelKept(v0, s0, Moved(v, p, c) - {c}, AbsorbedShape(s, p, c), r, q, kept, rest[1..])
  {
    StepFacts(v0, s0, v, s, r, q, kept, rest);
    LevelOpened(v0, s0, v, s, r, q, kept, rest);
    LevelAbsorbs(v0, s0, Relisted(v, q, kept + rest), s, r, q, kept, rest);
    RelistLater(v, q, kept + rest, kept + rest[1..], p, c);
  }

  /** It makes no difference whether the list of `q` is rewritten before or after. */
  lemma RelistLater(v: Arena, q: Node, before: seq<Node>, after: seq<Node>, p: Node, c: Node)
    requires q in v && p in v && c in v && p != c && q != p && q != c && q !in v[c].children
    ensures Relisted(Moved(v, p, c) - {c}, q, after) == Absorbed(Relisted(v, q, before), q, after, p, c)
  {
    var a, b := Relisted(Moved(v, p, c) - {c}, q, after), Absorbed(Relisted(v, q, before), q, after, p, c);
    assert a.Keys == b.Keys;
  }

  lemma {:induction false} StepGoesOn(v0: Arena, s0: Shape, v: Arena, s: Shape, r: Node, q: Node, kept: seq<Node>, rest: seq<Node>, p: Node, c: Node)
    requires LevelKept(v0, s0, v, s, r, q, kept, rest) && rest != [] && kept != [] && p == kept[|kept| - 1] && c == rest[0]
    requires p in v && c in v && v[p].name != v[c].name
    ensures LevelKept(v0, s0, v, s, r, q, kept + [c], rest[1..])
  {
    LevelOpened(v0, s0, v, s, r, q, kept, rest);
    LevelKeeps(v0, s0, Relisted(v, q, kept + rest), s, r, q, kept, rest);
    assert kept + [c] + rest[1..] == kept + rest;
  }

  /** Takes the next sibling: into the last one kept, if it has the same name. */
  method StepLevel(kept: seq<Node>, c: Node, ghost rest: seq<Node>, ghost q: Node, ghost nodes: set<Node>, ghost r: Node, ghost s: Shape,
                   ghost v0: Arena, ghost s0: Shape)
    returns (kept2: seq<Node>, ghost nodes2: set<Node>, ghost s2: Shape)
    requires kept != [] && rest != [] && c == rest[0] && kept[|kept| - 1] in nodes && c in nodes
    requires LevelKept(v0, s0, View(nodes), s, r, q, kept, rest)
    modifies nodes
    ensures nodes2 <= nodes && LevelKept(v0, s0, View(nodes2), s2, r, q, kept2, rest[1..])
  {
    ghost var v := View(nodes);
    var p := kept[|kept| - 1];
    StepFacts(v0, s0, v, s, r, q, kept, rest);
    assert CellOf(p) == v[p] && CellOf(c) == v[c];
    if p.name == c.name {
      StepAbsorbs(v0, s0, v, s, r, q, kept, rest, p, c);
      Absorb(p, c, nodes);
      kept2, nodes2, s2 := kept, nodes - {c}, AbsorbedShape(s, p, c);
      assert View(nodes2) == View(nodes) - {c};
    } else {
      StepGoesOn(v0, s0, v, s, r, q, kept, rest, p, c);
      kept2, nodes2, s2 := kept + [c], nodes, s;
    }
  }

  lemma {:induction false} StartLevel(v: Arena, s: Shape, r: Node, q: Node, m: seq<Node>)
    requires Rooted(v, r, s) && RealParents(v, s, {}) && q in v && v[q].children != []
    requires SameNodes(v[q].children, m) && InOrder(v, m)
    ensures m != [] && LevelKept(v, s, v, s, r, q, [m[0]], m[1..])
  {
    LevelStarts(v, s, r, q, m);
    assert [m[0]] + m[1..] == m;
  }

  lemma LevelMembers(v0: Arena, s0: Shape, v: Arena, s: Shape, r: Node, q: Node, kept: seq<Node>, rest: seq<Node>)
    requires LevelKept(v0, s0, v, s, r, q, kept, rest)
    ensures kept != [] && q in v && forall x | x in kept + rest :: x in v
  {
    LevelOpened(v0, s0, v, s, r, q, kept, rest);
    assert Lists(Relisted(v, q, kept + rest), s, q);
  }

  /** The siblings `n`, sorted and with those of one name merged. */
  method MergeSiblings(n: seq<Node>, ghost q: Node, ghost nodes: set<Node>, ghost r: Node, ghost s: Shape)
    returns (kept: seq<Node>, ghost nodes2: set<Node>, ghost s2: Shape)
    requires q in nodes && q.children == n && n != [] && Rooted(View(nodes), r, s) && RealParents(View(nodes), s, {})
    modifies nodes
    ensures nodes2 <= nodes && LevelKept(old(View(nodes)), s, View(nodes2), s2, r, q, kept, [])
  {
    ghost var v0 := View(nodes);
    assert Lists(v0, s, q);
    var m := SortByName(n, nodes);
    StartLevel(v0, s, r, q, m);
    kept, nodes2, s2 := [m[0]], nodes, s;
    for k := 1 to |m|
      invariant nodes2 <= nodes && LevelKept(v0, s, View(nodes2), s2, r, q, kept, m[k..])
    {
      LevelMembers(v0, s, View(nodes2), s2, r, q, kept, m[k..]);
      NextOf(m, k, kept);
      kept, nodes2, s2 := StepLevel(kept, m[k], m[k..], q, nodes2, r, s2, v0, s);
    }
    assert m[|m|..] == [];
  }

  lemma NextOf(m: seq<Node>, k: nat, kept: seq<Node>)
    requires k < |m| && kept != []
    ensures m[k..] != [] && m[k..][0] == m[k] && m[k..][1..] == m[k + 1..] && m[k] in kept + m[k..] && kept[|kept| - 1] in kept + m[k..]
  {
    assert (kept + m[k..])[|kept|] == m[k] && (kept + m[k..])[|kept| - 1] == kept[|kept| - 1];
  }

  // ---- All levels ----

  /** The children of each of `kept`, as the original pushes them. */
  ghost function ListsOf(v: Arena, kept: seq<Node>): seq<seq<Node>> {
    seq(|kept|, i requires 0 <= i < |kept| => if kept[i] in v then v[kept[i]].children else [])
  }

  /** The tree weighs and adds up as at the start; `fin` is fixed, and the lists on the stack come next. */
  ghost predicate Fixing(v0: Arena, s0: Shape, v: Arena, s: Shape, r: Node, fin: set<Node>, owners: seq<Node>, stack: seq<seq<Node>>) {
    && Rooted(v, r, s) && RealParents(v, s, {}) && SameBelow(v0, s0, v, s) && SameSums(v0, v, r)
    && Frontier(v, s, r, fin, owners) && StackOk(v, owners, stack)
  }

  ghost predicate FixKept(v0: Arena, s0: Shape, v: Arena, s: Shape, r: Node, fin: set<Node>, owners: seq<Node>, stack: seq<seq<Node>>) {
    forall u {:trigger Look(u)} | u == v && Look(u) :: Fixing(v0, s0, u, s, r, fin, owners, stack)
  }

  lemma FixOpened(v0: Arena, s0: Shape, v: Arena, s: Shape, r: Node, fin: set<Node>, owners: seq<Node>, stack: seq<seq<Node>>)
    requires FixKept(v0, s0, v, s, r, fin, owners, stack)
    ensures Fixing(v0, s0, v, s, r, fin, owners, stack)
  {
    assert Look(v);
  }

  /** What is on top of the stack. */
  lemma {:induction false} NextLevel(v0: Arena, s0: Shape, v: Arena, s: Shape, r: Node, fin: set<Node>, owners: seq<Node>, stack: seq<seq<Node>>)
    requires FixKept(v0, s0, v, s, r, fin, owners, stack) && stack != []
    ensures |owners| == |stack| && owners[|owners| - 1] in v && v[owners[|owners| - 1]].children == stack[|stack| - 1]
    ensures Rooted(v, r, s) && RealParents(v, s, {}) && owners[|owners| - 1] !in fin && fin <= v.Keys
  {
    FixOpened(v0, s0, v, s, r, fin, owners, stack);
  }

  lemma {:induction false} FixMoves(v0: Arena, s0: Shape, v: Arena, s: Shape, r: Node, q: Node, fin: set<Node>, front: seq<Node>, stack: seq<seq<Node>>,
                                    w: Arena, t: Shape, kept: seq<Node>, lists: seq<seq<Node>>)
    requires Fixing(v0, s0, v, s, r, fin, front + [q], stack) && stack != []
    requires Level(v, s, w, t, r, q, kept, []) && w[q].children == kept
    requires |lists| == |kept| && forall i | 0 <= i < |kept| :: kept[i] in w && lists[i] == w[kept[i]].children
    ensures Fixing(v0, s0, w, t, r, fin + {q}, front + kept, stack[..|stack| - 1] + lists)
  {
    FrontierMoves(v, s, w, t, r, q, fin, front, kept);
    SameOverall(v0, s0, v, s, w, t);
    TopOff(v, front, q, stack);
    StackMoves(v, s, w, t, r, q, fin, front, kept, stack[..|stack| - 1], lists);
  }

  lemma TopOff(v: Arena, front: seq<Node>, q: Node, stack: seq<seq<Node>>)
    requires StackOk(v, front + [q], stack)
    ensures stack != [] && StackOk(v, front, stack[..|stack| - 1])
  {
    assert forall i | 0 <= i < |front| :: (front + [q])[i] == front[i];
  }

  lemma {:induction false} LevelDone(v0: Arena, s0: Shape, v: Arena, s: Shape, r: Node, fin: set<Node>, front: seq<Node>, q: Node, stack: seq<seq<Node>>,
                                     v1: Arena, s1: Shape, kept: seq<Node>)
    requires FixKept(v0, s0, v, s, r, fin, front + [q], stack) && stack != []
    requires LevelKept(v, s, v1, s1, r, q, kept, [])
    ensures q in v1 && (forall c | c in kept :: c in v1 && c != q && v1[c].parent == q)
    ensures FixKept(v0, s0, Relisted(v1, q, kept), s1, r, fin + {q}, front + kept, stack[..|stack| - 1] + ListsOf(v1, kept))
  {
    FixOpened(v0, s0, v, s, r, fin, front + [q], stack);
    LevelOpened(v, s, v1, s1, r, q, kept, []);
    assert kept + [] == kept;
    KeptAreBelow(Relisted(v1, q, kept), s1, r, q, kept);
    FixMoves(v0, s0, v, s, r, q, fin, front, stack, Relisted(v1, q, kept), s1, kept, ListsOf(v1, kept));
  }

  lemma {:induction false} KeptAreBelow(w: Arena, s: Shape, r: Node, q: Node, kept: seq<Node>)
    requires Rooted(w, r, s) && RealParents(w, s, {}) && q in w && w[q].children == kept
    ensures forall c | c in kept :: c in w && c != q && w[c].parent == q
  {
    assert Lists(w, s, q);
    if q in s.par { assert Listed(w, s, q); }
  }

  lemma {:induction false} StackMoves(v: Arena, s: Shape, w: Arena, t: Shape, r: Node, q: Node, fin: set<Node>, owners: seq<Node>, kept: seq<Node>,
                                      stack: seq<seq<Node>>, lists: seq<seq<Node>>)
    requires Rooted(v, r, s) && Frontier(v, s, r, fin, owners + [q]) && Apart(v, s, w, t, q) && StackOk(v, owners, stack)
    requires |lists| == |kept| && forall i | 0 <= i < |kept| :: kept[i] in w && lists[i] == w[kept[i]].children
    ensures StackOk(w, owners + kept, stack + lists)
  {
    forall i | 0 <= i < |owners + kept|
      ensures (owners + kept)[i] in w && (stack + lists)[i] == w[(owners + kept)[i]].children
    {
      if i < |owners| {
        assert Reached(fin, owners, owners[i]);
        ReachedIsAside(v, s, r, fin, owners, q, owners[i]);
      }
    }
  }

  /** A list without nodes is fixed already. */
  lemma {:induction false} NothingToFix(v0: Arena, s0: Shape, v: Arena, s: Shape, r: Node, fin: set<Node>, owners: seq<Node>, stack: seq<seq<Node>>)
    requires FixKept(v0, s0, v, s, r, fin, owners, stack) && stack != [] && |owners| == |stack| && stack[|stack| - 1] == []
    ensures var q := owners[|owners| - 1]; FixKept(v0, s0, v, s, r, fin + {q}, owners[..|owners| - 1], stack[..|stack| - 1])
  {
    var q, front := owners[|owners| - 1], owners[..|owners| - 1];
    FixOpened(v0, s0, v, s, r, fin, owners, stack);
    assert owners == front + [q] && front + [] == front && stack[..|stack| - 1] + [] == stack[..|stack| - 1];
    FrontierMoves(v, s, v, s, r, q, fin, front, []);
    StackMoves(v, s, v, s, r, q, fin, front, [], stack[..|stack| - 1], []);
  }

  lemma {:induction false} FixEnds(v0: Arena, s0: Shape, v: Arena, s: Shape, r: Node, fin: set<Node>, owners: seq<Node>)
    requires FixKept(v0, s0, v, s, r, fin, owners, [])
    ensures Rooted(v, r, s) && RealParents(v, s, {r}) && Sorted(v) && SameBelow(v0, s0, v, s) && SameSums(v0, v, r)
  {
    FixOpened(v0, s0, v, s, r, fin, owners, []);
    forall n | n in v
      ensures SortedAt(v, n)
    {
      assert owners == [];
      AllFixed(v, s, r, fin, n);
    }
  }

  lemma {:induction false} FixStarts(v: Arena, s: Shape, r: Node)
    requires Rooted(v, r, s) && RealParents(v, s, {})
    ensures FixKept(v, s, v, s, r, {}, [r], [v[r].children])
  {
    forall n | n in s.par
      ensures Reached({}, [r], n) <==> s.par[n] in {}
    {
      assert n != r;
    }
  }

  // ---- Fix ----

  /** The kept siblings become the children of their parent, and their own lists come next. */
  method Adopt(kept: seq<Node>, stack: seq<seq<Node>>, ghost q: Node, ghost nodes: set<Node>) returns (stack2: seq<seq<Node>>)
    requires q in nodes && kept != [] && forall c | c in kept :: c in nodes && c != q && c.parent == q
    modifies q
    ensures View(nodes) == Relisted(old(View(nodes)), q, kept)
    ensures stack2 == stack + ListsOf(old(View(nodes)), kept)
  {
    stack2 := stack;
    ghost var v := View(nodes);
    ghost var lists := ListsOf(v, kept);
    for i := 0 to |kept|
      invariant View(nodes) == if i == 0 then v else Relisted(v, q, kept)
      invariant stack2 == stack + lists[..i]
    {
      assert kept[i] in kept;
      kept[i].parent.children := kept;
      stack2 := stack2 + [kept[i].children];
      assert lists[..i + 1] == lists[..i] + [lists[i]];
    }
    assert lists[..|kept|] == lists;
  }

  /** Fixes one list of siblings, and puts the lists below on the stack. */
  method FixLevel(n: seq<Node>, rest: seq<seq<Node>>, ghost nodes: set<Node>, ghost r: Node, ghost s: Shape,
                  ghost v0: Arena, ghost s0: Shape, ghost fin: set<Node>, ghost owners: seq<Node>)
    returns (stack2: seq<seq<Node>>, ghost nodes2: set<Node>, ghost s2: Shape, ghost fin2: set<Node>, ghost owners2: seq<Node>)
    requires FixKept(v0, s0, View(nodes), s, r, fin, owners, rest + [n])
    modifies nodes
    ensures nodes2 <= nodes && |nodes2 - fin2| < |nodes - fin|
    ensures FixKept(v0, s0, View(nodes2), s2, r, fin2, owners2, stack2)
  {
    ghost var v, stack := View(nodes), rest + [n];
    NextLevel(v0, s0, v, s, r, fin, owners, stack);
    ghost var q := owners[|owners| - 1];
    fin2 := fin + {q};
    assert stack[..|stack| - 1] == rest;
    if |n| == 0 {
      NothingToFix(v0, s0, v, s, r, fin, owners, stack);
      stack2, nodes2, s2, owners2 := rest, nodes, s, owners[..|owners| - 1];
    } else {
      assert q.children == n by { assert CellOf(q) == v[q]; }
      var kept;
      kept, nodes2, s2 := MergeSiblings(n, q, nodes, r, s);
      ghost var v1 := View(nodes2);
      LevelMembers(v, s, v1, s2, r, q, kept, []);
      SplitLast(owners);
      LevelDone(v0, s0, v, s, r, fin, owners[..|owners| - 1], q, stack, v1, s2, kept);
      stack2 := AdoptAll(kept, rest, q, nodes2);
      owners2 := owners[..|owners| - 1] + kept;
    }
    OneLess(nodes, nodes2, fin, q);
  }

  method AdoptAll(kept: seq<Node>, rest: seq<seq<Node>>, ghost q: Node, ghost nodes: set<Node>) returns (stack2: seq<seq<Node>>)
    requires q in nodes && kept != [] && (forall c | c in kept :: c in View(nodes) && c != q && View(nodes)[c].parent == q)
    modifies q
    ensures View(nodes) == Relisted(old(View(nodes)), q, kept)
    ensures stack2 == rest + ListsOf(old(View(nodes)), kept)
  {
    assert forall c | c in kept :: c in nodes && CellOf(c) == View(nodes)[c];
    stack2 := Adopt(kept, rest, q, nodes);
  }

  lemma OneLess(nodes: set<Node>, nodes2: set<Node>, fin: set<Node>, q: Node)
    requires q in nodes && q !in fin && nodes2 <= nodes
    ensures |nodes2 - (fin + {q})| < |nodes - fin|
  {
    var a, b := nodes2 - (fin + {q}), nodes - fin - {q};
    assert a <= b;
    SubsetSize(a, b);
    assert |nodes - fin| == |b| + 1;
  }

  /** Sorts all levels and merges what has one name, from the top down. */
  method FixLoop(r: Node, ghost nodes: set<Node>, ghost s: Shape) returns (ghost nodes2: set<Node>, ghost s2: Shape)
    requires r in nodes && Rooted(View(nodes), r, s) && RealParents(View(nodes), s, {})
    modifies nodes
    ensures nodes2 <= nodes && r in nodes2
    ensures Rooted(View(nodes2), r, s2) && RealParents(View(nodes2), s2, {r}) && Sorted(View(nodes2))
    ensures SameBelow(old(View(nodes)), s, View(nodes2), s2) && SameSums(old(View(nodes)), View(nodes2), r)
  {
    ghost var v0 := View(nodes);
    FixStarts(v0, s, r);
    var stack := [r.children];
    ghost var fin, owners := {}, [r];
    nodes2, s2 := nodes, s;
    while stack != []
      invariant nodes2 <= nodes
      invariant FixKept(v0, s, View(nodes2), s2, r, fin, owners, stack)
      decreases |nodes2 - fin|
    {
      var n, rest := stack[|stack| - 1], stack[..|stack| - 1];
      SplitLast(stack);
      stack, nodes2, s2, fin, owners := FixLevel(n, rest, nodes2, r, s2, v0, s, fin, owners);
    }
    FixEnds(v0, s, View(nodes2), s2, r, fin, owners);
  }

  /** New parents change neither links nor order nor weights. */
  lemma {:induction false} HandedIsSame(v: Arena, r: Node, s: Shape, w: Arena)
    requires Rooted(v, r, s) && RealParents(v, s, {r}) && w == Handed(v, r, v[r].children)
    ensures Rooted(w, r, s) && RealParents(w, s, {}) && SameBelow(v, s, w, s) && SameSums(v, w, r)
  {
    HandedLinks(v, r, s, w);
    assert forall n | n in v :: w[n].children == v[n].children && w[n].total == v[n].total && w[n].own == v[n].own;
    forall n | n in v
      ensures TotalsOf(w, v[n].children) == TotalsOf(v, v[n].children) && (Adds(v, n, {}, 0) ==> Adds(w, n, {}, 0))
    {
      assert Lists(v, s, n);
      TotalsSame(v, w, v[n].children);
    }
    forall p | p != []
      ensures Weight(w, s, p) == Weight(v, s, p)
    {
      assert At(w, s, p) == At(v, s, p);
    }
  }

  lemma {:induction false} HandedLinks(v: Arena, r: Node, s: Shape, w: Arena)
    requires Rooted(v, r, s) && RealParents(v, s, {r}) && w == Handed(v, r, v[r].children)
    ensures Rooted(w, r, s) && RealParents(w, s, {})
  {
    assert Lists(v, s, r);
    forall n | n in s.par
      ensures Listed(w, s, n) && w[n].parent == s.par[n]
    {
      assert Listed(v, s, n);
    }
    forall n | n in w
      ensures Lists(w, s, n)
    {
      assert Lists(v, s, n);
    }
  }

  /** What fixing a tree comes to: order, the same weight at every path, and the same sums. */
  ghost predicate FixOf(v: Arena, root: seq<Node>, s: Shape, w: Arena, root2: seq<Node>, u: Shape) {
    && WellFormed(w, root2, u) && SameBelow(v, s, w, u)
    && TotalsOf(w, root2) == TotalsOf(v, root) && (Consistent(v) ==> Consistent(w))
  }

  /** A temporary top that is the real parent of the roots. */
  method PlantForReal(t: Tree) returns (r: Node, ghost nodes: set<Node>, ghost s: Shape)
    requires t.Linked()
    modifies t.nodes
    ensures fresh(r) && nodes == t.nodes + {r} && r !in t.nodes
    ensures Rooted(View(nodes), r, s) && RealParents(View(nodes), s, {})
    ensures Planting(old(t.Arena()), t.root, t.shape, View(nodes), r, s)
  {
    ghost var v := t.Arena();
    r, nodes, s := Plant(t);
    ghost var w := View(nodes);
    OpensLinks(v, t.root, t.shape, r, w, s);
    assert Lists(w, s, r);
    HandedIsSame(w, r, s, Handed(w, r, t.root));
    SameOverall(v, t.shape, w, s, Handed(w, r, t.root), s);
    HandOver(r, t.root, nodes);
  }

  /** The tree under its top weighs and sums up to what it did. */
  ghost predicate Planting(v: Arena, root: seq<Node>, s: Shape, w: Arena, r: Node, u: Shape) {
    && SameBelow(v, s, w, u) && r in w && TotalsOf(w, w[r].children) == TotalsOf(v, root) && (Consistent(v) ==> AddsUp(w, r, {}, 0))
  }

  lemma {:induction false} FixIsRight(v: Arena, root: seq<Node>, s: Shape, v1: Arena, r: Node, s1: Shape, v2: Arena, s2: Shape, w: Arena, root2: seq<Node>, u: Shape)
    requires Planting(v, root, s, v1, r, s1) && SameBelow(v1, s1, v2, s2) && SameSums(v1, v2, r)
    requires SameBelow(v2, s2, w, u) && TotalsOf(w, root2) == TotalsOf(v2, v2[r].children) && (AddsUp(v2, r, {}, 0) ==> Consistent(w))
    requires WellFormed(w, root2, u)
    ensures FixOf(v, root, s, w, root2, u)
  {
    SameOverall(v, s, v1, s1, v2, s2);
    SameOverall(v, s, v2, s2, w, u);
  }

  method FixNodes(t: Tree)
    requires t.Linked()
    modifies t, t.nodes
    ensures FixOf(old(t.Arena()), old(t.root), old(t.shape), t.Arena(), t.root, t.shape) && t.nodes <= old(t.nodes)
  {
    ghost var v, root, s := t.Arena(), t.root, t.shape;
    var r, nodes, s1 := PlantForReal(t);
    ghost var v1 := View(nodes);
    ghost var nodes2, s2 := FixLoop(r, nodes, s1);
    ghost var v2 := View(nodes2);
    Close(t, r, nodes2, s2);
    FixIsRight(v, root, s, v1, r, s1, v2, s2, t.Arena(), t.root, t.shape);
  }

  /** Whatever the order and the repeats before: siblings are in strict order after, and no weight moved. */
  method Fix(t: Tree)
    requires t.Linked()
    modifies t, t.nodes
    ensures FixOf(old(t.Arena()), old(t.root), old(t.shape), t.Arena(), t.root, t.shape) && t.nodes <= old(t.nodes)
  {
    if |t.root| == 0 {
      NoRootsNoNodes(t.Arena(), t.shape);
      return;
    }
    FixNodes(t);
  }

  lemma {:induction false} NoNode(v: Arena, s: Shape, n: Node)
    requires Forest(v, [], s) && n in v
    ensures false
    decreases |if n in s.path then s.path[n] else []|
  {
    assert Listed(v, s, n);
    NoNode(v, s, s.par[n]);
  }

  lemma {:induction false} NoRootsNoNodes(v: Arena, s: Shape)
    requires Forest(v, [], s)
    ensures v == map[] && FixOf(v, [], s, v, [], s)
  {
    forall n | n in v
      ensures false
    {
      NoNode(v, s, n);
    }
  }

  // ---- Renaming ----

  ghost function Renamed(fn: Name -> Name, p: seq<Name>): seq<Name> {
    seq(|p|, i requires 0 <= i < |p| => fn(p[i]))
  }

  /** The same tree, with each node at its renamed path. */
  ghost function RenamedShape(s: Shape, fn: Name -> Name): Shape {
    Shape(s.par, map n | n in s.path :: Renamed(fn, s.path[n]))
  }

  /** The nodes of `done` have their new names. */
  ghost function Named(v: Arena, fn: Name -> Name, done: set<Node>): Arena {
    map n | n in v :: if n in done then v[n].(name := fn(v[n].name)) else v[n]
  }

  lemma RenamedLonger(fn: Name -> Name, p: seq<Name>, name: Name)
    ensures Renamed(fn, p + [name]) == Renamed(fn, p) + [fn(name)]
  {
  }

  /** Once every node below `r` has its new name, the tree has its new shape. */
  lemma {:induction false} NamedLinks(v: Arena, root: seq<Node>, s: Shape, fn: Name -> Name)
    requires Forest(v, root, s)
    ensures Forest(Named(v, fn, v.Keys), root, RenamedShape(s, fn))
    ensures Consistent(v) ==> Consistent(Named(v, fn, v.Keys))
    ensures TotalsOf(Named(v, fn, v.Keys), root) == TotalsOf(v, root)
  {
    var w, u := Named(v, fn, v.Keys), RenamedShape(s, fn);
    forall n | n in u.par
      ensures Listed(w, u, n)
    {
      assert Listed(v, s, n);
      RenamedLonger(fn, s.path[s.par[n]], v[n].name);
    }
    forall n | n in w
      ensures Lists(w, u, n) && (Adds(v, n, {}, 0) ==> Adds(w, n, {}, 0))
    {
      NamedKids(v, s, fn, n);
    }
    forall n | n in root
      ensures u.path[n] == [w[n].name]
    {
      RenamedOnce(fn, v[n].name);
    }
    TotalsSame(v, w, root);
  }

  lemma RenamedOnce(fn: Name -> Name, name: Name)
    ensures Renamed(fn, [name]) == [fn(name)]
  {
  }

  lemma {:induction false} NamedKids(v: Arena, s: Shape, fn: Name -> Name, n: Node)
    requires Links(v, s) && n in v
    ensures Lists(Named(v, fn, v.Keys), RenamedShape(s, fn), n)
    ensures Adds(v, n, {}, 0) ==> Adds(Named(v, fn, v.Keys), n, {}, 0)
  {
    assert Lists(v, s, n);
    TotalsSame(v, Named(v, fn, v.Keys), v[n].children);
  }

  /** The weights at the renamed paths do not depend on the names in the nodes. */
  lemma {:induction false} NamedWeighs(v: Arena, s: Shape, fn: Name -> Name)
    ensures SameBelow(v, RenamedShape(s, fn), Named(v, fn, v.Keys), RenamedShape(s, fn))
  {
    var w, u := Named(v, fn, v.Keys), RenamedShape(s, fn);
    forall p | p != []
      ensures Weight(w, u, p) == Weight(v, u, p)
    {
      assert At(w, u, p) == At(v, u, p);
    }
  }

  /** The walk that renames: `done` have their new names, the nodes on the stack come next. */
  ghost predicate Renaming(v0: Arena, r: Node, s: Shape, fn: Name -> Name, v: Arena, done: set<Node>, stack: seq<Node>, fix: bool) {
    && Rooted(v0, r, s) && Visited(v0, s, r, done, stack) && v == Named(v0, fn, done)
    && (!fix ==> forall n | n in done :: fn(v0[n].name) == v0[n].name)
  }

  lemma {:induction false} VisitMoves(v: Arena, s: Shape, r: Node, q: Node, done: set<Node>, front: seq<Node>)
    requires Rooted(v, r, s) && Visited(v, s, r, done, front + [q]) && q in v
    ensures Visited(v, s, r, done + {q}, front + v[q].children)
  {
    assert Lists(v, s, q);
    OwnersGrow(v, s, r, done, front, q, v[q].children);
    assert q in front + [q];
    forall n | n in s.par
      ensures Reached(done + {q}, front + v[q].children, n) <==> s.par[n] in done + {q}
    {
      MovedReach(v, s, v, s, r, q, done, front, v[q].children, n);
    }
    if r != q { assert Reached(done, front + [q], r); }
  }

  method RenameNode(n: Node, rest: seq<Node>, fn: Name -> Name, fix: bool, ghost nodes: set<Node>, ghost v0: Arena, ghost r: Node,
                    ghost s: Shape, ghost done: set<Node>)
    returns (stack: seq<Node>, fix2: bool)
    requires v0.Keys == nodes && n in nodes && Renaming(v0, r, s, fn, View(nodes), done, rest + [n], fix)
    modifies n`name
    ensures n !in done && Renaming(v0, r, s, fn, View(nodes), done + {n}, stack, fix2)
  {
    assert n in rest + [n];
    assert CellOf(n) == v0[n] by { assert View(nodes)[n] == v0[n]; }
    VisitMoves(v0, s, r, n, done, rest);
    var m := n.name;
    n.name := fn(m);
    fix2 := fix || m != n.name;
    stack := rest + n.children;
    assert View(nodes) == Named(v0, fn, done + {n});
  }

  lemma {:induction false} RenamingEnds(v0: Arena, r: Node, s: Shape, fn: Name -> Name, v: Arena, done: set<Node>, fix: bool)
    requires Renaming(v0, r, s, fn, v, done, [], fix)
    ensures v == Named(v0, fn, v0.Keys)
    ensures !fix ==> v == v0 && forall n | n in v0 :: fn(v0[n].name) == v0[n].name
  {
    forall n | n in v0
      ensures n in done
    {
      AllFixed(v0, s, r, done, n);
    }
  }

  lemma {:induction false} RenamingStarts(v: Arena, r: Node, s: Shape, fn: Name -> Name)
    requires Rooted(v, r, s)
    ensures Renaming(v, r, s, fn, v, {}, [r], false)
  {
    assert Named(v, fn, {}) == v;
    forall n | n in s.par
      ensures Reached({}, [r], n) <==> s.par[n] in {}
    {
      assert n != r;
    }
  }

  /** Gives every node its new name, and says whether any name changed. */
  method RenameAll(r: Node, fn: Name -> Name, ghost nodes: set<Node>, ghost s: Shape) returns (fix: bool)
    requires r in nodes && Rooted(View(nodes), r, s)
    modifies nodes
    ensures View(nodes) == Named(old(View(nodes)), fn, nodes)
    ensures !fix ==> View(nodes) == old(View(nodes)) && forall n | n in nodes :: fn(n.name) == n.name
  {
    ghost var v0 := View(nodes);
    RenamingStarts(v0, r, s, fn);
    var stack := [r];
    fix := false;
    ghost var done := {};
    while stack != []
      invariant Renaming(v0, r, s, fn, View(nodes), done, stack, fix)
      decreases |nodes - done|
    {
      var n, rest := stack[|stack| - 1], stack[..|stack| - 1];
      SplitLast(stack);
      assert n in stack;
      stack, fix := RenameNode(n, rest, fn, fix, nodes, v0, r, s, done);
      OneLess(nodes, nodes, done, n);
      done := done + {n};
    }
    RenamingEnds(v0, r, s, fn, View(nodes), done, fix);
  }

  lemma {:induction false} PathStays(v: Arena, root: seq<Node>, s: Shape, fn: Name -> Name, n: Node)
    requires Forest(v, root, s) && n in v && forall m | m in v :: fn(v[m].name) == v[m].name
    ensures Renamed(fn, s.path[n]) == s.path[n]
    decreases |s.path[n]|
  {
    if n in s.par {
      assert Listed(v, s, n);
      PathStays(v, root, s, fn, s.par[n]);
      RenamedLonger(fn, s.path[s.par[n]], v[n].name);
    } else {
      RenamedOnce(fn, v[n].name);
    }
  }

  /** When no name changes there is nothing to do. */
  lemma {:induction false} NothingRenamed(v: Arena, root: seq<Node>, s: Shape, fn: Name -> Name)
    requires WellFormed(v, root, s) && forall n | n in v :: fn(v[n].name) == v[n].name
    ensures FixOf(v, root, RenamedShape(s, fn), v, root, s)
  {
    forall n | n in s.path
      ensures Renamed(fn, s.path[n]) == s.path[n]
    {
      PathStays(v, root, s, fn, n);
    }
    assert RenamedShape(s, fn).path == s.path;
  }

  lemma {:induction false} RenamedThenFixed(v: Arena, root: seq<Node>, s: Shape, fn: Name -> Name, w: Arena, root2: seq<Node>, u: Shape)
    requires Forest(v, root, s) && FixOf(Named(v, fn, v.Keys), root, RenamedShape(s, fn), w, root2, u)
    ensures FixOf(v, root, RenamedShape(s, fn), w, root2, u)
  {
    NamedLinks(v, root, s, fn);
    NamedWeighs(v, s, fn);
    SameOverall(v, RenamedShape(s, fn), Named(v, fn, v.Keys), RenamedShape(s, fn), w, u);
  }

  /** The first half: every node below the temporary top has its new name. */
  method RenameNodes(t: Tree, fn: Name -> Name) returns (fix: bool)
    requires t.Valid()
    modifies t.nodes
    ensures t.Arena() == Named(old(t.Arena()), fn, t.nodes)
    ensures !fix ==> t.Arena() == old(t.Arena()) && forall n | n in t.nodes :: fn(n.name) == n.name
  {
    ghost var v := t.Arena();
    var r, nodes, s := Plant(t);
    ghost var w := View(nodes);
    Opens(v, t.root, t.shape, r, w, s);
    fix := RenameAll(r, fn, nodes, s);
    assert View(nodes) == Named(w, fn, nodes);
    ViewOfSome(nodes, t.nodes);
    BelowTop(v, w, r, fn, t.nodes, View(nodes), t.Arena());
  }

  lemma ViewOfSome(nodes: set<Node>, some: set<Node>)
    requires some <= nodes
    ensures View(some) == map n | n in some :: View(nodes)[n]
  {
  }

  lemma BelowTop(v: Arena, w: Arena, r: Node, fn: Name -> Name, some: set<Node>, w2: Arena, v2: Arena)
    requires v.Keys == some && r !in some && w.Keys == some + {r} && (forall n | n in some :: w[n] == v[n])
    requires w2 == Named(w, fn, some + {r}) && v2 == map n | n in some :: w2[n]
    ensures v2 == Named(v, fn, some) && (w2 == w ==> v2 == v)
  {
  }

  /**
   Afterwards every path has the weight of all the original paths whose names `fn` turns into it; siblings are
   in strict order, and the sums are what they were.
   */
  method FormatNodeNames(t: Tree, fn: Name -> Name)
    requires t.Valid()
    modifies t, t.nodes
    ensures FixOf(old(t.Arena()), old(t.root), RenamedShape(old(t.shape), fn), t.Arena(), t.root, t.shape)
  {
    ghost var v, root, s := t.Arena(), t.root, t.shape;
    var fix := RenameNodes(t, fn);
    if !fix {
      NothingRenamed(v, root, s, fn);
      return;
    }
    FixRenamed(t, fn, v);
  }

  /** Notes the new paths; the nodes stay as they are. */
  ghost method Reshape(t: Tree, s: Shape)
    modifies t`shape
    ensures t.shape == s && t.Arena() == old(t.Arena())
  {
    t.shape := s;
  }

  method FixRenamed(t: Tree, fn: Name -> Name, ghost v: Arena)
    requires Forest(v, t.root, t.shape) && t.Arena() == Named(v, fn, v.Keys)
    modifies t, t.nodes
    ensures FixOf(v, old(t.root), RenamedShape(old(t.shape), fn), t.Arena(), t.root, t.shape)
  {
    ghost var root, s := t.root, t.shape;
    NamedLinks(v, root, s, fn);
    Reshape(t, RenamedShape(s, fn));
    Fix(t);
    RenamedThenFixed(v, root, s, fn, t.Arena(), t.root, t.shape);
  }
}
