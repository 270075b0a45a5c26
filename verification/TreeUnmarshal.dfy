/** `UnmarshalTree`: reading the preorder format into a tree. */
module TreeUnmarshal {
  import opened Basics
  import opened Ints
  import opened Names
  import opened Varints
  import opened TreeModel
  import opened TreeInsert
  import opened TreeFix
  import opened TreeDecode
  import opened TreeEncoding
  import opened TreeRestored
  import opened TreeParse

  // ---- Reading one node ----

  /** `len` bytes; the slice expression panics when there are fewer. */
  method ReadName(b: seq<Byte>, at: nat, len: nat) returns (status: Status, name: Name, next: nat)
    requires at <= |b|
    ensures status == if len >= MAX_UINT64 / 2 || at + len > |b| then Panics else Read
    ensures status.Read? ==> next == at + len && name == b[at..next]
  {
    if len >= MAX_UINT64 / 2 || at + len > |b| {
      return Panics, [], at;
    }
    status, name, next := Read, b[at..at + len], at + len;
  }

  /** A varint; one that is cut off at the end of the bytes reads as zero without using any. */
  method ReadVarint(b: seq<Byte>, at: nat) returns (status: Status, x: nat, next: nat)
    requires at <= |b|
    ensures status == (if Uvarint(b, at).1 < 0 then Malformed else Read)
    ensures x == Uvarint(b, at).0 && at <= next <= |b|
    ensures status.Read? ==> next == at + Uvarint(b, at).1
  {
    var (value, n) := Uvarint(b, at);
    if n < 0 {
      return Malformed, value, at;
    }
    status, x, next := Read, value, at + n;
  }

  /** The value and the number of children, after the name. */
  method ReadNumbers(b: seq<Byte>, at: nat, name: Name, from: nat, cap: nat) returns (h: Head)
    requires at <= from <= |b|
    ensures h == ReadNumbersOf(b, at, name, from, cap)
  {
    var status, value, next := ReadVarint(b, from);
    if !status.Read? {
      return Failed(status);
    }
    var count;
    status, count, next := ReadVarint(b, next);
    if !status.Read? {
      return Failed(status);
    }
    h := if count > cap then Failed(Panics) else Head(Read, name, value, count, next);
  }

  method ReadHeader(b: seq<Byte>, at: nat, cap: nat) returns (h: Head)
    requires at <= |b|
    ensures h == ReadHead(b, at, cap)
  {
    var status, len, next := ReadVarint(b, at);
    if !status.Read? {
      return Failed(status);
    }
    var name;
    status, name, next := ReadName(b, next, len);
    if !status.Read? {
      return Failed(status);
    }
    h := ReadNumbers(b, at, name, next, cap);
  }

  // ---- Adding it to the tree ----

  /** A tree under construction: in order, with real parents below a top that has none, and `off` as it is off. */
  ghost predicate Built(v: Arena, r: Node, s: Shape, off: map<Node, int>) {
    && Rooted(v, r, s) && Sorted(v) && RealParents(v, s, {}) && v[r].parent == null && Off(v, r, off, {}, 0)
  }

  lemma {:induction false} ClimbStep(v: Arena, r: Node, s: Shape, c: Node, n: Node, x: int, off: map<Node, int>)
    requires Rooted(v, r, s) && Sorted(v) && RealParents(v, s, {}) && c in v && n in s.par && n in v && OnTheWay(r, s, c, n)
    requires Off(Climbed(v, r, s, c, n, x), r, off, {n}, x)
    ensures var w := Climbed(v, r, s, c, n, x); var w2 := w[n := w[n].(total := w[n].total + x)];
      && s.par[n] in v && w[n].parent == s.par[n]
      && w2 == Climbed(v, r, s, c, s.par[n], x) && Off(w2, r, off, {s.par[n]}, x)
      && (s.par[n] == r || (s.par[n] in s.par && OnTheWay(r, s, c, s.par[n])))
      && s.par[n] in s.path && |s.path[s.par[n]]| < |s.path[n]|
  {
    var w := Climbed(v, r, s, c, n, x);
    assert Listed(v, s, n);
    ClimbOn(v, r, s, c, n, x);
    TotalsAreFree(v, r, s, w);
    ClimbIsOff(w, r, s, n, off, x);
  }

  lemma {:induction false} ClimbStarts(v: Arena, r: Node, s: Shape, c: Node, x: int)
    requires Rooted(v, r, s) && Sorted(v) && c in s.par
    ensures Climbed(v, r, s, c, c, x) == v && c in v && OnTheWay(r, s, c, c)
  {
    assert Listed(v, s, c);
  }

  /** On the way up: everything below `n` has its new total, and `n` is late. */
  ghost predicate Climbing(v: Arena, r: Node, s: Shape, c: Node, n: Node, x: int, off: map<Node, int>, w: Arena) {
    && Rooted(v, r, s) && Sorted(v) && RealParents(v, s, {}) && v[r].parent == null && c in v
    && (n == r || (n in s.par && n in v && OnTheWay(r, s, c, n))) && n in s.path
    && w == Climbed(v, r, s, c, n, x) && Off(w, r, off, {n}, x)
  }

  ghost predicate ClimbKept(v: Arena, r: Node, s: Shape, c: Node, n: Node, x: int, off: map<Node, int>, w: Arena) {
    forall u {:trigger Look(u)} | u == w && Look(u) :: Climbing(v, r, s, c, n, x, off, u)
  }

  lemma ClimbOpened(v: Arena, r: Node, s: Shape, c: Node, n: Node, x: int, off: map<Node, int>, w: Arena)
    requires ClimbKept(v, r, s, c, n, x, off, w)
    ensures Climbing(v, r, s, c, n, x, off, w)
  {
    assert Look(w);
  }

  /** The walk is over exactly at the top; elsewhere it goes on to the parent. */
  lemma {:induction false} ClimbNext(v: Arena, r: Node, s: Shape, c: Node, n: Node, x: int, off: map<Node, int>, w: Arena)
    requires ClimbKept(v, r, s, c, n, x, off, w)
    ensures n in w && n in s.path && (w[n].parent == null <==> n == r)
    ensures n != r ==>
      && n in s.par && s.par[n] == w[n].parent && s.par[n] in s.path && s.par[n] in w && |s.path[s.par[n]]| < |s.path[n]|
      && ClimbKept(v, r, s, c, s.par[n], x, off, w[n := w[n].(total := w[n].total + x)])
    ensures n == r ==> w == Climbed(v, r, s, c, r, x) && Off(w, r, off, {}, 0)
  {
    ClimbOpened(v, r, s, c, n, x, off, w);
    if n != r {
      ClimbStep(v, r, s, c, n, x, off);
    } else {
      TopIsNeverLate(w, r, off, x);
    }
  }

  lemma {:induction false} ClimbBegins(v: Arena, r: Node, s: Shape, c: Node, x: int, off: map<Node, int>)
    requires Rooted(v, r, s) && Sorted(v) && RealParents(v, s, {}) && v[r].parent == null && c in s.par && Off(v, r, off, {c}, x)
    ensures ClimbKept(v, r, s, c, c, x, off, v) && c in s.path
  {
    ClimbStarts(v, r, s, c, x);
  }

  /** Adds `x` to the total of `c` and of every node above it but the top. */
  method Climb(c: Node, x: int, ghost nodes: set<Node>, ghost r: Node, ghost s: Shape, ghost off: map<Node, int>)
    requires c in nodes && ClimbKept(View(nodes), r, s, c, c, x, off, View(nodes)) && c in s.path
    modifies nodes
    ensures View(nodes) == Climbed(old(View(nodes)), r, s, c, r, x)
    ensures Off(View(nodes), r, off, {}, 0)
  {
    ghost var v := View(nodes);
    var n := c;
    while n.parent != null
      invariant n in nodes && n in s.path && ClimbKept(v, r, s, c, n, x, off, View(nodes))
      decreases |s.path[n]|
    {
      n := AddHere(n, x, nodes, v, r, s, c, off);
    }
    ClimbNext(v, r, s, c, n, x, off, View(nodes));
    assert View(nodes)[n] == CellOf(n);
  }

  method AddHere(n: Node, x: int, ghost nodes: set<Node>, ghost v: Arena, ghost r: Node, ghost s: Shape, ghost c: Node, ghost off: map<Node, int>)
    returns (next: Node)
    requires n in nodes && n.parent != null && n in s.path && ClimbKept(v, r, s, c, n, x, off, View(nodes))
    modifies n
    ensures next in nodes && next in s.path && |s.path[next]| < |s.path[n]| && ClimbKept(v, r, s, c, next, x, off, View(nodes))
  {
    ghost var w := View(nodes);
    assert w[n] == CellOf(n);
    ClimbNext(v, r, s, c, n, x, off, w);
    n.total := n.total + x;
    assert View(nodes) == w[n := w[n].(total := w[n].total + x)];
    next := n.parent;
  }

  /** `c` without children, with its own weight. */
  method EmptyOut(c: Node, own: int, ghost nodes: set<Node>, ghost s: Shape) returns (ghost nodes2: set<Node>)
    requires c in nodes && !Under(s, c, c)
    modifies c
    ensures nodes2 <= nodes && View(nodes2) == Emptied(old(View(nodes)), s, c, own)
  {
    ghost var v := View(nodes);
    c.children := [];
    c.own := own;
    nodes2 := set m | m in nodes && !Under(s, c, m);
    assert View(nodes2) == Emptied(v, s, c, own);
  }

  ghost predicate BuiltKept(v: Arena, r: Node, s: Shape, off: map<Node, int>) {
    forall u {:trigger Look(u)} | u == v && Look(u) :: Built(u, r, s, off)
  }

  lemma BuiltOpened(v: Arena, r: Node, s: Shape, off: map<Node, int>)
    requires BuiltKept(v, r, s, off)
    ensures Built(v, r, s, off)
  {
    assert Look(v);
  }

  /** What every node is off by after the child `c` took the place of what was there. */
  ghost function OffAfter(v: Arena, off: map<Node, int>, c: Node, had: int): map<Node, int> {
    (if c in v then off else off[c := 0])[c := had]
  }

  lemma {:induction false} ReadyToClimb(v: Arena, r: Node, s: Shape, off: map<Node, int>, w: Arena, u: Shape, n: Node, c: Node, name: Name, val: int)
    requires BuiltKept(v, r, s, off) && Inserted(v, s, w, u, n, c, name) && Rooted(w, r, u) && Sorted(w)
    ensures c in w && !Under(u, c, c) && c in EmptiedShape(u, c).path
    ensures var w2, t := Emptied(w, u, c, val), EmptiedShape(u, c);
      c in w2 && ClimbKept(w2, r, t, c, c, val, OffAfter(v, off, c, w[c].total), w2)
  {
    BuiltOpened(v, r, s, off);
    assert Listed(w, u, c);
    assert RealParents(w, u, {});
    GrownIsOff(v, r, s, w, u, n, c, name, off);
    EmptiedIsOff(w, r, u, c, val, if c in v then off else off[c := 0]);
    EmptiedIsRooted(w, r, u, c, val);
    ClimbBegins(Emptied(w, u, c, val), r, EmptiedShape(u, c), c, val, OffAfter(v, off, c, w[c].total));
  }

  lemma {:induction false} KeptOnTheWay(v: Arena, r: Node, s: Shape, w: Arena, u: Shape, n: Node, c: Node, name: Name, val: int, m: Node)
    requires Inserted(v, s, w, u, n, c, name) && Rooted(w, r, u) && s.path.Keys == v.Keys && c in w && m in w && m != c && !Under(u, c, m)
    ensures KeptNode(v, s, Climbed(Emptied(w, u, c, val), r, EmptiedShape(u, c), c, r, val), EmptiedShape(u, c), r, n, c, val, m)
  {
    if m != r { assert Listed(w, u, m); }
    assert Listed(w, u, c);
  }

  /** Where a new child was put, no sibling had its name. */
  lemma {:induction false} NoNamesake(v: Arena, r: Node, s: Shape, w: Arena, u: Shape, n: Node, c: Node, name: Name)
    requires Rooted(v, r, s) && Inserted(v, s, w, u, n, c, name) && Rooted(w, r, u) && Sorted(w) && c !in v
    ensures forall m | m in v[n].children :: m in v && v[m].name != name
  {
    assert Listed(w, u, c) && SortedAt(w, n) && Lists(v, s, n);
    forall m | m in v[n].children
      ensures v[m].name != name
    {
      if w[m].name == name { SameNameSameChild(w, w[n].children, m, c); }
    }
  }

  /** The children of `n` are those from before and `c`. */
  lemma {:induction false} ChildrenWith(v: Arena, r: Node, s: Shape, w: Arena, u: Shape, n: Node, c: Node, name: Name)
    requires Inserted(v, s, w, u, n, c, name) && Rooted(w, r, u)
    ensures c in w[n].children && (forall m | m in w[n].children :: m in v[n].children || m == c) && forall m | m in v[n].children :: m in w[n].children
  {
    assert Listed(w, u, c);
    if c !in v {
      var i: nat :| i <= |v[n].children| && w == Grown(v, n, v[n].children[..i] + [c] + v[n].children[i..], c, name);
      assert v[n].children == v[n].children[..i] + v[n].children[i..];
    }
  }

  lemma {:induction false} StepIsRight(v: Arena, r: Node, s: Shape, off: map<Node, int>, w: Arena, u: Shape, n: Node, c: Node, name: Name, val: int)
    requires BuiltKept(v, r, s, off) && Inserted(v, s, w, u, n, c, name) && Rooted(w, r, u) && Sorted(w)
    ensures c in w && Stepped(v, s, Climbed(Emptied(w, u, c, val), r, EmptiedShape(u, c), c, r, val), EmptiedShape(u, c), r, n, c, name, val, w[c].total)
  {
    BuiltOpened(v, r, s, off);
    PlaceTaken(v, r, s, w, u, n, c, name);
    NodeIsRead(v, r, s, w, u, n, c, name, val);
    RestIsThere(v, r, s, w, u, n, c, name, val);
    KeptAll(v, r, s, w, u, n, c, name, val);
  }

  lemma {:induction false} PlaceTaken(v: Arena, r: Node, s: Shape, w: Arena, u: Shape, n: Node, c: Node, name: Name)
    requires Rooted(v, r, s) && Inserted(v, s, w, u, n, c, name) && Rooted(w, r, u) && Sorted(w)
    ensures TakesPlace(v, s, n, c, name, w[c].total) && n in s.path && c != r && c != n
  {
    assert Listed(w, u, c);
    ChildrenWith(v, r, s, w, u, n, c, name);
    if c !in v { NoNamesake(v, r, s, w, u, n, c, name); }
  }

  lemma {:induction false} NodeIsRead(v: Arena, r: Node, s: Shape, w: Arena, u: Shape, n: Node, c: Node, name: Name, val: int)
    requires Inserted(v, s, w, u, n, c, name) && Rooted(w, r, u) && s.path.Keys == v.Keys
    ensures var w3, t := Climbed(Emptied(w, u, c, val), r, EmptiedShape(u, c), c, r, val), EmptiedShape(u, c);
      c in w3 && c in t.path && n in s.path && JustRead(w3, t, s.path[n], c, name, val, w[c].total) && (c in s.path ==> s.path[c] == t.path[c])
  {
    assert Listed(w, u, c);
  }

  lemma {:induction false} RestIsThere(v: Arena, r: Node, s: Shape, w: Arena, u: Shape, n: Node, c: Node, name: Name, val: int)
    requires Inserted(v, s, w, u, n, c, name) && Rooted(w, r, u) && s.path.Keys == v.Keys
    ensures var w3, t := Climbed(Emptied(w, u, c, val), r, EmptiedShape(u, c), c, r, val), EmptiedShape(u, c);
      c in t.path && KidsWith(v, w3, n, c) && OnlyBelowGone(v, s, w3, t.path[c])
  {
    assert Listed(w, u, c);
    ChildrenWith(v, r, s, w, u, n, c, name);
  }

  lemma {:induction false} KeptAll(v: Arena, r: Node, s: Shape, w: Arena, u: Shape, n: Node, c: Node, name: Name, val: int)
    requires Inserted(v, s, w, u, n, c, name) && Rooted(w, r, u) && s.path.Keys == v.Keys && c in w
    ensures OthersKept(v, s, Climbed(Emptied(w, u, c, val), r, EmptiedShape(u, c), c, r, val), EmptiedShape(u, c), r, n, c, val)
  {
    var w3, t := Climbed(Emptied(w, u, c, val), r, EmptiedShape(u, c), c, r, val), EmptiedShape(u, c);
    forall m | m in w3 && m != c
      ensures KeptNode(v, s, w3, t, r, n, c, val, m)
    {
      KeptOnTheWay(v, r, s, w, u, n, c, name, val, m);
    }
  }

  /** Totals have no part in how a tree is built. */
  lemma {:induction false} StillBuilt(v: Arena, r: Node, s: Shape, c: Node, x: int, off: map<Node, int>)
    requires Rooted(v, r, s) && Sorted(v) && RealParents(v, s, {}) && v[r].parent == null
    requires Off(Climbed(v, r, s, c, r, x), r, off, {}, 0)
    ensures BuiltKept(Climbed(v, r, s, c, r, x), r, s, off)
  {
    TotalsAreFree(v, r, s, Climbed(v, r, s, c, r, x));
  }

  lemma {:induction false} BuiltAgain(v: Arena, r: Node, s: Shape, off: map<Node, int>, w: Arena, u: Shape, n: Node, c: Node, name: Name, val: int, off2: map<Node, int>)
    requires BuiltKept(v, r, s, off) && Inserted(v, s, w, u, n, c, name) && Rooted(w, r, u) && Sorted(w)
    requires Off(Climbed(Emptied(w, u, c, val), r, EmptiedShape(u, c), c, r, val), r, off2, {}, 0)
    ensures BuiltKept(Climbed(Emptied(w, u, c, val), r, EmptiedShape(u, c), c, r, val), r, EmptiedShape(u, c), off2)
  {
    BuiltOpened(v, r, s, off);
    assert Listed(w, u, c);
    assert RealParents(w, u, {});
    EmptiedIsRooted(w, r, u, c, val);
    StillBuilt(Emptied(w, u, c, val), r, EmptiedShape(u, c), c, val, off2);
  }

  lemma {:induction false} Added(v: Arena, r: Node, s: Shape, off: map<Node, int>, w: Arena, u: Shape, n: Node, c: Node, name: Name, val: int, w3: Arena)
    requires BuiltKept(v, r, s, off) && Inserted(v, s, w, u, n, c, name) && Rooted(w, r, u) && Sorted(w) && c in w
    requires w3 == Climbed(Emptied(w, u, c, val), r, EmptiedShape(u, c), c, r, val) && Off(w3, r, OffAfter(v, off, c, w[c].total), {}, 0)
    ensures BuiltKept(w3, r, EmptiedShape(u, c), OffAfter(v, off, c, w[c].total))
    ensures Stepped(v, s, w3, EmptiedShape(u, c), r, n, c, name, val, w[c].total)
  {
    StepIsRight(v, r, s, off, w, u, n, c, name, val);
    BuiltAgain(v, r, s, off, w, u, n, c, name, val, OffAfter(v, off, c, w[c].total));
  }

  method Place(n: Node, name: Name, ghost nodes: set<Node>, ghost r: Node, ghost s: Shape, ghost off: map<Node, int>)
    returns (c: Node, ghost nodes2: set<Node>, ghost u: Shape)
    requires n in nodes && BuiltKept(View(nodes), r, s, off)
    modifies n`children
    ensures nodes <= nodes2 && fresh(nodes2 - nodes) && c in nodes2
    ensures Rooted(View(nodes2), r, u) && Sorted(View(nodes2))
    ensures Inserted(old(View(nodes)), s, View(nodes2), u, n, c, name)
  {
    BuiltOpened(View(nodes), r, s, off);
    c, nodes2, u := Insert(n, name, nodes, r, s);
  }

  /** Gives `c` its value instead of what it had, and adds the value to the totals on the way up. */
  method Refill(c: Node, val: int, ghost nodes: set<Node>, ghost r: Node, ghost u: Shape, ghost off: map<Node, int>) returns (ghost nodes2: set<Node>)
    requires c in nodes && !Under(u, c, c) && c in EmptiedShape(u, c).path
    requires var w, t := Emptied(View(nodes), u, c, val), EmptiedShape(u, c); c in w && ClimbKept(w, r, t, c, c, val, off, w)
    modifies nodes
    ensures nodes2 <= nodes && c in nodes2
    ensures View(nodes2) == Climbed(Emptied(old(View(nodes)), u, c, val), r, EmptiedShape(u, c), c, r, val) && Off(View(nodes2), r, off, {}, 0)
  {
    nodes2 := EmptyOut(c, val, nodes, u);
    assert c in View(nodes2);
    Climb(c, val, nodes2, r, EmptiedShape(u, c), off);
  }

  /** A node with this name and value below `n`. One that was there before loses its children. */
  method AddNode(n: Node, name: Name, val: int, ghost nodes: set<Node>, ghost r: Node, ghost s: Shape, ghost off: map<Node, int>)
    returns (c: Node, ghost nodes2: set<Node>, ghost t: Shape, ghost had: int)
    requires n in nodes && BuiltKept(View(nodes), r, s, off)
    modifies nodes
    ensures fresh(nodes2 - nodes) && c in nodes2
    ensures BuiltKept(View(nodes2), r, t, OffAfter(old(View(nodes)), off, c, had))
    ensures Stepped(old(View(nodes)), s, View(nodes2), t, r, n, c, name, val, had)
  {
    ghost var v := View(nodes);
    ghost var nodes1, u;
    c, nodes1, u := Place(n, name, nodes, r, s, off);
    ghost var w := View(nodes1);
    ReadyToClimb(v, r, s, off, w, u, n, c, name, val);
    had, t := w[c].total, EmptiedShape(u, c);
    nodes2 := Refill(c, val, nodes1, r, u, OffAfter(v, off, c, had));
    Added(v, r, s, off, w, u, n, c, name, val, View(nodes2));
  }

  // ---- The loop ----

  /**
   Between two nodes. The tree under construction is in order, the parents on the stack are a way down in it, and
   its top has one child once the first node was read. If the bytes hold the tree `x0`, the nodes stand for what
   was read of it.
   */
  ghost predicate Decoding(b: Build, d: Deco, r: Node, off: map<Node, int>, x0: Enc, good: bool) {
    && Built(b.v, r, b.s, off) && Chain(b) && OneTop(b, r)
    && (good ==> Restoring(b, d, r) && Tied(b, d, r, off, x0))
  }

  ghost predicate OneTop(b: Build, r: Node) {
    r in b.v && ((b.P == [r] && b.v[r].children == []) || (r !in b.P && |b.v[r].children| == 1))
  }

  ghost predicate Tied(b: Build, d: Deco, r: Node, off: map<Node, int>, x0: Enc) {
    && r in d.xs && d.xs[r].kids == [x0]
    && forall m | m in b.v && m != r :: m in off && m in d.extra && d.extra[m] == off[m]
  }

  ghost predicate DecodingKept(b: Build, d: Deco, r: Node, off: map<Node, int>, x0: Enc, good: bool) {
    forall u {:trigger Look(u)} | u == b.v && Look(u) :: Decoding(b.(v := u), d, r, off, x0, good)
  }

  lemma DecodingOpened(b: Build, d: Deco, r: Node, off: map<Node, int>, x0: Enc, good: bool)
    requires DecodingKept(b, d, r, off, x0, good)
    ensures Decoding(b, d, r, off, x0, good)
  {
    assert Look(b.v);
    assert b.(v := b.v) == b;
  }

  /** The next parent is in the tree. */
  lemma {:induction false} NextNode(b: Build, d: Deco, r: Node, off: map<Node, int>, x0: Enc, good: bool, n: Node)
    requires DecodingKept(b, d, r, off, x0, good) && b.P != [] && n == b.P[|b.P| - 1]
    ensures |b.T| == |b.P| && n in b.v && BuiltKept(b.v, r, b.s, off)
  {
    DecodingOpened(b, d, r, off, x0, good);
  }

  lemma OnlyOneNode(ns: seq<Node>, c: Node)
    requires Distinct(ns) && c in ns && forall m | m in ns :: m == c
    ensures ns == [c]
  {
    LastApart(ns);
    NoneOrSome(ns[..|ns| - 1]);
    SplitLast(ns);
    assert ns[|ns| - 1] in ns;
  }

  lemma NoneOrSome(ns: seq<Node>)
    ensures ns == [] || exists m :: m in ns
  {
    if ns != [] { assert ns[0] in ns; }
  }

  lemma {:induction false} OneTopAfter(b: Build, w: Arena, t: Shape, r: Node, n: Node, c: Node, x: Enc, had: int)
    requires Aligned(b, w, t, r, n, c, x, had) && OneTop(b, r)
    ensures OneTop(After(b, w, t, c, x), r)
  {
    var front := b.P[..|b.P| - 1];
    if n == r {
      assert b.P == front + [n] && |front| == 0;
      assert Lists(w, t, r) && forall m | m in w[r].children :: m == c;
      OnlyOneNode(w[r].children, c);
    } else {
      assert n in b.P && KeptNode(b.v, b.s, w, t, r, n, c, WrapI64(x.value), r);
    }
    forall p | p in front + Copies(c, |x.kids|)
      ensures p != r
    {
      if p in front {
        var i :| 0 <= i < |front| && front[i] == p;
        assert b.P[i] == p;
      }
    }
  }

  lemma {:induction false} TiedAfter(b: Build, d: Deco, w: Arena, t: Shape, r: Node, n: Node, c: Node, x: Enc, had: int, off: map<Node, int>, x0: Enc)
    requires Reading(b, d, w, t, r, n, c, x, had) && Tied(b, d, r, off, x0)
    ensures Tied(After(b, w, t, c, x), AfterDeco(d, n, c, x, had), r, OffAfter(b.v, off, c, had), x0)
  {
    forall m | m in w && m != r
      ensures m in OffAfter(b.v, off, c, had) && m in AfterDeco(d, n, c, x, had).extra
      ensures AfterDeco(d, n, c, x, had).extra[m] == OffAfter(b.v, off, c, had)[m]
    {
      if m != c { assert KeptNode(b.v, b.s, w, t, r, n, c, WrapI64(x.value), m); }
    }
  }

  ghost function DecoAfter(d: Deco, n: Node, c: Node, x: Enc, had: int): Deco {
    if n in d.past then AfterDeco(d, n, c, x, had) else d
  }

  /** A node was read and added. */
  lemma {:induction false} NodeRead(b: Build, d: Deco, r: Node, off: map<Node, int>, x0: Enc, good: bool,
                                    w: Arena, t: Shape, n: Node, c: Node, x: Enc, had: int)
    requires DecodingKept(b, d, r, off, x0, good) && b.P != [] && n == b.P[|b.P| - 1] && |b.T| == |b.P|
    requires Stepped(b.v, b.s, w, t, r, n, c, x.name, WrapI64(x.value), had) && BuiltKept(w, r, t, OffAfter(b.v, off, c, had))
    requires good ==> x == b.T[|b.T| - 1]
    ensures DecodingKept(After(b, w, t, c, x), DecoAfter(d, n, c, x, had), r, OffAfter(b.v, off, c, had), x0, good)
  {
    DecodingOpened(b, d, r, off, x0, good);
    BuiltOpened(w, r, t, OffAfter(b.v, off, c, had));
    StackSurvives(b, w, t, r, n, c, x.name, WrapI64(x.value), had);
    ChainAfter(b, w, t, r, n, c, x, had);
    OneTopAfter(b, w, t, r, n, c, x, had);
    if good { NodeRestored(b, d, r, off, x0, w, t, n, c, x, had); }
  }

  lemma {:induction false} NodeRestored(b: Build, d: Deco, r: Node, off: map<Node, int>, x0: Enc,
                                        w: Arena, t: Shape, n: Node, c: Node, x: Enc, had: int)
    requires Aligned(b, w, t, r, n, c, x, had) && Restoring(b, d, r) && Tied(b, d, r, off, x0) && x == b.T[|b.T| - 1]
    ensures n in d.past
    ensures var a, e := After(b, w, t, c, x), AfterDeco(d, n, c, x, had); Restoring(a, e, r) && Tied(a, e, r, OffAfter(b.v, off, c, had), x0)
  {
    assert NodeOk(b, d, r, n);
    ReadingKeeps(b, d, w, t, r, n, c, x, had);
    TiedAfter(b, d, w, t, r, n, c, x, had, off, x0);
  }

  ghost function StartOf(r: Node, x0: Enc): Build {
    Build(map[r := Cell(null, [], 0, 0, [])], Shape(map[], map[r := []]), [r], [x0])
  }

  ghost function DecoOf(r: Node, x0: Enc): Deco {
    Deco(map[r := Enc([], 0, [x0])], map[r := []], map[r := 0])
  }

  lemma {:induction false} StartIsBuilt(r: Node, x0: Enc)
    ensures var b := StartOf(r, x0); Built(b.v, r, b.s, map[]) && Chain(b) && OneTop(b, r)
  {
    var b := StartOf(r, x0);
    assert Lists(b.v, b.s, r) && SortedAt(b.v, r);
  }

  lemma {:induction false} StartIsRestoring(r: Node, x0: Enc)
    ensures Restoring(StartOf(r, x0), DecoOf(r, x0), r)
  {
    var b, d := StartOf(r, x0), DecoOf(r, x0);
    assert [x0][..0] == [] && [r][..0] == [];
    assert ToCome([r], [x0], r) == [x0];
    assert d.xs[r].kids == [] + [x0];
    assert NodeOk(b, d, r, r);
    assert [] + [x0] == [x0];
  }

  lemma {:induction false} DecodingStarts(r: Node, x0: Enc, good: bool)
    ensures DecodingKept(StartOf(r, x0), DecoOf(r, x0), r, map[], x0, good)
  {
    StartIsBuilt(r, x0);
    StartIsRestoring(r, x0);
  }

  // ---- The end ----

  /** The shape below the one child of the top. */
  ghost function BelowFirst(s: Shape, r: Node, c: Node): Shape {
    Shape(map n | n in s.par && n != c :: s.par[n], map n | n in s.path && n != r && s.path[n] != [] :: s.path[n][1..])
  }

  lemma {:induction false} FirstIsTop(v: Arena, r: Node, s: Shape, c: Node)
    requires Rooted(v, r, s) && Sorted(v) && RealParents(v, s, {}) && v[r].children == [c]
    ensures Rooted(v - {r}, c, BelowFirst(s, r, c)) && Sorted(v - {r}) && RealParents(v - {r}, BelowFirst(s, r, c), {c})
  {
    var w, t := v - {r}, BelowFirst(s, r, c);
    assert Lists(v, s, r) && Listed(v, s, c);
    assert c in v[r].children;
    forall n | n in s.par
      ensures s.path[n] != [] && (n != c ==> s.par[n] != r)
    {
      assert Listed(v, s, n);
    }
    assert t.par.Keys == w.Keys - {c} && t.path.Keys == w.Keys;
    forall n | n in t.par
      ensures Listed(w, t, n)
    {
      assert Listed(v, s, n) && Listed(v, s, s.par[n]);
    }
    forall n | n in w
      ensures Lists(w, t, n) && SortedAt(w, n)
    {
      assert Lists(v, s, n) && SortedAt(v, n);
    }
  }

  /** The tree adds up exactly when no node in it is off. */
  lemma {:induction false} AddsUpIff(v: Arena, r: Node, s: Shape, c: Node, off: map<Node, int>)
    requires Built(v, r, s, off) && v[r].children == [c]
    ensures Consistent(v - {r} - {c}) <==> forall n | n in v && n != r && n != c :: n in off && off[n] == 0
  {
    var w := v - {r} - {c};
    assert Lists(v, s, r) && c in v[r].children;
    forall n | n in w
      ensures n in off && (Adds(w, n, {}, 0) <==> off[n] == 0)
    {
      assert OffAt(v, n, off, {}, 0) && Lists(v, s, n);
      forall k | k in v[n].children
        ensures k in w
      {
        assert k != c && k != r;
      }
      TotalsSame(v, w, v[n].children);
    }
    if Consistent(w) {
      forall n | n in v && n != r && n != c
        ensures n in off && off[n] == 0
      {
        assert n in w && Adds(w, n, {}, 0);
      }
    }
  }

  /** What was read of `x0`: its children as roots, and sums exactly when it loses nothing. */
  ghost predicate Restored(w: Arena, root: seq<Node>, x0: Enc) {
    ShowsKids(w, root, x0) && (Consistent(w) <==> NoLoss(x0))
  }

  /** Everything was read. */
  lemma {:induction false} DecodingEnds(b: Build, d: Deco, r: Node, off: map<Node, int>, x0: Enc, good: bool)
    returns (c: Node)
    requires DecodingKept(b, d, r, off, x0, good) && b.P == []
    ensures r in b.v && b.v[r].children == [c] && c in b.v && c != r
    ensures Rooted(b.v - {r}, c, BelowFirst(b.s, r, c)) && Sorted(b.v - {r}) && RealParents(b.v - {r}, BelowFirst(b.s, r, c), {c})
    ensures good ==> Restored(b.v - {r} - {c}, b.v[c].children, x0)
  {
    DecodingOpened(b, d, r, off, x0, good);
    c := b.v[r].children[0];
    assert Lists(b.v, b.s, r) && c in b.v[r].children;
    FirstIsTop(b.v, r, b.s, c);
    if good { RestoredAtEnd(b, d, r, off, x0, c); }
  }

  lemma {:induction false} RestoredAtEnd(b: Build, d: Deco, r: Node, off: map<Node, int>, x0: Enc, c: Node)
    requires Built(b.v, r, b.s, off) && b.P == [] && b.T == [] && Restoring(b, d, r) && Tied(b, d, r, off, x0)
    requires b.v[r].children == [c]
    ensures c in b.v && Restored(b.v - {r} - {c}, b.v[c].children, x0)
  {
    var v, w := b.v, b.v - {r} - {c};
    assert Lists(v, b.s, r) && c in v[r].children && NodeOk(b, d, r, r) && ChildOk(b, d, r, c);
    assert d.xs[r].kids == d.past[r] + [] == d.past[r];
    assert [] + [x0] == [x0];
    OneMoreName([], x0, v[c].name);
    assert d.xs[c] == x0 && d.extra[c] == 0;
    NodeShows(b, d, r, c, x0);
    forall n | n in v && n != r
      ensures forall k | k in v[n].children :: k in w
    {
      assert Lists(v, b.s, n);
    }
    ShowsIn(v, w, v[c].children, x0);
    NoLossIffNothingTaken(b, d, r, x0);
    AddsUpIff(v, r, b.s, c, off);
  }

  // ---- UnmarshalTree ----

  /** The whole of the bytes as the parser sees it: one tree, or what stops it. */
  ghost function Whole(b: seq<Byte>, cap: nat): (r: Parsed)
    ensures r.status.Read? ==> |r.xs| == 1
  {
    HeadsAreProper(b, cap);
    Parse(Heads(b, cap), |b|, 0, 1)
  }

  /** From `at` on the parser still finds the trees of the stack, or what stops it. */
  ghost predicate Ahead(b: seq<Byte>, at: nat, cap: nat, whole: Parsed, T: seq<Enc>)
    requires at <= |b|
  {
    HeadsAreProper(b, cap);
    AheadIn(Heads(b, cap), |b|, at, whole, T)
  }

  ghost predicate AheadIn(read: Reader, len: nat, at: nat, whole: Parsed, T: seq<Enc>)
    requires Proper(read, len) && at <= len
  {
    Stacked(Parse(read, len, at, |T|), whole, T)
  }

  ghost predicate Stacked(rest: Parsed, whole: Parsed, T: seq<Enc>) {
    rest.status == whole.status && (whole.status.Read? ==> T == Reversed(rest.xs))
  }

  lemma {:induction false} ReversedConcat(xs: seq<Enc>, ys: seq<Enc>)
    ensures Reversed(xs + ys) == Reversed(ys) + Reversed(xs)
    decreases |xs|
  {
    if xs == [] {
      assert xs + ys == ys;
    } else {
      assert (xs + ys)[1..] == xs[1..] + ys;
      ReversedConcat(xs[1..], ys);
    }
  }

  lemma {:induction false} Starts(b: seq<Byte>, cap: nat, x0: Enc)
    requires Whole(b, cap).status.Read? ==> x0 == Whole(b, cap).xs[0]
    ensures Ahead(b, 0, cap, Whole(b, cap), [x0])
  {
    assert Reversed([x0]) == [x0];
    assert Whole(b, cap).status.Read? ==> Whole(b, cap).xs == [x0];
  }

  /** The header that stops the reading stops the parser, with the same answer. */
  lemma {:induction false} StopsHere(b: seq<Byte>, at: nat, cap: nat, whole: Parsed, T: seq<Enc>)
    requires at <= |b| && Ahead(b, at, cap, whole, T) && T != [] && !ReadHead(b, at, cap).status.Read?
    ensures whole.status == ReadHead(b, at, cap).status
  {
    assert Heads(b, cap)(at) == ReadHead(b, at, cap);
  }

  /** A header that was read is that of the next tree, and its children are next on the stack. */
  lemma {:induction false} GoesOn(b: seq<Byte>, at: nat, cap: nat, whole: Parsed, T: seq<Enc>, x: Enc)
    requires at <= |b| && Ahead(b, at, cap, whole, T) && T != []
    requires var h := ReadHead(b, at, cap); h.status.Read? && |x.kids| == h.count
    requires whole.status.Read? ==> x == T[|T| - 1]
    ensures Ahead(b, ReadHead(b, at, cap).next, cap, whole, T[..|T| - 1] + Reversed(x.kids))
    ensures var h := ReadHead(b, at, cap); whole.status.Read? ==> x.name == h.name && x.value == h.value
  {
    HeadsAreProper(b, cap);
    assert Heads(b, cap)(at) == ReadHead(b, at, cap);
    GoesOnIn(Heads(b, cap), |b|, at, whole, T, x);
  }

  lemma {:induction false} GoesOnIn(read: Reader, len: nat, at: nat, whole: Parsed, T: seq<Enc>, x: Enc)
    requires Proper(read, len) && at <= len && AheadIn(read, len, at, whole, T) && T != []
    requires read(at).status.Read? && |x.kids| == read(at).count && (whole.status.Read? ==> x == T[|T| - 1])
    ensures AheadIn(read, len, read(at).next, whole, T[..|T| - 1] + Reversed(x.kids))
    ensures whole.status.Read? ==> x.name == read(at).name && x.value == read(at).value
  {
    var h := read(at);
    ParseNode(read, len, at, |T|);
    StackMoves(Parse(read, len, at, |T|), Parse(read, len, h.next, h.count + |T| - 1), whole, T, x);
    assert |T[..|T| - 1] + Reversed(x.kids)| == h.count + |T| - 1;
  }

  lemma {:induction false} StackMoves(rest: Parsed, after: Parsed, whole: Parsed, T: seq<Enc>, x: Enc)
    requires Stacked(rest, whole, T) && T != [] && (rest.status.Read? ==> |rest.xs| == |T|) && after.status == rest.status
    requires rest.status.Read? ==> after.xs == rest.xs[0].kids + rest.xs[1..] && x == T[|T| - 1]
    ensures Stacked(after, whole, T[..|T| - 1] + Reversed(x.kids)) && (whole.status.Read? ==> x == rest.xs[0])
  {
    if whole.status.Read? { NextOfStack(rest.xs, T, x); }
  }

  lemma {:induction false} NextOfStack(xs: seq<Enc>, T: seq<Enc>, x: Enc)
    requires xs != [] && T == Reversed(xs) && x == T[|T| - 1]
    ensures x == xs[0] && T[..|T| - 1] + Reversed(x.kids) == Reversed(x.kids + xs[1..])
  {
    ReversedConcat(x.kids, xs[1..]);
  }

  lemma {:induction false} LastIsNext(b: seq<Byte>, at: nat, cap: nat, whole: Parsed, T: seq<Enc>)
    requires at <= |b| && Ahead(b, at, cap, whole, T) && T != [] && ReadHead(b, at, cap).status.Read?
    ensures whole.status.Read? ==> |T[|T| - 1].kids| == ReadHead(b, at, cap).count
  {
    HeadsAreProper(b, cap);
    assert Heads(b, cap)(at) == ReadHead(b, at, cap);
    ParseNode(Heads(b, cap), |b|, at, |T|);
    if whole.status.Read? { NextOfStack(Parse(Heads(b, cap), |b|, at, |T|).xs, T, T[|T| - 1]); }
  }

  /** Children of a node that is not read yet; only their number matters. */
  ghost function Unread(count: nat): (xs: seq<Enc>)
    ensures |xs| == count
  {
    seq(count, _ => Enc([], 0, []))
  }

  /** `c` goes on the stack once for each of its children. */
  method PushCopies(P: seq<Node>, c: Node, count: nat) returns (P2: seq<Node>)
    ensures P2 == P + Copies(c, count)
  {
    P2 := P;
    for i := 0 to count
      invariant P2 == P + Copies(c, i)
    {
      assert Copies(c, i + 1) == Copies(c, i) + [c];
      P2 := P2 + [c];
    }
  }

  /** The ghost state of the loop. */
  datatype Progress = Progress(b: Build, d: Deco, off: map<Node, int>)

  ghost predicate Going(p: Progress, r: Node, x0: Enc, good: bool, P: seq<Node>, nodes: set<Node>)
    reads nodes
  {
    DecodingKept(p.b, p.d, r, p.off, x0, good) && p.b.P == P && |p.b.T| == |P| && p.b.v == View(nodes)
  }

  /** Adds the node that was read, and puts it on the stack for its children. */
  method Attach(P: seq<Node>, n: Node, name: Name, value: nat, count: nat, ghost nodes: set<Node>, ghost r: Node, ghost p: Progress,
                ghost x0: Enc, ghost good: bool, ghost x: Enc)
    returns (P2: seq<Node>, ghost nodes2: set<Node>, ghost q: Progress)
    requires Going(p, r, x0, good, P + [n], nodes) && n in nodes && BuiltKept(p.b.v, r, p.b.s, p.off)
    requires x.name == name && x.value == value && |x.kids| == count
    requires good ==> x == p.b.T[|P|]
    modifies nodes
    ensures fresh(nodes2 - nodes) && Going(q, r, x0, good, P2, nodes2) && |P2| == |P| + count
    ensures q.b.T == p.b.T[..|P|] + Reversed(x.kids)
  {
    ghost var v := View(nodes);
    var c;
    ghost var t, had;
    c, nodes2, t, had := AddNode(n, name, WrapI64(value), nodes, r, p.b.s, p.off);
    ghost var w := View(nodes2);
    NodeRead(p.b, p.d, r, p.off, x0, good, w, t, n, c, x, had);
    P2 := PushCopies(P, c, count);
    q := Progress(After(p.b, w, t, c, x), DecoAfter(p.d, n, c, x, had), OffAfter(v, p.off, c, had));
  }

  /**
   One round: reads a node for the last parent. Either bytes are used, or none are pushed and there is one parent
   less. What stops a round is what stops the parser.
   */
  method Round(b: seq<Byte>, at: nat, P: seq<Node>, n: Node, cap: nat, ghost nodes: set<Node>, ghost r: Node, ghost p: Progress,
               ghost x0: Enc, ghost whole: Parsed)
    returns (status: Status, at2: nat, P2: seq<Node>, ghost nodes2: set<Node>, ghost q: Progress)
    requires at <= |b| && Going(p, r, x0, whole.status.Read?, P + [n], nodes) && Ahead(b, at, cap, whole, p.b.T)
    modifies nodes
    ensures !status.Read? ==> whole.status == status
    ensures status.Read? ==>
      && at <= at2 <= |b| && (at2 > at || |P2| == |P|)
      && fresh(nodes2 - nodes) && Going(q, r, x0, whole.status.Read?, P2, nodes2) && Ahead(b, at2, cap, whole, q.b.T)
  {
    NextNode(p.b, p.d, r, p.off, x0, whole.status.Read?, n);
    var h := ReadHeader(b, at, cap);
    status, at2, P2, nodes2, q := h.status, at, P, nodes, p;
    if !status.Read? {
      StopsHere(b, at, cap, whole, p.b.T);
      return;
    }
    LastIsNext(b, at, cap, whole, p.b.T);
    ghost var x := if whole.status.Read? then p.b.T[|P|] else Enc(h.name, h.value, Unread(h.count));
    GoesOn(b, at, cap, whole, p.b.T, x);
    at2 := h.next;
    P2, nodes2, q := Attach(P, n, h.name, h.value, h.count, nodes, r, p, x0, whole.status.Read?, x);
  }

  datatype Outcome = Tree(tree: Tree) | NoTree(why: Status)

  /**
   For every byte string: the loop ends, and it gives a tree exactly when the parser does, which reads one tree
   and leaves what follows it. What is read of that tree has siblings in order, of each name the last one, every
   value and all totals in place; its totals add up if and only if no repeated name loses weight. When there is
   no tree, the bytes are malformed or the program panics, as the parser says.
   */
  method UnmarshalTree(b: seq<Byte>, cap: nat) returns (o: Outcome)
    ensures |b| < 2 ==> o.Tree? && o.tree.root == []
    ensures |b| >= 2 ==> (o.Tree? <==> Whole(b, cap).status.Read?)
    ensures o.Tree? ==> o.tree.Valid() && fresh(o.tree)
    ensures o.Tree? && |b| >= 2 ==> Restored(o.tree.Arena(), o.tree.root, Whole(b, cap).xs[0])
    ensures o.NoTree? ==> o.why == Whole(b, cap).status
  {
    if |b| < 2 {
      var t := new Tree();
      return Tree(t);
    }
    ghost var whole := Whole(b, cap);
    ghost var x0 := if whole.status.Read? then whole.xs[0] else Enc([], 0, []);
    var r := new Node(null, [], []);
    var P, at := [r], 0;
    ghost var nodes, p := {r}, Progress(StartOf(r, x0), DecoOf(r, x0), map[]);
    DecodingStarts(r, x0, whole.status.Read?);
    Starts(b, cap, x0);
    assert View(nodes) == p.b.v;
    while |P| > 0
      invariant at <= |b| && fresh(nodes) && Going(p, r, x0, whole.status.Read?, P, nodes) && Ahead(b, at, cap, whole, p.b.T)
      decreases |b| - at, |P|
    {
      var n, front := P[|P| - 1], P[..|P| - 1];
      SplitLast(P);
      var status;
      status, at, P, nodes, p := Round(b, at, front, n, cap, nodes, r, p, x0, whole);
      if !status.Read? {
        return NoTree(status);
      }
    }
    var t := TakeTree(r, nodes, p, x0, whole.status.Read?);
    o := Tree(t);
  }

  /** So the bytes written for a tree give that tree back. */
  lemma {:induction false} WrittenComesBack(x: Enc, cap: nat)
    requires Fits(x, cap)
    ensures |Encode(x)| >= 2 && Whole(Encode(x), cap).status.Read? && Whole(Encode(x), cap).xs[0] == x
  {
    EncodingParses(x, cap);
  }

  /** The children of the one node below the top are the roots. */
  method TakeTree(r: Node, ghost nodes: set<Node>, ghost p: Progress, ghost x0: Enc, ghost good: bool)
    returns (t: Tree)
    requires Going(p, r, x0, good, [], nodes)
    ensures fresh(t) && t.Valid() && (good ==> Restored(t.Arena(), t.root, x0))
  {
    ghost var v := View(nodes);
    ghost var c0 := DecodingEnds(p.b, p.d, r, p.off, x0, good);
    assert CellOf(r) == v[r];
    t := CloseBelow(r.children[0], nodes - {r}, BelowFirst(p.b.s, r, c0), v - {r});
  }

  method CloseBelow(c: Node, ghost nodes: set<Node>, ghost s: Shape, ghost v: Arena) returns (t: Tree)
    requires v.Keys == nodes && (forall n | n in nodes :: CellOf(n) == v[n]) && c in nodes
    requires Rooted(v, c, s) && Sorted(v) && RealParents(v, s, {c})
    ensures fresh(t) && t.Valid() && t.Arena() == v - {c} && t.root == v[c].children
  {
    t := new Tree();
    assert View(nodes) == v;
    Close(t, c, nodes, s);
    ViewWithout(nodes, c);
  }

  lemma ViewWithout(nodes: set<Node>, c: Node)
    ensures View(nodes - {c}) == View(nodes) - {c}
  {
  }
}
