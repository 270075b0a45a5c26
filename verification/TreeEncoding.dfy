/** The trees that a writer of the preorder format has in mind, and what a reader owes them. */
module TreeEncoding {
  import opened Ints
  import opened Names
  import opened TreeModel
  import opened Varints

  /** A tree to be written: siblings in any order, names perhaps repeated. */
  datatype Enc = Enc(name: Name, value: nat, kids: seq<Enc>)

  /** Preorder: name, value, number of children, children. */
  ghost function Encode(x: Enc): seq<Byte> {
    Varint(|x.name|) + x.name + Varint(x.value) + Varint(|x.kids|) + EncodeAll(x.kids)
  }

  ghost function EncodeAll(xs: seq<Enc>): seq<Byte> {
    if xs == [] then [] else Encode(xs[0]) + EncodeAll(xs[1..])
  }

  ghost function Reversed(xs: seq<Enc>): (r: seq<Enc>)
    ensures |r| == |xs|
    decreases |xs|
  {
    if xs == [] then [] else Reversed(xs[1..]) + [xs[0]]
  }

  /** Sizes that Go can hold: `make` accepts up to `cap` children. */
  ghost predicate Fits(x: Enc, cap: nat) {
    |x.name| < MAX_UINT64 / 2 && x.value < MAX_UINT64 && |x.kids| <= cap && |x.kids| < MAX_UINT64 && AllFit(x.kids, cap)
  }

  ghost predicate AllFit(xs: seq<Enc>, cap: nat) {
    forall i | 0 <= i < |xs| :: Fits(xs[i], cap)
  }

  // ---- Weights ----

  /** All the weight in a tree, `int64(value)` at each node. */
  ghost function WeightOf(x: Enc): int {
    WrapI64(x.value) + WeightOfAll(x.kids)
  }

  ghost function WeightOfAll(xs: seq<Enc>): int {
    if xs == [] then 0 else WeightOfAll(xs[..|xs| - 1]) + WeightOf(xs[|xs| - 1])
  }

  // ---- Siblings of one name ----

  ghost predicate Has(xs: seq<Enc>, name: Name) {
    exists i :: 0 <= i < |xs| && xs[i].name == name
  }

  /** The last tree of this name: it is the one that stays. */
  ghost function LastOf(xs: seq<Enc>, name: Name): (x: Enc)
    requires Has(xs, name)
    ensures x in xs && x.name == name
    decreases |xs|
  {
    if xs[|xs| - 1].name == name then xs[|xs| - 1] else LastOf(xs[..|xs| - 1], name)
  }

  /** The weight of all the trees of this name. */
  ghost function AllOf(xs: seq<Enc>, name: Name): int
    decreases |xs|
  {
    if xs == [] then 0
    else AllOf(xs[..|xs| - 1], name) + if xs[|xs| - 1].name == name then WeightOf(xs[|xs| - 1]) else 0
  }

  /** The weight of the trees of this name before the last one. */
  ghost function Before(xs: seq<Enc>, name: Name): int
    requires Has(xs, name)
  {
    AllOf(xs, name) - WeightOf(LastOf(xs, name))
  }

  lemma OneMoreName(xs: seq<Enc>, x: Enc, name: Name)
    ensures Has(xs + [x], name) <==> x.name == name || Has(xs, name)
    ensures x.name == name ==> LastOf(xs + [x], name) == x && Before(xs + [x], name) == AllOf(xs, name)
    ensures x.name != name && Has(xs, name) ==> LastOf(xs + [x], name) == LastOf(xs, name) && Before(xs + [x], name) == Before(xs, name)
  {
    var ys := xs + [x];
    assert ys[..|ys| - 1] == xs && ys[|xs|] == x;
    if Has(xs, name) {
      var i :| 0 <= i < |xs| && xs[i].name == name;
      assert ys[i].name == name;
    }
    if Has(ys, name) {
      var i :| 0 <= i < |ys| && ys[i].name == name;
      assert i < |xs| ==> xs[i].name == name;
    }
  }

  lemma HasOfFront(xs: seq<Enc>, name: Name)
    requires xs != []
    ensures Has(xs[..|xs| - 1], name) ==> Has(xs, name)
  {
    var front := xs[..|xs| - 1];
    if Has(front, name) {
      var i :| 0 <= i < |front| && front[i].name == name;
      assert xs[i].name == name;
    }
  }

  lemma {:induction false} NoneOfName(xs: seq<Enc>, name: Name)
    requires !Has(xs, name)
    ensures AllOf(xs, name) == 0
    decreases |xs|
  {
    if xs != [] {
      var front := xs[..|xs| - 1];
      assert xs[|xs| - 1].name != name;
      HasOfFront(xs, name);
      NoneOfName(front, name);
    }
  }

  /**
   Reading loses nothing: below every node that stays, the earlier siblings of the same name, whose nodes it
   takes over, weigh nothing together.
   */
  ghost predicate NoLoss(x: Enc) {
    forall name | Has(x.kids, name) :: Before(x.kids, name) == 0 && NoLoss(LastOf(x.kids, name))
  }

  /** No two siblings share a name. */
  ghost predicate DistinctNames(x: Enc) {
    NamesDiffer(x.kids) && forall i | 0 <= i < |x.kids| :: DistinctNames(x.kids[i])
  }

  ghost predicate NamesDiffer(xs: seq<Enc>) {
    forall i, j | 0 <= i < j < |xs| :: xs[i].name != xs[j].name
  }

  lemma {:induction false} OnlyOfItsName(xs: seq<Enc>, i: nat)
    requires i < |xs| && NamesDiffer(xs)
    ensures Has(xs, xs[i].name) && LastOf(xs, xs[i].name) == xs[i] && Before(xs, xs[i].name) == 0
    decreases |xs|
  {
    var front, last := xs[..|xs| - 1], xs[|xs| - 1];
    FrontDiffers(xs);
    OneMoreName(front, last, xs[i].name);
    if i < |front| {
      assert front[i] == xs[i];
      OnlyOfItsName(front, i);
    } else {
      NoNameBefore(front, last.name);
    }
  }

  lemma FrontDiffers(xs: seq<Enc>)
    requires xs != [] && NamesDiffer(xs)
    ensures var front, last := xs[..|xs| - 1], xs[|xs| - 1];
      xs == front + [last] && NamesDiffer(front) && forall k | 0 <= k < |front| :: front[k].name != last.name
  {
    var front := xs[..|xs| - 1];
    assert forall k | 0 <= k < |front| :: front[k] == xs[k];
  }

  lemma NoNameBefore(xs: seq<Enc>, name: Name)
    requires forall i | 0 <= i < |xs| :: xs[i].name != name
    ensures AllOf(xs, name) == 0
  {
    NoneOfName(xs, name);
  }

  /** A tree whose siblings have distinct names loses nothing. */
  lemma {:induction false} DistinctLosesNothing(x: Enc)
    requires DistinctNames(x)
    ensures NoLoss(x)
    decreases x
  {
    forall name | Has(x.kids, name)
      ensures Before(x.kids, name) == 0 && NoLoss(LastOf(x.kids, name))
    {
      var i :| 0 <= i < |x.kids| && x.kids[i].name == name;
      OnlyOfItsName(x.kids, i);
      DistinctLosesNothing(x.kids[i]);
    }
  }

  /** Two siblings of one name lose the weight of the first. */
  lemma RepeatLoses(name: Name, value: nat, a: Enc, b: Enc)
    requires a.name == b.name && WeightOf(a) != 0
    ensures !NoLoss(Enc(name, value, [a, b]))
  {
    var x := Enc(name, value, [a, b]);
    assert x.kids == [a] + [b] && [a][..0] == [];
    OneMoreName([a], b, b.name);
    assert Has(x.kids, b.name) && Before(x.kids, b.name) == WeightOf(a);
  }

  /** For one: a root that has the child `a` twice, with the weights 1 and 2. What is read does not add up. */
  lemma TwiceLoses()
    ensures !NoLoss(Enc([], 0, [Enc([97], 1, []), Enc([97], 2, [])]))
  {
    RepeatLoses([], 0, Enc([97], 1, []), Enc([97], 2, []));
  }

  // ---- The stack ----

  /** The trees still to come below `n`, in order. */
  ghost function ToCome(P: seq<Node>, T: seq<Enc>, n: Node): seq<Enc>
    requires |P| == |T|
    decreases |P|
  {
    if P == [] then []
    else
      (if P[|P| - 1] == n then [T[|T| - 1]] else []) + ToCome(P[..|P| - 1], T[..|T| - 1], n)
  }

  /** The weight still to come at or below `n`. */
  ghost function Due(s: Shape, P: seq<Node>, T: seq<Enc>, n: Node): int
    requires |P| == |T|
    decreases |P|
  {
    if P == [] then 0
    else
      var p := P[|P| - 1];
      Due(s, P[..|P| - 1], T[..|T| - 1], n)
      + if n in s.path && p in s.path && s.path[n] <= s.path[p] then WeightOf(T[|T| - 1]) else 0
  }

  /** `c`, once for each of its children. */
  function Copies(c: Node, k: nat): (cs: seq<Node>)
    ensures |cs| == k && forall i | 0 <= i < k :: cs[i] == c
  {
    seq(k, _ => c)
  }

  lemma {:induction false} ToComeMore(P: seq<Node>, T: seq<Enc>, c: Node, xs: seq<Enc>, n: Node)
    requires |P| == |T|
    ensures ToCome(P + Copies(c, |xs|), T + Reversed(xs), n) == (if n == c then xs else []) + ToCome(P, T, n)
    decreases |xs|
  {
    var P2, T2 := P + Copies(c, |xs|), T + Reversed(xs);
    if xs == [] {
      assert P2 == P && T2 == T;
    } else {
      assert P2[..|P2| - 1] == P + Copies(c, |xs[1..]|) && T2[..|T2| - 1] == T + Reversed(xs[1..]);
      assert P2[|P2| - 1] == c && T2[|T2| - 1] == xs[0];
      ToComeMore(P, T, c, xs[1..], n);
    }
  }

  lemma {:induction false} FirstWeight(xs: seq<Enc>)
    requires xs != []
    ensures WeightOfAll(xs) == WeightOf(xs[0]) + WeightOfAll(xs[1..])
    decreases |xs|
  {
    if |xs| == 1 {
      assert xs[..0] == [] && xs[1..] == [];
    } else {
      var front := xs[..|xs| - 1];
      FirstWeight(front);
      assert xs[1..][..|xs| - 2] == front[1..] && front[0] == xs[0] && xs[1..][|xs| - 2] == xs[|xs| - 1];
    }
  }

  lemma {:induction false} DueMore(s: Shape, P: seq<Node>, T: seq<Enc>, c: Node, xs: seq<Enc>, n: Node)
    requires |P| == |T|
    ensures Due(s, P + Copies(c, |xs|), T + Reversed(xs), n)
         == Due(s, P, T, n) + if n in s.path && c in s.path && s.path[n] <= s.path[c] then WeightOfAll(xs) else 0
    decreases |xs|
  {
    var P2, T2 := P + Copies(c, |xs|), T + Reversed(xs);
    if xs == [] {
      assert P2 == P && T2 == T;
    } else {
      assert P2[..|P2| - 1] == P + Copies(c, |xs[1..]|) && T2[..|T2| - 1] == T + Reversed(xs[1..]);
      assert P2[|P2| - 1] == c && T2[|T2| - 1] == xs[0];
      DueMore(s, P, T, c, xs[1..], n);
      FirstWeight(xs);
    }
  }

  /** Nothing is due below a node that is not on the stack and has nothing on the stack below it. */
  lemma {:induction false} DueNothing(s: Shape, P: seq<Node>, T: seq<Enc>, n: Node)
    requires |P| == |T| && n in s.path && forall p | p in P && p in s.path :: !(s.path[n] <= s.path[p])
    ensures Due(s, P, T, n) == 0
    decreases |P|
  {
    if P != [] { DueNothing(s, P[..|P| - 1], T[..|T| - 1], n); }
  }

  /** What is due depends on the paths of `n` and of the stack only. */
  lemma {:induction false} DueSame(s: Shape, t: Shape, P: seq<Node>, T: seq<Enc>, n: Node)
    requires |P| == |T| && n in s.path && n in t.path && s.path[n] == t.path[n]
    requires forall p | p in P :: p in s.path && p in t.path && s.path[p] == t.path[p]
    ensures Due(s, P, T, n) == Due(t, P, T, n)
    decreases |P|
  {
    if P != [] { DueSame(s, t, P[..|P| - 1], T[..|T| - 1], n); }
  }
}
