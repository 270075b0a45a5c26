/** `Merge`: two trees walked side by side, the destination growing where the source has more. */
module TreeMerge {
  import opened Basics
  import opened Names
  import opened Sums
  import opened TreeModel
  import opened TreeInsert

  /**
   What stays fixed during a merge: the source, the destination as it was, the temporary tops, and whether the
   totals of both trees add up.
   */
  datatype Job = Job(sv: Arena, ss: Shape, sr: Node, dv0: Arena, ds0: Shape, dr: Node, base: int, sums: bool)

  /** What one step hands to the next: the pairs still to visit, what was visited, and what each node is due. */
  datatype State = State(dv: Arena, ds: Shape, S: seq<Node>, D: seq<Node>, done: set<Node>, due: map<Node, int>)

  // ---- The invariant ----

  /** Each pair on the stacks lies at the same path. */
  ghost predicate Paired(j: Job, x: State) {
    |x.S| == |x.D| && forall i | 0 <= i < |x.S| :: PairOk(j, x, x.S[i], x.D[i])
  }

  ghost predicate PairOk(j: Job, x: State, s: Node, d: Node) {
    s in j.sv && s in j.ss.path && d in x.dv && d in x.ds.path && j.ss.path[s] == x.ds.path[d]
  }

  /** A source node has been met exactly when its parent was visited, but for `rest`. */
  ghost predicate Covered(j: Job, x: State, rest: seq<Node>) {
    && Distinct(x.S) && (forall n | n in x.S :: n !in x.done) && x.done <= j.sv.Keys
    && (j.sr in x.done || j.sr in x.S)
    && (forall n {:trigger Met(x, n)} | n in j.ss.par :: Met(x, n) <==> j.ss.par[n] in x.done && n !in rest)
  }

  ghost predicate Met(x: State, n: Node) {
    n in x.done || n in x.S
  }

  ghost function Part(v: Arena, ns: set<Node>): Arena {
    map n | n in v && n in ns :: v[n]
  }

  /** The destination weighs what it did, and what the visited source nodes weigh. */
  ghost predicate Weighed(j: Job, x: State) {
    forall p | p != [] :: Weight(x.dv, x.ds, p) == Weight(j.dv0, j.ds0, p) + Weight(Part(j.sv, x.done), j.ss, p)
  }

  /** The source totals still to be added to `d`. */
  ghost function Pending(j: Job, S: seq<Node>, D: seq<Node>, d: Node): int
    requires |S| == |D|
    decreases |S|
  {
    if S == [] then 0
    else
      var s := S[|S| - 1];
      Pending(j, S[..|S| - 1], D[..|D| - 1], d) + if D[|D| - 1] == d && s in j.sv then j.sv[s].total else 0
  }

  ghost predicate DueOk(j: Job, x: State) {
    |x.S| == |x.D| && x.due.Keys == x.dv.Keys && forall d | d in x.due :: x.due[d] == Pending(j, x.S, x.D, d)
  }

  /** The destination with everything due already counted in the totals. */
  ghost function Settled(v: Arena, due: map<Node, int>): Arena {
    map d | d in v && d in due :: v[d].(total := v[d].total + due[d])
  }

  /** What the totals of the children of `d` have to come to. */
  ghost function Want(j: Job, x: State, d: Node): int
    requires d in x.dv
  {
    if d == j.dr then j.base + (if j.sr in x.done && j.sr in j.sv then TotalsOf(j.sv, j.sv[j.sr].children) else 0)
    else x.dv[d].total - x.dv[d].own
  }

  ghost predicate BalancedAt(j: Job, x: State, d: Node, dt: Node, rest: seq<Node>)
    requires d in x.dv
  {
    j.sums || d == j.dr ==>
      Want(j, x, d) == TotalsOf(Settled(x.dv, x.due), x.dv[d].children) + if d == dt then TotalsOf(j.sv, rest) else 0
  }

  ghost predicate Balanced(j: Job, x: State, dt: Node, rest: seq<Node>) {
    forall d {:trigger BalancedAt(j, x, d, dt, rest)} | d in x.dv :: BalancedAt(j, x, d, dt, rest)
  }

  ghost predicate JobOk(j: Job) {
    Rooted(j.sv, j.sr, j.ss) && (j.sums ==> AddsUp(j.sv, j.sr, {}, 0))
  }

  ghost predicate TreeOk(j: Job, x: State) {
    Rooted(x.dv, j.dr, x.ds) && Sorted(x.dv) && RealParents(x.dv, x.ds, {j.dr})
  }

  /** Between two steps; `st` and `dt` are being visited, with the children `rest` of `st` still to come. */
  ghost predicate Ok(j: Job, x: State, st: Node, dt: Node, rest: seq<Node>) {
    && JobOk(j) && TreeOk(j, x) && Paired(j, x) && Covered(j, x, rest) && Weighed(j, x) && DueOk(j, x) && Balanced(j, x, dt, rest)
    && (rest != [] ==> PairOk(j, x, st, dt) && st in x.done && st !in x.S && forall c | c in rest :: c in j.sv[st].children)
    && Distinct(rest)
  }

  // ---- Taking a pair off the stacks ----

  /** The state after the weights of the last pair were added. */
  ghost function Popped(j: Job, x: State): State
    requires x.S != [] && x.D != [] && x.D[|x.D| - 1] in x.dv && x.S[|x.S| - 1] in j.sv && x.D[|x.D| - 1] in x.due
  {
    var st, dt := x.S[|x.S| - 1], x.D[|x.D| - 1];
    var cell := x.dv[dt].(own := x.dv[dt].own + j.sv[st].own, total := x.dv[dt].total + j.sv[st].total);
    State(x.dv[dt := cell], x.ds, x.S[..|x.S| - 1], x.D[..|x.D| - 1], x.done + {st},
          x.due[dt := x.due[dt] - j.sv[st].total])
  }

  lemma {:induction false} PopTree(j: Job, x: State, st: Node, dt: Node)
    requires x.S != [] && Ok(j, x, st, dt, [])
    ensures x.D != [] && PairOk(j, x, x.S[|x.S| - 1], x.D[|x.D| - 1]) && x.D[|x.D| - 1] in x.due
    ensures TreeOk(j, Popped(j, x)) && Paired(j, Popped(j, x))
    ensures PairOk(j, Popped(j, x), x.S[|x.S| - 1], x.D[|x.D| - 1])
  {
    var s, d := x.S[|x.S| - 1], x.D[|x.D| - 1];
    assert PairOk(j, x, s, d);
    var y := Popped(j, x);
    TotalIsFree(x.dv, j.dr, x.ds, d, y.dv[d]);
    forall i | 0 <= i < |y.S|
      ensures PairOk(j, y, y.S[i], y.D[i])
    {
      assert PairOk(j, x, x.S[i], x.D[i]);
    }
  }

  lemma {:induction false} PopCovers(j: Job, x: State, st: Node, dt: Node)
    requires x.S != [] && Ok(j, x, st, dt, []) && x.D != []
    requires x.D[|x.D| - 1] in x.dv && x.S[|x.S| - 1] in j.sv && x.D[|x.D| - 1] in x.due
    ensures Covered(j, Popped(j, x), j.sv[x.S[|x.S| - 1]].children)
  {
    var s := x.S[|x.S| - 1];
    var y := Popped(j, x);
    assert x.S == y.S + [s];
    assert Lists(j.sv, j.ss, s);
    forall n | n in j.ss.par
      ensures Met(y, n) <==> j.ss.par[n] in y.done && n !in j.sv[s].children
    {
      assert Met(x, n) <==> j.ss.par[n] in x.done;
      assert Listed(j.sv, j.ss, n);
    }
    assert Met(x, j.sr);
  }

  lemma {:induction false} PopWeighs(j: Job, x: State, st: Node, dt: Node)
    requires x.S != [] && Ok(j, x, st, dt, []) && x.D != []
    requires x.D[|x.D| - 1] in x.dv && x.S[|x.S| - 1] in j.sv && x.D[|x.D| - 1] in x.due
    requires PairOk(j, x, x.S[|x.S| - 1], x.D[|x.D| - 1])
    ensures Weighed(j, Popped(j, x))
  {
    var s, d := x.S[|x.S| - 1], x.D[|x.D| - 1];
    var y := Popped(j, x);
    forall p | p != []
      ensures Weight(y.dv, y.ds, p) == Weight(j.dv0, j.ds0, p) + Weight(Part(j.sv, y.done), j.ss, p)
    {
      WeightChange(x.dv, x.ds, d, y.dv[d], p);
      PartGrows(j.sv, j.ss, x.done, s, p);
    }
  }

  lemma PartGrows(v: Arena, s: Shape, ns: set<Node>, n: Node, p: seq<Name>)
    requires n in v && n in s.path && n !in ns
    ensures Weight(Part(v, ns + {n}), s, p) == Weight(Part(v, ns), s, p) + if s.path[n] == p then v[n].own else 0
  {
    if s.path[n] == p {
      assert At(Part(v, ns + {n}), s, p) == At(Part(v, ns), s, p)[n := v[n].own];
      SumSet<Node>(At(Part(v, ns), s, p), n, v[n].own);
    } else {
      assert At(Part(v, ns + {n}), s, p) == At(Part(v, ns), s, p);
    }
  }

  lemma {:induction false} PopDue(j: Job, x: State)
    requires DueOk(j, x) && x.S != [] && x.D[|x.D| - 1] in x.dv && x.S[|x.S| - 1] in j.sv
    ensures DueOk(j, Popped(j, x))
  {
    var y := Popped(j, x);
    forall d | d in y.due
      ensures y.due[d] == Pending(j, y.S, y.D, d)
    {
      assert x.due[d] == Pending(j, x.S, x.D, d);
    }
  }

  lemma {:induction false} PopBalancesAt(j: Job, x: State, s: Node, d: Node, dt: Node, n: Node)
    requires x.S != [] && x.D != [] && s == x.S[|x.S| - 1] && d == x.D[|x.D| - 1] && s in j.sv && d in x.dv && s !in x.done
    requires x.due.Keys == x.dv.Keys && n in x.dv && BalancedAt(j, x, n, dt, []) && Lists(x.dv, x.ds, n)
    requires s == j.sr <==> d == j.dr
    requires j.sums && s != j.sr ==> Adds(j.sv, s, {}, 0)
    ensures BalancedAt(j, Popped(j, x), n, d, j.sv[s].children)
  {
    SettledAlike(x, Popped(j, x), n);
  }

  lemma {:induction false} PopBalances(j: Job, x: State, st: Node, dt: Node)
    requires x.S != [] && Ok(j, x, st, dt, []) && x.D != []
    requires x.D[|x.D| - 1] in x.dv && x.S[|x.S| - 1] in j.sv && x.D[|x.D| - 1] in x.due
    requires PairOk(j, x, x.S[|x.S| - 1], x.D[|x.D| - 1])
    ensures Balanced(j, Popped(j, x), x.D[|x.D| - 1], j.sv[x.S[|x.S| - 1]].children)
  {
    var s, d := x.S[|x.S| - 1], x.D[|x.D| - 1];
    TopsMeet(j, x, s, d);
    if j.sums && s != j.sr { assert Adds(j.sv, s, {}, 0); }
    forall n | n in x.dv
      ensures BalancedAt(j, Popped(j, x), n, d, j.sv[s].children)
    {
      assert BalancedAt(j, x, n, dt, []) && Lists(x.dv, x.ds, n);
      PopBalancesAt(j, x, s, d, dt, n);
    }
  }

  /** Settled totals that agree come to the same sums. */
  lemma SettledAlike(x: State, y: State, n: Node)
    requires n in x.dv && Lists(x.dv, x.ds, n) && x.dv.Keys == x.due.Keys == y.dv.Keys == y.due.Keys
    requires forall c | c in x.dv :: x.dv[c].total + x.due[c] == y.dv[c].total + y.due[c]
    ensures TotalsOf(Settled(x.dv, x.due), x.dv[n].children) == TotalsOf(Settled(y.dv, y.due), x.dv[n].children)
  {
    TotalsSame(Settled(x.dv, x.due), Settled(y.dv, y.due), x.dv[n].children);
  }

  /** The tops are paired with each other only. */
  lemma {:induction false} TopsMeet(j: Job, x: State, s: Node, d: Node)
    requires JobOk(j) && TreeOk(j, x) && PairOk(j, x, s, d)
    ensures s == j.sr <==> d == j.dr
  {
    if s != j.sr { assert Listed(j.sv, j.ss, s); }
    if d != j.dr { assert Listed(x.dv, x.ds, d); }
  }

  lemma {:induction false} PopKeeps(j: Job, x: State, st: Node, dt: Node)
    requires x.S != [] && Ok(j, x, st, dt, [])
    ensures x.D != [] && x.D[|x.D| - 1] in x.dv && x.D[|x.D| - 1] in x.due && x.S[|x.S| - 1] in j.sv
    ensures Ok(j, Popped(j, x), x.S[|x.S| - 1], x.D[|x.D| - 1], j.sv[x.S[|x.S| - 1]].children)
  {
    PopTree(j, x, st, dt);
    PopCovers(j, x, st, dt);
    PopWeighs(j, x, st, dt);
    PopDue(j, x);
    PopBalances(j, x, st, dt);
    var s := x.S[|x.S| - 1];
    assert x.S == Popped(j, x).S + [s];
    assert Lists(j.sv, j.ss, s);
  }

  // ---- Finding the child with the same name ----

  /** The state once the child is there; a new node is due nothing. */
  ghost function Extended(x: State, w: Arena, t: Shape, c: Node): State {
    x.(dv := w, ds := t, due := if c in x.dv then x.due else x.due[c := 0])
  }

  lemma {:induction false} PendingNone(j: Job, S: seq<Node>, D: seq<Node>, d: Node)
    requires |S| == |D| && d !in D
    ensures Pending(j, S, D, d) == 0
    decreases |S|
  {
    if S != [] { PendingNone(j, S[..|S| - 1], D[..|D| - 1], d); }
  }

  lemma {:induction false} ExtendPairs(j: Job, x: State, w: Arena, t: Shape, dt: Node, c: Node, name: Name)
    requires Paired(j, x) && TreeOk(j, x) && Inserted(x.dv, x.ds, w, t, dt, c, name)
    ensures Paired(j, Extended(x, w, t, c))
    ensures forall s, d | PairOk(j, x, s, d) :: PairOk(j, Extended(x, w, t, c), s, d)
  {
    var y := Extended(x, w, t, c);
    forall i | 0 <= i < |y.S|
      ensures PairOk(j, y, y.S[i], y.D[i])
    {
      assert PairOk(j, x, x.S[i], x.D[i]);
    }
  }

  lemma {:induction false} ExtendWeighs(j: Job, x: State, w: Arena, t: Shape, dt: Node, c: Node, name: Name)
    requires Weighed(j, x) && TreeOk(j, x) && Inserted(x.dv, x.ds, w, t, dt, c, name)
    ensures Weighed(j, Extended(x, w, t, c))
  {
    forall p | p != []
      ensures Weight(w, t, p) == Weight(j.dv0, j.ds0, p) + Weight(Part(j.sv, x.done), j.ss, p)
    {
      InsertedWeighsTheSame(x.dv, x.ds, w, t, dt, c, name, p);
    }
  }

  lemma {:induction false} ExtendDue(j: Job, x: State, w: Arena, t: Shape, dt: Node, c: Node, name: Name)
    requires DueOk(j, x) && Paired(j, x) && Inserted(x.dv, x.ds, w, t, dt, c, name)
    ensures DueOk(j, Extended(x, w, t, c))
  {
    if c !in x.dv {
      forall i | 0 <= i < |x.D|
        ensures x.D[i] in x.dv
      {
        assert PairOk(j, x, x.S[i], x.D[i]);
      }
      PendingNone(j, x.S, x.D, c);
    }
  }

  lemma {:induction false} ExtendBalancesAt(j: Job, x: State, w: Arena, t: Shape, dt: Node, i: nat, c: Node, name: Name, rest: seq<Node>, n: Node)
    requires x.due.Keys == x.dv.Keys && n in x.dv && BalancedAt(j, x, n, dt, rest) && Lists(x.dv, x.ds, n)
    requires c !in x.dv && dt in x.dv && i <= |x.dv[dt].children|
    requires w == Grown(x.dv, dt, x.dv[dt].children[..i] + [c] + x.dv[dt].children[i..], c, name)
    ensures BalancedAt(j, Extended(x, w, t, c), n, dt, rest)
  {
    var v, u := Settled(x.dv, x.due), Settled(w, x.due[c := 0]);
    TotalsSame(v, u, x.dv[n].children);
    if n == dt { GrownTotals(v, u, x.dv[n].children, i, c); }
  }

  lemma {:induction false} ExtendBalances(j: Job, x: State, w: Arena, t: Shape, dt: Node, c: Node, name: Name, rest: seq<Node>)
    requires DueOk(j, x) && Balanced(j, x, dt, rest) && TreeOk(j, x) && Inserted(x.dv, x.ds, w, t, dt, c, name)
    ensures Balanced(j, Extended(x, w, t, c), dt, rest)
  {
    var y := Extended(x, w, t, c);
    if c in x.dv {
      assert y == x;
    } else {
      var i: nat :| i <= |x.dv[dt].children|
        && w == Grown(x.dv, dt, x.dv[dt].children[..i] + [c] + x.dv[dt].children[i..], c, name);
      forall n | n in w
        ensures BalancedAt(j, y, n, dt, rest)
      {
        if n != c {
          assert BalancedAt(j, x, n, dt, rest) && Lists(x.dv, x.ds, n);
          ExtendBalancesAt(j, x, w, t, dt, i, c, name, rest, n);
        }
      }
    }
  }

  lemma {:induction false} ExtendKeeps(j: Job, x: State, w: Arena, t: Shape, st: Node, dt: Node, c: Node, name: Name, rest: seq<Node>)
    requires Ok(j, x, st, dt, rest) && rest != [] && Inserted(x.dv, x.ds, w, t, dt, c, name) && Rooted(w, j.dr, t) && Sorted(w)
    ensures Ok(j, Extended(x, w, t, c), st, dt, rest)
  {
    var y := Extended(x, w, t, c);
    InsertedParents(x.dv, j.dr, x.ds, w, t, dt, c, name);
    ExtendPairs(j, x, w, t, dt, c, name);
    ExtendWeighs(j, x, w, t, dt, c, name);
    ExtendDue(j, x, w, t, dt, c, name);
    ExtendBalances(j, x, w, t, dt, c, name, rest);
    forall n | n in j.ss.par
      ensures Met(y, n) <==> j.ss.par[n] in y.done && n !in rest
    {
      assert Met(x, n) <==> j.ss.par[n] in x.done && n !in rest;
    }
  }

  // ---- Putting the pair of children on the stacks ----

  ghost function Pushed(j: Job, x: State, s: Node, d: Node): State
    requires s in j.sv && d in x.due
  {
    x.(S := x.S + [s], D := x.D + [d], due := x.due[d := x.due[d] + j.sv[s].total])
  }

  lemma {:induction false} PushCovers(j: Job, x: State, st: Node, dt: Node, rest: seq<Node>, d: Node)
    requires Ok(j, x, st, dt, rest) && rest != [] && rest[0] in j.sv && d in x.due
    ensures Covered(j, Pushed(j, x, rest[0], d), rest[1..])
  {
    var s := rest[0];
    var y := Pushed(j, x, s, d);
    assert Lists(j.sv, j.ss, st);
    assert rest == [s] + rest[1..];
    assert Met(x, s) <==> j.ss.par[s] in x.done && s !in rest;
    forall n | n in j.ss.par
      ensures Met(y, n) <==> j.ss.par[n] in y.done && n !in rest[1..]
    {
      assert Met(x, n) <==> j.ss.par[n] in x.done && n !in rest;
    }
  }

  lemma {:induction false} PushPairs(j: Job, x: State, s: Node, d: Node)
    requires Paired(j, x) && PairOk(j, x, s, d) && d in x.due
    ensures Paired(j, Pushed(j, x, s, d))
  {
    var y := Pushed(j, x, s, d);
    forall i | 0 <= i < |y.S|
      ensures PairOk(j, y, y.S[i], y.D[i])
    {
      if i < |x.S| { assert PairOk(j, x, x.S[i], x.D[i]); }
    }
  }

  lemma {:induction false} PushDue(j: Job, x: State, s: Node, d: Node)
    requires DueOk(j, x) && s in j.sv && d in x.due
    ensures DueOk(j, Pushed(j, x, s, d))
  {
    var y := Pushed(j, x, s, d);
    assert y.S[..|y.S| - 1] == x.S && y.D[..|y.D| - 1] == x.D;
  }

  lemma {:induction false} PushBalances(j: Job, x: State, dt: Node, rest: seq<Node>, d: Node)
    requires Balanced(j, x, dt, rest) && rest != [] && rest[0] in j.sv && DueOk(j, x) && TreeOk(j, x)
    requires d in x.dv && d in x.ds.par && x.ds.par[d] == dt
    ensures Balanced(j, Pushed(j, x, rest[0], d), dt, rest[1..])
  {
    var y := Pushed(j, x, rest[0], d);
    var v := Settled(x.dv, x.due);
    assert Settled(y.dv, y.due) == v[d := v[d].(total := v[d].total + j.sv[rest[0]].total)];
    FirstTotal(j.sv, rest);
    assert Listed(x.dv, x.ds, d);
    forall n | n in y.dv
      ensures BalancedAt(j, y, n, dt, rest[1..])
    {
      assert BalancedAt(j, x, n, dt, rest);
      assert Lists(x.dv, x.ds, n);
      TotalsChange(v, d, v[d].(total := v[d].total + j.sv[rest[0]].total), x.dv[n].children);
    }
  }

  lemma FirstTotal(v: Arena, kids: seq<Node>)
    requires kids != [] && kids[0] in v
    ensures TotalsOf(v, kids) == v[kids[0]].total + TotalsOf(v, kids[1..])
  {
    assert kids == [kids[0]] + kids[1..] && [kids[0]][..0] == [];
    TotalsConcat(v, [kids[0]], kids[1..]);
  }

  lemma {:induction false} PushKeeps(j: Job, x: State, st: Node, dt: Node, rest: seq<Node>, d: Node)
    requires Ok(j, x, st, dt, rest) && rest != [] && rest[0] in j.sv
    requires d in x.dv && d in x.ds.par && x.ds.par[d] == dt && x.dv[d].name == j.sv[rest[0]].name
    ensures d in x.due && Ok(j, Pushed(j, x, rest[0], d), st, dt, rest[1..])
  {
    var s := rest[0];
    assert Lists(j.sv, j.ss, st);
    assert Listed(j.sv, j.ss, s) && Listed(x.dv, x.ds, d);
    assert PairOk(j, x, s, d);
    PushCovers(j, x, st, dt, rest, d);
    PushPairs(j, x, s, d);
    PushDue(j, x, s, d);
    PushBalances(j, x, dt, rest, d);
    RestShrinks(rest);
    assert j.ss.par[s] == st;
  }

  lemma RestShrinks(rest: seq<Node>)
    requires rest != [] && Distinct(rest)
    ensures Distinct(rest[1..]) && rest[0] !in rest[1..] && (forall n | n in rest[1..] :: n in rest)
  {
  }

  // ---- The start and the end ----

  ghost function Start(j: Job): State {
    State(j.dv0, j.ds0, [j.sr], [j.dr], {}, map d | d in j.dv0 :: 0)
  }

  lemma {:induction false} StartIsOk(j: Job, x: State)
    requires JobOk(j) && x == Start(j) && TreeOk(j, x) && (j.sums ==> AddsUp(j.dv0, j.dr, {}, 0))
    requires j.sv[j.sr].own == 0 && j.sv[j.sr].total == 0 && j.base == TotalsOf(j.dv0, j.dv0[j.dr].children)
    ensures Ok(j, x, j.sr, j.dr, [])
  {
    assert Settled(x.dv, x.due) == x.dv;
    forall n | n in x.dv
      ensures BalancedAt(j, x, n, j.dr, [])
    {
      if j.sums && n != j.dr { assert Adds(x.dv, n, {}, 0); }
    }
    forall n | n in j.ss.par
      ensures Met(x, n) <==> j.ss.par[n] in x.done && n !in []
    {
      assert Listed(j.sv, j.ss, n);
    }
    forall d | d in x.due
      ensures x.due[d] == Pending(j, x.S, x.D, d)
    {
      assert x.S[..0] == [] && x.D[..0] == [];
    }
    forall p | p != []
      ensures Weight(x.dv, x.ds, p) == Weight(j.dv0, j.ds0, p) + Weight(Part(j.sv, x.done), j.ss, p)
    {
      assert At(Part(j.sv, {}), j.ss, p) == map[];
    }
  }

  /** Every source node is reached: its parent was. */
  lemma {:induction false} AllVisited(j: Job, x: State, n: Node)
    requires JobOk(j) && Covered(j, x, []) && x.S == [] && n in j.sv
    ensures n in x.done
    decreases |if n in j.ss.path then j.ss.path[n] else []|
  {
    if n != j.sr {
      assert Listed(j.sv, j.ss, n);
      AllVisited(j, x, j.ss.par[n]);
      assert Met(x, n) <==> j.ss.par[n] in x.done && n !in [];
    }
  }

  /** The weights at every path are those of both trees, everything adds up, and so does the whole. */
  lemma {:induction false} EndIsMerged(j: Job, x: State, st: Node, dt: Node)
    requires Ok(j, x, st, dt, []) && x.S == []
    ensures j.sums ==> AddsUp(x.dv, j.dr, {}, 0)
    ensures SumOfBoth(j.dv0, j.ds0, j.sv, j.ss, x.dv, x.ds)
    ensures TotalsOf(x.dv, x.dv[j.dr].children) == j.base + TotalsOf(j.sv, j.sv[j.sr].children)
  {
    forall n | n in j.sv
      ensures n in x.done
    {
      AllVisited(j, x, n);
    }
    assert Part(j.sv, x.done) == j.sv;
    assert Settled(x.dv, x.due) == x.dv;
    forall n | n in x.dv
      ensures j.sums && n != j.dr ==> Adds(x.dv, n, {}, 0)
    {
      assert BalancedAt(j, x, n, dt, []);
    }
    assert BalancedAt(j, x, j.dr, dt, []);
  }

  // ---- The loops ----
  // They pass the invariant on closed; only the lemmas, which look into it, open it.

  predicate LookAt(x: State) {
    true
  }

  /** The invariant, for those who do not look. */
  ghost predicate Kept(j: Job, x: State, st: Node, dt: Node, rest: seq<Node>) {
    forall y {:trigger LookAt(y)} | y == x && LookAt(y) :: Ok(j, y, st, dt, rest)
  }

  lemma Opened(j: Job, x: State, st: Node, dt: Node, rest: seq<Node>)
    requires Kept(j, x, st, dt, rest)
    ensures Ok(j, x, st, dt, rest)
  {
    assert LookAt(x);
  }

  lemma KeptTree(j: Job, x: State, st: Node, dt: Node, rest: seq<Node>)
    requires Kept(j, x, st, dt, rest)
    ensures TreeOk(j, x)
  {
    Opened(j, x, st, dt, rest);
  }

  lemma {:induction false} PopKept(j: Job, x: State, st: Node, dt: Node)
    requires x.S != [] && Kept(j, x, st, dt, [])
    ensures x.D != [] && x.D[|x.D| - 1] in x.dv && x.D[|x.D| - 1] in x.due && x.S[|x.S| - 1] in j.sv
    ensures Kept(j, Popped(j, x), x.S[|x.S| - 1], x.D[|x.D| - 1], j.sv[x.S[|x.S| - 1]].children)
    ensures x.done < Popped(j, x).done <= j.sv.Keys
  {
    Opened(j, x, st, dt, []);
    PopKeeps(j, x, st, dt);
  }

  lemma {:induction false} EndKept(j: Job, x: State, st: Node, dt: Node)
    requires Kept(j, x, st, dt, []) && x.S == []
    ensures TreeOk(j, x) && j.sr in j.sv && (j.sums ==> AddsUp(x.dv, j.dr, {}, 0)) && SumOfBoth(j.dv0, j.ds0, j.sv, j.ss, x.dv, x.ds)
    ensures TotalsOf(x.dv, x.dv[j.dr].children) == j.base + TotalsOf(j.sv, j.sv[j.sr].children)
  {
    Opened(j, x, st, dt, []);
    EndIsMerged(j, x, st, dt);
  }

  lemma {:induction false} StartKept(j: Job)
    requires JobOk(j) && TreeOk(j, Start(j)) && (j.sums ==> AddsUp(j.dv0, j.dr, {}, 0))
    requires j.sv[j.sr].own == 0 && j.sv[j.sr].total == 0 && j.base == TotalsOf(j.dv0, j.dv0[j.dr].children)
    ensures Kept(j, Start(j), j.sr, j.dr, [])
  {
    StartIsOk(j, Start(j));
  }

  /** The stacks and the nodes are what the state says, and the source is untouched. */
  ghost predicate Held(j: Job, x: State, snodes: set<Node>, dnodes: set<Node>, S: seq<Node>, D: seq<Node>)
    reads snodes, dnodes
  {
    snodes !! dnodes && View(snodes) == j.sv && View(dnodes) == x.dv && x.S == S && x.D == D
  }

  lemma {:induction false} ChildVisited(j: Job, x: State, w: Arena, t: Shape, st: Node, dt: Node, dc: Node, sc: Node, rest: seq<Node>)
    returns (y: State)
    requires Kept(j, x, st, dt, rest) && rest != [] && rest[0] == sc && sc in j.sv
    requires Inserted(x.dv, x.ds, w, t, dt, dc, j.sv[sc].name) && Rooted(w, j.dr, t) && Sorted(w)
    ensures y.dv == w && y.S == x.S + [sc] && y.D == x.D + [dc] && y.done == x.done && Kept(j, y, st, dt, rest[1..])
  {
    Opened(j, x, st, dt, rest);
    ExtendKeeps(j, x, w, t, st, dt, dc, j.sv[sc].name, rest);
    PushKeeps(j, Extended(x, w, t, dc), st, dt, rest, dc);
    y := Pushed(j, Extended(x, w, t, dc), sc, dc);
  }

  method VisitChild(st: Node, dt: Node, sc: Node, S: seq<Node>, D: seq<Node>, ghost snodes: set<Node>, ghost dnodes: set<Node>,
                    ghost j: Job, ghost x: State, ghost rest: seq<Node>)
    returns (dc: Node, ghost dnodes2: set<Node>, ghost y: State)
    requires Held(j, x, snodes, dnodes, S, D) && dt in dnodes && sc in snodes
    requires rest != [] && rest[0] == sc && Kept(j, x, st, dt, rest)
    modifies dt`children
    ensures dnodes <= dnodes2 && fresh(dnodes2 - dnodes)
    ensures Held(j, y, snodes, dnodes2, S + [sc], D + [dc]) && Kept(j, y, st, dt, rest[1..]) && y.done == x.done
  {
    ghost var w, t;
    KeptTree(j, x, st, dt, rest);
    dc, dnodes2, w, t := InsertInto(dt, sc.name, snodes, dnodes, j, x);
    y := ChildVisited(j, x, w, t, st, dt, dc, sc, rest);
  }

  /** `Insert` leaves the source as it is. */
  method InsertInto(dt: Node, name: Name, ghost snodes: set<Node>, ghost dnodes: set<Node>, ghost j: Job, ghost x: State)
    returns (dc: Node, ghost dnodes2: set<Node>, ghost w: Arena, ghost t: Shape)
    requires Held(j, x, snodes, dnodes, x.S, x.D) && dt in dnodes && TreeOk(j, x)
    modifies dt`children
    ensures dnodes <= dnodes2 && fresh(dnodes2 - dnodes) && snodes !! dnodes2 && View(snodes) == j.sv && View(dnodes2) == w
    ensures Inserted(x.dv, x.ds, w, t, dt, dc, name) && Rooted(w, j.dr, t) && Sorted(w)
  {
    dc, dnodes2, t := Insert(dt, name, dnodes, j.dr, x.ds);
    w := View(dnodes2);
  }

  method VisitChildren(st: Node, dt: Node, S0: seq<Node>, D0: seq<Node>, ghost snodes: set<Node>, ghost dnodes: set<Node>,
                       ghost j: Job, ghost x: State)
    returns (S: seq<Node>, D: seq<Node>, ghost dnodes2: set<Node>, ghost y: State)
    requires Held(j, x, snodes, dnodes, S0, D0) && dt in dnodes && st in snodes
    requires Kept(j, x, st, dt, st.children)
    modifies dnodes
    ensures dnodes <= dnodes2 && fresh(dnodes2 - dnodes)
    ensures Held(j, y, snodes, dnodes2, S, D) && Kept(j, y, st, dt, []) && y.done == x.done
  {
    S, D, dnodes2, y := S0, D0, dnodes, x;
    ghost var kids := st.children;
    assert kids[0..] == kids;
    for i := 0 to |st.children|
      invariant st.children == kids && dnodes <= dnodes2 && fresh(dnodes2 - dnodes)
      invariant Held(j, y, snodes, dnodes2, S, D) && Kept(j, y, st, dt, kids[i..]) && y.done == x.done
    {
      var sc := st.children[i];
      NextChild(j, y, st, dt, kids, i);
      var dc;
      dc, dnodes2, y := VisitChild(st, dt, sc, S, D, snodes, dnodes2, j, y, kids[i..]);
      S, D := S + [sc], D + [dc];
    }
    assert kids[|kids|..] == [];
  }

  lemma NextChild(j: Job, x: State, st: Node, dt: Node, kids: seq<Node>, i: nat)
    requires i < |kids| && Kept(j, x, st, dt, kids[i..])
    ensures kids[i..] != [] && kids[i..][0] == kids[i] && kids[i..][1..] == kids[i + 1..] && kids[i] in j.sv
  {
    Opened(j, x, st, dt, kids[i..]);
    assert kids[i..][0] in j.sv[st].children;
    assert Lists(j.sv, j.ss, st);
  }

  /** Takes the last pair, adds the weights, and puts the pairs of children on the stacks. */
  method Visit(S0: seq<Node>, D0: seq<Node>, ghost snodes: set<Node>, ghost dnodes: set<Node>, ghost j: Job, ghost x: State,
               ghost st0: Node, ghost dt0: Node)
    returns (S: seq<Node>, D: seq<Node>, ghost dnodes2: set<Node>, ghost y: State, ghost st: Node, ghost dt: Node)
    requires Held(j, x, snodes, dnodes, S0, D0) && S0 != [] && Kept(j, x, st0, dt0, [])
    modifies dnodes
    ensures dnodes <= dnodes2 && fresh(dnodes2 - dnodes)
    ensures Held(j, y, snodes, dnodes2, S, D) && Kept(j, y, st, dt, []) && x.done < y.done <= j.sv.Keys
  {
    PopKept(j, x, st0, dt0);
    var s, d := S0[|S0| - 1], D0[|D0| - 1];
    ghost var p := Popped(j, x);
    AddWeights(s, d, snodes, dnodes, j, x);
    S, D, dnodes2, y := VisitChildren(s, d, S0[..|S0| - 1], D0[..|D0| - 1], snodes, dnodes, j, p);
    st, dt := s, d;
  }

  method AddWeights(s: Node, d: Node, ghost snodes: set<Node>, ghost dnodes: set<Node>, ghost j: Job, ghost x: State)
    requires Held(j, x, snodes, dnodes, x.S, x.D) && x.S != [] && x.D != [] && s == x.S[|x.S| - 1] && d == x.D[|x.D| - 1]
    requires s in snodes && d in dnodes && d in x.due
    modifies d
    ensures View(snodes) == j.sv && View(dnodes) == Popped(j, x).dv
  {
    d.own := d.own + s.own;
    d.total := d.total + s.total;
  }

  /** Both trees node by node, with a stack of nodes for each. */
  method VisitAll(sr: Node, dr: Node, ghost snodes: set<Node>, ghost dnodes: set<Node>, ghost j: Job)
    returns (ghost dnodes2: set<Node>, ghost x: State, ghost st: Node, ghost dt: Node)
    requires Held(j, Start(j), snodes, dnodes, [sr], [dr]) && Kept(j, Start(j), sr, dr, [])
    modifies dnodes
    ensures dnodes <= dnodes2 && fresh(dnodes2 - dnodes)
    ensures View(snodes) == j.sv && View(dnodes2) == x.dv && x.S == [] && Kept(j, x, st, dt, [])
  {
    var S, D := [sr], [dr];
    x, st, dt := Start(j), sr, dr;
    dnodes2 := dnodes;
    while S != []
      invariant dnodes <= dnodes2 && fresh(dnodes2 - dnodes)
      invariant Held(j, x, snodes, dnodes2, S, D) && Kept(j, x, st, dt, [])
      decreases |j.sv.Keys - x.done|
    {
      ghost var before := x.done;
      S, D, dnodes2, x, st, dt := Visit(S, D, snodes, dnodes2, j, x, st, dt);
      FewerLeft(j.sv.Keys, before, x.done);
    }
  }

  /** Walks both trees until nothing is left. */
  method MergeLoop(sr: Node, dr: Node, ghost snodes: set<Node>, ghost dnodes: set<Node>, ghost j: Job)
    returns (ghost dnodes2: set<Node>, ghost s2: Shape)
    requires Held(j, Start(j), snodes, dnodes, [sr], [dr]) && j.sr == sr && j.dr == dr
    requires Kept(j, Start(j), sr, dr, []) && sr in snodes
    modifies dnodes
    ensures dnodes <= dnodes2 && fresh(dnodes2 - dnodes) && dr in dnodes2 && View(snodes) == j.sv
    ensures Rooted(View(dnodes2), dr, s2) && Sorted(View(dnodes2)) && RealParents(View(dnodes2), s2, {dr})
    ensures (j.sums ==> AddsUp(View(dnodes2), dr, {}, 0)) && SumOfBoth(j.dv0, j.ds0, j.sv, j.ss, View(dnodes2), s2)
    ensures TotalsOf(View(dnodes2), dr.children) == j.base + TotalsOf(j.sv, j.sv[sr].children)
  {
    ghost var x, st, dt;
    dnodes2, x, st, dt := VisitAll(sr, dr, snodes, dnodes, j);
    EndKept(j, x, st, dt);
    s2 := x.ds;
  }

  lemma FewerLeft(all: set<Node>, before: set<Node>, after: set<Node>)
    requires before < after <= all
    ensures |all - after| < |all - before|
  {
    var n :| n in after && n !in before;
    assert all - after <= all - before - {n};
    SubsetSize(all - after, all - before - {n});
  }

  /** At every path, the weight of the one tree and of the other. */
  ghost predicate SumOfBoth(v: Arena, s: Shape, v2: Arena, s2: Shape, w: Arena, u: Shape) {
    forall p | p != [] :: Weight(w, u, p) == Weight(v, s, p) + Weight(v2, s2, p)
  }

  method Total(t: Tree) returns (x: int)
    requires t.Valid()
    ensures x == TotalsOf(t.Arena(), t.root)
  {
    x := 0;
    for i := 0 to |t.root|
      invariant x == TotalsOf(t.Arena(), t.root[..i])
    {
      assert t.root[..i + 1][..i] == t.root[..i];
      assert t.root[i] in t.nodes;
      x := x + t.root[i].total;
    }
    assert t.root[..|t.root|] == t.root;
  }

  /** The job is about these two trees. */
  ghost predicate About(j: Job, tv: Arena, ts: Shape, tt: int, sv: Arena, ss: Shape, st: int) {
    && SameBelow(tv, ts, j.dv0, j.ds0) && SameBelow(sv, ss, j.sv, j.ss)
    && j.base == tt && j.sr in j.sv && TotalsOf(j.sv, j.sv[j.sr].children) == st
  }

  /** `w` is the tree `v` under a temporary top. */
  ghost predicate TopOf(v: Arena, root: seq<Node>, s: Shape, r: Node, w: Arena, u: Shape) {
    && WellFormed(v, root, s) && r !in v
    && w == v[r := Cell(null, root, 0, 0, [])] && u == Planted(s, root, r)
  }

  lemma {:induction false} Prepare(j: Job, tv: Arena, tr: seq<Node>, ts: Shape, sv0: Arena, sr0: seq<Node>, ss0: Shape)
    requires TopOf(tv, tr, ts, j.dr, j.dv0, j.ds0) && TopOf(sv0, sr0, ss0, j.sr, j.sv, j.ss) && j.base == TotalsOf(j.dv0, tr)
    requires j.sums ==> Consistent(tv) && Consistent(sv0)
    ensures Kept(j, Start(j), j.sr, j.dr, [])
    ensures About(j, tv, ts, TotalsOf(tv, tr), sv0, ss0, TotalsOf(sv0, sr0))
  {
    Opens(tv, tr, ts, j.dr, j.dv0, j.ds0);
    Opens(sv0, sr0, ss0, j.sr, j.sv, j.ss);
    StartKept(j);
  }

  /** Both trees under temporary tops, and what the tops list. */
  method PlantBoth(t: Tree, src: Tree, ghost sums: bool)
    returns (sr: Node, dr: Node, ghost snodes: set<Node>, ghost dnodes: set<Node>, ghost j: Job)
    requires t.nodes !! src.nodes
    ensures fresh(sr) && fresh(dr) && snodes == src.nodes + {sr} && dnodes == t.nodes + {dr} && snodes !! dnodes
    ensures View(snodes) == src.Arena()[sr := Cell(null, src.root, 0, 0, [])]
    ensures View(dnodes) == t.Arena()[dr := Cell(null, t.root, 0, 0, [])]
    ensures j == Job(View(snodes), Planted(src.shape, src.root, sr), sr, View(dnodes), Planted(t.shape, t.root, dr), dr, TotalsOf(View(dnodes), t.root), sums)
  {
    ghost var s, d;
    sr, snodes, s := Plant(src);
    dr, dnodes, d := Plant(t);
    j := Job(View(snodes), s, sr, View(dnodes), d, dr, TotalsOf(View(dnodes), t.root), sums);
  }

  /** Everything the walk starts from, closed. */
  ghost predicate Ready(j: Job, sr: Node, dr: Node, tv: Arena, tr: seq<Node>, ts: Shape, sv: Arena, srt: seq<Node>, ss: Shape) {
    forall x {:trigger LookAt(x)} | x == Start(j) && LookAt(x) ::
      && j.sr == sr && j.dr == dr && Kept(j, x, sr, dr, []) && About(j, tv, ts, TotalsOf(tv, tr), sv, ss, TotalsOf(sv, srt))
      && (j.sums <==> Consistent(tv) && Consistent(sv))
  }

  lemma ReadyOpened(j: Job, sr: Node, dr: Node, tv: Arena, tr: seq<Node>, ts: Shape, sv: Arena, srt: seq<Node>, ss: Shape)
    requires Ready(j, sr, dr, tv, tr, ts, sv, srt, ss)
    ensures j.sr == sr && j.dr == dr && Kept(j, Start(j), sr, dr, []) && About(j, tv, ts, TotalsOf(tv, tr), sv, ss, TotalsOf(sv, srt))
    ensures j.sums <==> Consistent(tv) && Consistent(sv)
  {
    assert LookAt(Start(j));
  }

  method Begin(t: Tree, src: Tree)
    returns (sr: Node, dr: Node, ghost snodes: set<Node>, ghost dnodes: set<Node>, ghost j: Job)
    requires t.Valid() && src.Valid() && t.nodes !! src.nodes
    ensures fresh(dr) && sr in snodes && dnodes == t.nodes + {dr}
    ensures Held(j, Start(j), snodes, dnodes, [sr], [dr])
    ensures Ready(j, sr, dr, t.Arena(), t.root, t.shape, src.Arena(), src.root, src.shape)
  {
    sr, dr, snodes, dnodes, j := PlantBoth(t, src, t.Sums() && src.Sums());
    Prepare(j, t.Arena(), t.root, t.shape, src.Arena(), src.root, src.shape);
  }

  /** What the walk leaves below the temporary top. */
  ghost predicate WalkedBoth(sums: bool, tv: Arena, ts: Shape, tt: int, sv: Arena, ss: Shape, st: int, w: Arena, r: Node, u: Shape) {
    && r in w && (sums ==> AddsUp(w, r, {}, 0)) && SumOfBoth(tv, ts, sv, ss, w, u) && TotalsOf(w, w[r].children) == tt + st
  }

  lemma {:induction false} Walked(j: Job, tv: Arena, ts: Shape, tt: int, sv: Arena, ss: Shape, st: int, w: Arena, u: Shape)
    requires About(j, tv, ts, tt, sv, ss, st) && SumOfBoth(j.dv0, j.ds0, j.sv, j.ss, w, u)
    requires j.dr in w && (j.sums ==> AddsUp(w, j.dr, {}, 0))
    requires TotalsOf(w, w[j.dr].children) == j.base + TotalsOf(j.sv, j.sv[j.sr].children)
    ensures WalkedBoth(j.sums, tv, ts, tt, sv, ss, st, w, j.dr, u)
  {
    forall p | p != []
      ensures Weight(w, u, p) == Weight(tv, ts, p) + Weight(sv, ss, p)
    {
      assert Weight(w, u, p) == Weight(j.dv0, j.ds0, p) + Weight(j.sv, j.ss, p);
    }
  }

  /** Walks both trees side by side, under temporary tops. */
  method WalkTops(sr: Node, dr: Node, ghost snodes: set<Node>, ghost dnodes: set<Node>, ghost j: Job,
                  ghost tv: Arena, ghost tr: seq<Node>, ghost ts: Shape, ghost sv: Arena, ghost srt: seq<Node>, ghost ss: Shape)
    returns (ghost nodes: set<Node>, ghost s: Shape)
    requires Held(j, Start(j), snodes, dnodes, [sr], [dr]) && sr in snodes && Ready(j, sr, dr, tv, tr, ts, sv, srt, ss)
    modifies dnodes
    ensures fresh(nodes - dnodes) && dr in nodes
    ensures Rooted(View(nodes), dr, s) && Sorted(View(nodes)) && RealParents(View(nodes), s, {dr})
    ensures WalkedBoth(Consistent(tv) && Consistent(sv), tv, ts, TotalsOf(tv, tr), sv, ss, TotalsOf(sv, srt), View(nodes), dr, s)
  {
    ReadyOpened(j, sr, dr, tv, tr, ts, sv, srt, ss);
    nodes, s := MergeLoop(sr, dr, snodes, dnodes, j);
    Walked(j, tv, ts, TotalsOf(tv, tr), sv, ss, TotalsOf(sv, srt), View(nodes), s);
  }

  lemma {:induction false} WalkedIsMerged(tv: Arena, tr: seq<Node>, ts: Shape, sv: Arena, sr: seq<Node>, ss: Shape,
                                          v: Arena, r: Node, s: Shape, w: Arena, root: seq<Node>, u: Shape)
    requires WalkedBoth(Consistent(tv) && Consistent(sv), tv, ts, TotalsOf(tv, tr), sv, ss, TotalsOf(sv, sr), v, r, s)
    requires WellFormed(w, root, u) && SameBelow(v, s, w, u) && TotalsOf(w, root) == TotalsOf(v, v[r].children)
    requires AddsUp(v, r, {}, 0) ==> Consistent(w)
    ensures MergeOf(tv, tr, ts, sv, sr, ss, w, root, u)
  {
    forall p | p != []
      ensures Weight(w, u, p) == Weight(tv, ts, p) + Weight(sv, ss, p)
    {
      assert Weight(v, s, p) == Weight(tv, ts, p) + Weight(sv, ss, p);
    }
  }

  /** The walk, and back to roots. */
  method MergeTops(t: Tree, sr: Node, dr: Node, ghost snodes: set<Node>, ghost dnodes: set<Node>, ghost j: Job,
                   ghost tv: Arena, ghost tr: seq<Node>, ghost ts: Shape, ghost sv: Arena, ghost srt: seq<Node>, ghost ss: Shape)
    requires Held(j, Start(j), snodes, dnodes, [sr], [dr]) && sr in snodes && Ready(j, sr, dr, tv, tr, ts, sv, srt, ss)
    modifies t, dnodes
    ensures dr !in t.nodes && fresh(t.nodes - dnodes)
    ensures MergeOf(tv, tr, ts, sv, srt, ss, t.Arena(), t.root, t.shape)
  {
    ghost var nodes, s := WalkTops(sr, dr, snodes, dnodes, j, tv, tr, ts, sv, srt, ss);
    ghost var v := View(nodes);
    Close(t, dr, nodes, s);
    WalkedIsMerged(tv, tr, ts, sv, srt, ss, v, dr, s, t.Arena(), t.root, t.shape);
  }

  lemma NoneOfTheTop(after: set<Node>, before: set<Node>, r: Node)
    requires r !in after
    ensures after - (before + {r}) == after - before
  {
  }

  /** The long way: side by side, node by node. */
  method MergeNodes(t: Tree, src: Tree)
    requires t != src && t.Valid() && src.Valid() && t.nodes !! src.nodes
    modifies t, t.nodes
    ensures MergeOf(old(t.Arena()), old(t.root), old(t.shape), old(src.Arena()), src.root, src.shape, t.Arena(), t.root, t.shape)
    ensures fresh(t.nodes - old(t.nodes))
  {
    ghost var tv, tr, ts, sv, before := t.Arena(), t.root, t.shape, src.Arena(), t.nodes;
    var sr, dr, snodes, dnodes, j := Begin(t, src);
    MergeTops(t, sr, dr, snodes, dnodes, j, tv, tr, ts, sv, src.root, src.shape);
    NoneOfTheTop(t.nodes, before, dr);
  }

  /** No weight anywhere in trees whose totals come to nothing. */
  lemma {:induction false} NothingBelowZero(v: Arena, root: seq<Node>, s: Shape, n: Node, b: nat)
    requires Forest(v, root, s) && Consistent(v) && NonNegative(v) && TotalsOf(v, root) == 0 && n in v
    requires forall m | m in s.path :: |s.path[m]| <= b
    ensures v[n].total == 0 && v[n].own == 0
    decreases |s.path[n]|
  {
    TotalsFall(v, s, n, b);
    if n in s.par {
      assert Listed(v, s, n);
      NothingBelowZero(v, root, s, s.par[n], b);
      TotalsFall(v, s, s.par[n], b);
    } else {
      forall c | c in root
        ensures c in v && v[c].total >= 0
      {
        TotalsFall(v, s, c, b);
      }
      SumOfNonNegatives(v, root);
    }
  }

  /** A tree without negative weights whose total is zero weighs nothing at any path. */
  lemma {:induction false} ZeroTotalWeighsNothing(v: Arena, root: seq<Node>, s: Shape)
    requires Forest(v, root, s) && Consistent(v) && NonNegative(v) && TotalsOf(v, root) == 0
    ensures forall p :: Weight(v, s, p) == 0
  {
    var b := DepthBound(s.path);
    forall p
      ensures Weight(v, s, p) == 0
    {
      forall n | n in At(v, s, p)
        ensures At(v, s, p)[n] == 0
      {
        NothingBelowZero(v, root, s, n, b);
      }
      SumOfZeros<Node>(At(v, s, p));
    }
  }

  /** The original takes a shortcut when one of the totals is zero. */
  predicate Shortcut(tt: int, st: int) {
    (tt == 0 && st > 0) || st == 0
  }

  /** The trees add up and no weight is negative. */
  ghost predicate Plain(tv: Arena, sv: Arena) {
    Consistent(tv) && Consistent(sv) && NonNegative(tv) && NonNegative(sv)
  }

  /**
   What a merge of `t` and `src` comes to: a tree in order whose whole total is that of both, and which adds up if
   both did. At every path it has the weight of both: always when no shortcut was taken, and with one when the
   trees add up and no weight is negative.
   */
  ghost predicate MergeOf(tv: Arena, tr: seq<Node>, ts: Shape, sv: Arena, sr: seq<Node>, ss: Shape, w: Arena, root: seq<Node>, u: Shape) {
    && WellFormed(w, root, u) && (Consistent(tv) && Consistent(sv) ==> Consistent(w))
    && TotalsOf(w, root) == TotalsOf(tv, tr) + TotalsOf(sv, sr)
    && (!Shortcut(TotalsOf(tv, tr), TotalsOf(sv, sr)) || Plain(tv, sv) ==> SumOfBoth(tv, ts, sv, ss, w, u))
  }

  /** Where no weight is negative, a tree whose total is zero adds nothing. */
  lemma {:induction false} ShortcutsAreRight(tv: Arena, tr: seq<Node>, ts: Shape, sv: Arena, sr: seq<Node>, ss: Shape)
    requires WellFormed(tv, tr, ts) && WellFormed(sv, sr, ss)
    ensures TotalsOf(tv, tr) == 0 && TotalsOf(sv, sr) > 0 ==> MergeOf(tv, tr, ts, sv, sr, ss, sv, sr, ss)
    ensures TotalsOf(sv, sr) == 0 ==> MergeOf(tv, tr, ts, sv, sr, ss, tv, tr, ts)
  {
    if Plain(tv, sv) && TotalsOf(tv, tr) == 0 { ZeroTotalWeighsNothing(tv, tr, ts); }
    if Plain(tv, sv) && TotalsOf(sv, sr) == 0 { ZeroTotalWeighsNothing(sv, sr, ss); }
  }

  /** The tree becomes the source: the two share their nodes from then on. */
  method TakeOver(t: Tree, src: Tree)
    requires t != src
    modifies t
    ensures t.root == src.root && t.shape == src.shape && t.nodes == src.nodes && t.Arena() == old(src.Arena())
  {
    t.root := src.root;
    t.nodes, t.shape := src.nodes, src.shape;
  }

  method Merge(t: Tree, src: Tree)
    requires t != src && t.Valid() && src.Valid() && t.nodes !! src.nodes
    modifies t, t.nodes
    ensures MergeOf(old(t.Arena()), old(t.root), old(t.shape), old(src.Arena()), src.root, src.shape, t.Arena(), t.root, t.shape)
    ensures t.root == src.root || fresh(t.nodes - old(t.nodes))
  {
    ghost var tv, ts, tr, sv := t.Arena(), t.shape, t.root, src.Arena();
    var a := Total(t);
    var b := Total(src);
    ShortcutsAreRight(tv, tr, ts, sv, src.root, src.shape);
    if a == 0 && b > 0 {
      TakeOver(t, src);
    } else if b != 0 {
      MergeNodes(t, src);
    }
  }
}
