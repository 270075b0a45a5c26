/** Sums over finite maps and over sequences. */
module Sums {
  ghost function Sum<K>(f: map<K, int>): int
    decreases |f|
  {
    if f == map[] then 0
    else
      var k :| k in f;
      f[k] + Sum(f - {k})
  }

  lemma {:induction false} SumWithout<K>(f: map<K, int>, k: K)
    requires k in f
    ensures Sum(f) == f[k] + Sum(f - {k})
    decreases |f|
  {
    var first :| first in f && Sum(f) == f[first] + Sum(f - {first});
    if first != k {
      SumWithout(f - {first}, k);
      SumWithout(f - {k}, first);
      assert f - {first} - {k} == f - {k} - {first};
    }
  }

  lemma SumSet<K>(f: map<K, int>, k: K, v: int)
    ensures Sum(f[k := v]) == Sum(f) - (if k in f then f[k] else 0) + v
  {
    SumWithout(f[k := v], k);
    assert f[k := v] - {k} == f - {k};
    if k in f { SumWithout(f, k); } else { assert f - {k} == f; }
  }

  /** Folding one entry into another keeps the sum. */
  lemma SumFold<K>(f: map<K, int>, g: map<K, int>, p: K, c: K)
    requires p in f && c in f && p != c && g.Keys == f.Keys - {c}
    requires forall k | k in g :: g[k] == if k == p then f[p] + f[c] else f[k]
    ensures Sum(g) == Sum(f)
  {
    var h := f[p := f[p] + f[c]];
    assert g == h - {c};
    SumWithout(h, c);
    SumSet(f, p, f[p] + f[c]);
  }

  lemma {:induction false} SumOfZeros<K>(f: map<K, int>)
    requires forall k | k in f :: f[k] == 0
    ensures Sum(f) == 0
    decreases |f|
  {
    if f != map[] {
      var k :| k in f && Sum(f) == f[k] + Sum(f - {k});
      SumOfZeros(f - {k});
    }
  }

  lemma {:induction false} JoinOne<K>(f: map<K, int>, g: map<K, int>, k: K)
    requires f.Keys !! g.Keys && k in g
    ensures f.Keys !! (g - {k}).Keys && Sum(f + g) == g[k] + Sum(f + (g - {k}))
  {
    SumWithout(f + g, k);
    assert (f + g) - {k} == f + (g - {k});
  }

  /** The sum of two maps without common keys. */
  lemma {:induction false} SumJoin<K>(f: map<K, int>, g: map<K, int>)
    requires f.Keys !! g.Keys
    ensures Sum(f + g) == Sum(f) + Sum(g)
    decreases g.Keys
  {
    if g == map[] {
      assert f + g == f;
    } else {
      var k :| k in g;
      SumWithout(g, k);
      JoinOne(f, g, k);
      SumJoin(f, g - {k});
    }
  }

  lemma {:induction false} SumTwice<K>(f: map<K, int>, g: map<K, int>)
    requires g.Keys == f.Keys && forall k | k in f :: g[k] == f[k] + f[k]
    ensures Sum(g) == Sum(f) + Sum(f)
    decreases f.Keys
  {
    if f == map[] {
      assert g == map[];
    } else {
      var k :| k in f;
      SumWithout(f, k);
      SumWithout(g, k);
      SumTwice(f - {k}, g - {k});
    }
  }

  // ---- Sequences ----

  function SeqSum(counts: seq<nat>): nat {
    if counts == [] then 0 else counts[0] + SeqSum(counts[1..])
  }

  lemma {:induction false} SeqSumOfUpdate(counts: seq<nat>, i: nat, v: nat)
    requires i < |counts|
    ensures SeqSum(counts[i := v]) == SeqSum(counts) - counts[i] + v
    decreases |counts|
  {
    if i > 0 {
      assert counts[i := v][1..] == counts[1..][i - 1 := v];
      SeqSumOfUpdate(counts[1..], i - 1, v);
    } else {
      assert counts[0 := v][1..] == counts[1..];
    }
  }

  lemma {:induction false} SeqSumOfAppend(counts: seq<nat>, v: nat)
    ensures SeqSum(counts + [v]) == SeqSum(counts) + v
    decreases |counts|
  {
    if counts == [] {
      assert [v][1..] == [];
    } else {
      assert (counts + [v])[1..] == counts[1..] + [v];
      SeqSumOfAppend(counts[1..], v);
    }
  }

  lemma {:induction false} SeqSumOfZeros(n: nat)
    ensures SeqSum(seq(n, _ => 0)) == 0
  {
    if n > 0 {
      SeqSumOfZeros(n - 1);
      assert seq(n, _ => 0)[1..] == seq(n - 1, _ => 0);
    }
  }
}
