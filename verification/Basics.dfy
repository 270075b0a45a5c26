/** Small facts about sequences and sets that the other modules share. */
module Basics {
  lemma SplitLast<T>(s: seq<T>)
    requires s != []
    ensures s == s[..|s| - 1] + [s[|s| - 1]]
  {
  }

  lemma OneLonger<T>(s: seq<T>, k: nat)
    requires k <= |s|
    ensures if k < |s| then s[..k + 1] == s[..k] + [s[k]] else s[..k] == s
  {
  }

  lemma SplitFirst<T>(s: seq<T>, i: nat)
    requires i < |s|
    ensures s[i..] == [s[i]] + s[i + 1..]
  {
  }

  lemma Associative<T>(a: seq<T>, b: seq<T>, c: seq<T>)
    ensures a + (b + c) == (a + b) + c
  {
  }

  lemma {:induction false} SubsetSize<T>(a: set<T>, b: set<T>)
    ensures a <= b ==> |a| <= |b|
    decreases |a|
  {
    if a != {} && a <= b {
      var x :| x in a;
      SubsetSize(a - {x}, b - {x});
    }
  }
}
