/** The string table: a hash map from string to index that has to agree with a dense list of strings. */
module Strings {
  import opened Options

  const U32_MAX: nat := 0xFFFF_FFFF

  /** Marks a key whose list entry is of interest; keeps paired map and list quantifiers from feeding each other. */
  ghost predicate Known<K>(m: map<K, nat>, key: K) {
    key in m
  }

  /** The list after `s` is interned. */
  function Interned(strings: seq<string>, s: string): seq<string> {
    if s in strings then strings else strings + [s]
  }

  class StringTable {
    var index: map<string, nat>
    ghost var strings: seq<string>

    ghost predicate Valid()
      reads this
    {
      && |index| == |strings| > 0 && strings[0] == "" && |strings| <= U32_MAX
      && (forall i {:trigger strings[i]} | 0 <= i < |strings| :: strings[i] in index && index[strings[i]] == i)
      && (forall s {:trigger Known(index, s)} | Known(index, s) :: index[s] < |strings| && strings[index[s]] == s)
    }

    /** The empty string always has index 0. */
    constructor ()
      ensures Valid() && strings == [""]
    {
      index := map["" := 0];
      strings := [""];
    }

    /** The index of `s`, new or not. `None` is the assertion failure of a table that has run out of ids. */
    method Add(s: string) returns (id: Option<nat>)
      requires Valid()
      modifies this
      ensures Valid()
      ensures id.None? <==> old(|strings|) >= U32_MAX
      ensures id.None? ==> strings == old(strings)
      ensures old(strings) <= strings
      ensures id.Some? ==> strings == Interned(old(strings), s) && id.value < |strings| && strings[id.value] == s
    {
      var next := |index|;
      if next >= U32_MAX {
        return None;
      }
      if s in index {
        assert Known(index, s);
        return Some(index[s]);
      }
      ghost var before := index;
      index := index[s := next];
      strings := strings + [s];
      assert forall x | Known(index, x) && x != s :: Known(before, x);
      id := Some(next);
    }

    /** Materializes the list, visiting the map in any order. */
    method PprofTable() returns (table: seq<string>)
      requires Valid()
      ensures table == strings
    {
      var v := new string[|index|](_ => "");
      var todo := index.Keys;
      while todo != {}
        invariant todo <= index.Keys && v.Length == |strings|
        invariant forall i | 0 <= i < |strings| :: strings[i] !in todo ==> v[i] == strings[i]
        decreases |todo|
      {
        var s :| s in todo;
        assert Known(index, s);
        v[index[s]] := s;
        todo := todo - {s};
      }
      table := v[..];
    }
  }
}
