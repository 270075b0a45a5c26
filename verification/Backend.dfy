/** Stack traces, the buffer that counts them, and its conversion into reports grouped by metadata hash. */
module Backend {
  import opened Options
  import opened Pprof

  datatype StackFrame = StackFrame(name: string, filename: string, line: nat)

  /** The tags of a trace in the order of the `BTreeSet` that holds them. */
  datatype Metadata = Metadata(tags: seq<Tag>)

  datatype StackTrace = StackTrace(pid: Option<nat>, threadId: Option<string>, threadName: Option<string>,
                                   frames: seq<StackFrame>, metadata: Metadata)

  type Counts = map<StackTrace, nat>

  datatype Report = Report(data: Counts, metadata: Metadata)

  function CountOf(data: Counts, trace: StackTrace): nat {
    if trace in data then data[trace] else 0
  }

  /** `*data.entry(trace).or_insert(0) += count` */
  function Recorded(data: Counts, trace: StackTrace, count: nat): Counts {
    data[trace := CountOf(data, trace) + count]
  }

  // ---- Totals ----

  /** The number of samples in a buffer. */
  ghost function Total(data: Counts): nat
    decreases |data|
  {
    if data == map[] then 0
    else
      var trace :| trace in data;
      data[trace] + Total(data - {trace})
  }

  lemma {:induction false} TotalWithout(data: Counts, trace: StackTrace)
    requires trace in data
    ensures Total(data) == data[trace] + Total(data - {trace})
    decreases |data|
  {
    var first :| first in data && Total(data) == data[first] + Total(data - {first});
    if first != trace {
      TotalWithout(data - {first}, trace);
      TotalWithout(data - {trace}, first);
      assert data - {first} - {trace} == data - {trace} - {first};
    }
  }

  /** Recording adds exactly what is recorded, whatever was there. */
  lemma {:induction false} TotalRecorded(data: Counts, trace: StackTrace, count: nat)
    ensures Total(Recorded(data, trace, count)) == Total(data) + count
  {
    var more := Recorded(data, trace, count);
    TotalWithout(more, trace);
    if trace in data {
      TotalWithout(data, trace);
      assert more - {trace} == data - {trace};
    } else {
      assert more - {trace} == data;
    }
  }

  class StackBuffer {
    var data: Counts

    constructor ()
      ensures data == map[]
    {
      data := map[];
    }

    method Record(trace: StackTrace)
      modifies this
      ensures data == Recorded(old(data), trace, 1) && Total(data) == Total(old(data)) + 1
      ensures data.Keys == old(data.Keys) + {trace}
      ensures forall x :: CountOf(data, x) == CountOf(old(data), x) + if x == trace then 1 else 0
    {
      TotalRecorded(data, trace, 1);
      data := data[trace := CountOf(data, trace) + 1];
    }

    method RecordWithCount(trace: StackTrace, count: nat)
      modifies this
      ensures data == Recorded(old(data), trace, count) && Total(data) == Total(old(data)) + count
      ensures data.Keys == old(data.Keys) + {trace}
      ensures forall x :: CountOf(data, x) == CountOf(old(data), x) + if x == trace then count else 0
    {
      TotalRecorded(data, trace, count);
      data := data[trace := CountOf(data, trace) + count];
    }

    method Clear()
      modifies this
      ensures data == map[]
    {
      data := map[];
    }

    /** `std::mem::take`: hands the counts over and leaves an empty buffer. */
    method Take() returns (taken: Counts)
      modifies this
      ensures taken == old(data) && data == map[]
    {
      taken := data;
      data := map[];
    }
  }

  // ---- Grouping ----

  /** The counted traces of a buffer: one pair for each trace. */
  ghost function ItemsOf(data: Counts): multiset<(StackTrace, nat)>
    decreases |data|
  {
    if data == map[] then multiset{}
    else
      var trace :| trace in data;
      multiset{(trace, data[trace])} + ItemsOf(data - {trace})
  }

  lemma Rotate<T>(a: multiset<T>, b: multiset<T>, c: multiset<T>)
    ensures a + (b + c) == b + (a + c)
    ensures a + (b + c) == (a + b) + c
  {
  }

  /** Two ways to take two parts out of a whole. */
  lemma TakenInTurn<T>(whole: multiset<T>, a: multiset<T>, withoutA: multiset<T>, b: multiset<T>, withoutB: multiset<T>, core: multiset<T>)
    requires whole == a + withoutA && withoutA == b + core && withoutB == a + core
    ensures whole == b + withoutB
  {
    Rotate(a, b, core);
  }

  lemma WithoutBoth<K, V>(m: map<K, V>, a: K, b: K)
    ensures m - {a} - {b} == m - {b} - {a}
  {
  }

  lemma {:induction false} ItemsWithout(data: Counts, trace: StackTrace)
    requires trace in data
    ensures ItemsOf(data) == multiset{(trace, data[trace])} + ItemsOf(data - {trace})
    decreases |data|
  {
    var first :| first in data && ItemsOf(data) == multiset{(first, data[first])} + ItemsOf(data - {first});
    if first != trace {
      ItemsWithout(data - {first}, trace);
      ItemsWithout(data - {trace}, first);
      WithoutBoth(data, first, trace);
      TakenInTurn(ItemsOf(data), multiset{(first, data[first])}, ItemsOf(data - {first}),
                  multiset{(trace, data[trace])}, ItemsOf(data - {trace}), ItemsOf(data - {first} - {trace}));
    }
  }

  /** A pair is there once if the buffer says so, and not at all otherwise. */
  lemma {:induction false} ItemsAreCounts(data: Counts, trace: StackTrace, count: nat)
    ensures ItemsOf(data)[(trace, count)] == if trace in data && data[trace] == count then 1 else 0
    decreases |data|
  {
    if data != map[] {
      var first :| first in data && ItemsOf(data) == multiset{(first, data[first])} + ItemsOf(data - {first});
      ItemsAreCounts(data - {first}, trace, count);
    }
  }

  ghost function AllItems(reports: seq<Report>): multiset<(StackTrace, nat)> {
    if reports == [] then multiset{} else AllItems(reports[..|reports| - 1]) + ItemsOf(reports[|reports| - 1].data)
  }

  lemma {:induction false} ItemsInsert(data: Counts, trace: StackTrace, count: nat)
    requires trace !in data
    ensures ItemsOf(data[trace := count]) == multiset{(trace, count)} + ItemsOf(data)
  {
    ItemsWithout(data[trace := count], trace);
    assert data[trace := count] - {trace} == data;
  }

  type Groups = map<nat, Report>

  /** What the groups under construction hold. */
  ghost function GroupItems(groups: Groups): multiset<(StackTrace, nat)>
    decreases |groups|
  {
    if groups == map[] then multiset{}
    else
      var k :| k in groups;
      ItemsOf(groups[k].data) + GroupItems(groups - {k})
  }

  lemma {:induction false} GroupItemsWithout(groups: Groups, k: nat)
    requires k in groups
    ensures GroupItems(groups) == ItemsOf(groups[k].data) + GroupItems(groups - {k})
    decreases |groups|
  {
    var first :| first in groups && GroupItems(groups) == ItemsOf(groups[first].data) + GroupItems(groups - {first});
    if first != k {
      GroupItemsWithout(groups - {first}, k);
      GroupItemsWithout(groups - {k}, first);
      WithoutBoth(groups, first, k);
      TakenInTurn(GroupItems(groups), ItemsOf(groups[first].data), GroupItems(groups - {first}),
                  ItemsOf(groups[k].data), GroupItems(groups - {k}), GroupItems(groups - {first} - {k}));
    }
  }

  /** The group of a hash is made on first use; the trace is counted in it. */
  function Grouped(groups: Groups, id: nat, trace: StackTrace, count: nat): Groups {
    var report := if id in groups then groups[id] else Report(map[], trace.metadata);
    groups[id := report.(data := Recorded(report.data, trace, count))]
  }

  lemma UpdateThenRemove<K, V>(m: map<K, V>, k: K, v: V)
    ensures m[k := v] - {k} == m - {k}
    ensures k !in m ==> m - {k} == m
  {
  }

  lemma MoveEntry<K, V>(rest: map<K, V>, done: map<K, V>, k: K)
    requires k in rest && rest.Keys !! done.Keys
    ensures (rest - {k}).Keys !! done[k := rest[k]].Keys && (rest - {k}) + done[k := rest[k]] == rest + done
  {
  }

  /** A trace that no group holds yet is added to one of them and to nothing else. */
  lemma {:induction false} GroupedAdds(groups: Groups, id: nat, trace: StackTrace, count: nat)
    requires forall k | k in groups :: trace !in groups[k].data
    ensures GroupItems(Grouped(groups, id, trace, count)) == multiset{(trace, count)} + GroupItems(groups)
  {
    var report := if id in groups then groups[id] else Report(map[], trace.metadata);
    var more := report.(data := Recorded(report.data, trace, count));
    assert Grouped(groups, id, trace, count) == groups[id := more];
    UpdateThenRemove(groups, id, more);
    GroupItemsWithout(groups[id := more], id);
    assert more.data == report.data[trace := count];
    ItemsInsert(report.data, trace, count);
    Rotate(multiset{(trace, count)}, ItemsOf(report.data), GroupItems(groups - {id}));
    if id in groups {
      GroupItemsWithout(groups, id);
    } else {
      assert ItemsOf(report.data) == multiset{};
    }
  }

  ghost predicate GroupsWithin(groups: Groups, done: Counts) {
    forall k | k in groups :: groups[k].data.Keys <= done.Keys
  }

  lemma {:induction false} GroupedWithin(groups: Groups, done: Counts, id: nat, trace: StackTrace, count: nat)
    requires GroupsWithin(groups, done)
    ensures GroupsWithin(Grouped(groups, id, trace, count), done[trace := count])
  {
  }

  lemma {:induction false} GroupOne(groups: Groups, done: Counts, id: nat, trace: StackTrace, count: nat)
    requires GroupsWithin(groups, done) && trace !in done && GroupItems(groups) == ItemsOf(done)
    ensures GroupItems(Grouped(groups, id, trace, count)) == ItemsOf(done[trace := count])
  {
    GroupedAdds(groups, id, trace, count);
    ItemsInsert(done, trace, count);
  }

  /** The report of a hash: it carries the metadata of one of its traces, and all of them have this hash. */
  ghost predicate OfHash(report: Report, id: nat, hash: Metadata -> nat) {
    && (forall t | t in report.data :: hash(t.metadata) == id)
    && exists t :: t in report.data && t.metadata == report.metadata
  }

  ghost predicate GroupsOfHash(groups: Groups, hash: Metadata -> nat) {
    forall id | id in groups :: OfHash(groups[id], id, hash)
  }

  lemma {:induction false} GroupedOfHash(groups: Groups, hash: Metadata -> nat, trace: StackTrace, count: nat)
    requires GroupsOfHash(groups, hash)
    ensures GroupsOfHash(Grouped(groups, hash(trace.metadata), trace, count), hash)
  {
    var id := hash(trace.metadata);
    var more := Grouped(groups, id, trace, count);
    forall k | k in more
      ensures OfHash(more[k], k, hash)
    {
      if k in groups { assert OfHash(groups[k], k, hash); }
      if k == id {
        var t :| (if id in groups then t in groups[id].data else t == trace) && t.metadata == more[id].metadata;
        assert t in more[id].data;
      }
    }
  }

  /** One report for each hash. */
  ghost predicate OnePerHash(reports: seq<Report>, hash: Metadata -> nat) {
    && (forall i | 0 <= i < |reports| :: OfHash(reports[i], hash(reports[i].metadata), hash))
    && (forall i, j | 0 <= i < j < |reports| :: hash(reports[i].metadata) != hash(reports[j].metadata))
  }

  /**
   Groups the counted traces by a hash of their metadata, visiting the buffer in any order. Traces with
   different metadata may share a hash; nothing is lost or counted twice either way.
   */
  method IntoReports(data: Counts, hash: Metadata -> nat) returns (reports: seq<Report>)
    ensures AllItems(reports) == ItemsOf(data) && OnePerHash(reports, hash)
  {
    var groups: Groups := map[];
    ghost var done: Counts := map[];
    var rest := data;
    while rest != map[]
      invariant rest.Keys !! done.Keys && rest + done == data
      invariant GroupsWithin(groups, done) && GroupItems(groups) == ItemsOf(done)
      invariant GroupsOfHash(groups, hash)
      decreases |rest|
    {
      var trace :| trace in rest;
      var count := rest[trace];
      MoveEntry(rest, done, trace);
      GroupOne(groups, done, hash(trace.metadata), trace, count);
      GroupedWithin(groups, done, hash(trace.metadata), trace, count);
      GroupedOfHash(groups, hash, trace, count);
      groups := Grouped(groups, hash(trace.metadata), trace, count);
      done := done[trace := count];
      rest := rest - {trace};
    }
    assert done == data;
    reports := IntoValues(groups, hash);
  }

  lemma MoveReport(reports: seq<Report>, rest: Groups, k: nat)
    requires k in rest
    ensures AllItems(reports + [rest[k]]) + GroupItems(rest - {k}) == AllItems(reports) + GroupItems(rest)
  {
    GroupItemsWithout(rest, k);
    assert (reports + [rest[k]])[..|reports|] == reports;
    Rotate(AllItems(reports), ItemsOf(rest[k].data), GroupItems(rest - {k}));
  }

  /** What is still to come has other hashes. */
  ghost predicate Apart(reports: seq<Report>, rest: Groups, hash: Metadata -> nat) {
    && OnePerHash(reports, hash) && GroupsOfHash(rest, hash)
    && forall i | 0 <= i < |reports| :: hash(reports[i].metadata) !in rest
  }

  lemma {:induction false} MoveApart(reports: seq<Report>, rest: Groups, k: nat, hash: Metadata -> nat)
    requires Apart(reports, rest, hash) && k in rest
    ensures Apart(reports + [rest[k]], rest - {k}, hash)
  {
    assert OfHash(rest[k], k, hash);
    assert hash(rest[k].metadata) == k;
  }

  /** The reports of the groups, in any order. */
  method IntoValues(groups: Groups, ghost hash: Metadata -> nat) returns (reports: seq<Report>)
    requires GroupsOfHash(groups, hash)
    ensures AllItems(reports) == GroupItems(groups) && OnePerHash(reports, hash)
  {
    reports := [];
    var rest := groups;
    while rest != map[]
      invariant AllItems(reports) + GroupItems(rest) == GroupItems(groups) && Apart(reports, rest, hash)
      decreases |rest|
    {
      var k :| k in rest;
      MoveReport(reports, rest, k);
      MoveApart(reports, rest, k, hash);
      reports := reports + [rest[k]];
      rest := rest - {k};
    }
  }
}
