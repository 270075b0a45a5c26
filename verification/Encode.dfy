/** `encode`: reports in, profile out, and back again through the profile's own tables. */
module Encode {
  import opened Basics
  import opened Ints
  import opened Words
  import opened Options
  import opened Strings
  import opened Pprof
  import opened Backend
  import opened PprofBuilder

  type Item = (StackTrace, nat)

  function RowsOf(order: seq<Item>, period: int): (rows: seq<Row>)
    ensures |rows| == |order|
  {
    if order == [] then []
    else RowsOf(order[..|order| - 1], period) + [TraceRow(order[|order| - 1].0, order[|order| - 1].1, period)]
  }

  /** Decoding `p` gives the rows of exactly these counted traces, in some order. */
  ghost predicate Encodes(p: Profile, items: multiset<Item>, period: int) {
    exists order: seq<Item> :: multiset(order) == items && DecodesTo(p, order, period)
  }

  ghost predicate DecodesTo(p: Profile, order: seq<Item>, period: int) {
    DecodeSamples(TablesOf(p), p.samples) == Some(RowsOf(order, period))
  }

  // ---- The order of a map does not matter ----

  lemma {:induction false} RowsOfConcat(a: seq<Item>, b: seq<Item>, period: int)
    ensures RowsOf(a + b, period) == RowsOf(a, period) + RowsOf(b, period)
    decreases |b|
  {
    if b == [] {
      assert a + b == a;
    } else {
      assert (a + b)[..|a + b| - 1] == a + b[..|b| - 1];
      RowsOfConcat(a, b[..|b| - 1], period);
    }
  }

  lemma RemoveAt<T>(s: seq<T>, i: nat)
    requires i < |s|
    ensures multiset(s) == multiset(s[..i] + s[i + 1..]) + multiset{s[i]}
  {
    assert s == s[..i] + ([s[i]] + s[i + 1..]);
  }

  lemma Cancel<T>(a: multiset<T>, b: multiset<T>, x: multiset<T>)
    requires a + x == b + x
    ensures a == b
  {
    assert a == (a + x) - x && b == (b + x) - x;
  }

  lemma TakeSame<T>(whole: multiset<T>, x: multiset<T>, a: multiset<T>, b: multiset<T>)
    requires whole == a + x && whole == x + b
    ensures a == b
  {
    Cancel(a, b, x);
  }

  lemma {:induction false} RowsRemoveAt(s: seq<Item>, i: nat, period: int)
    requires i < |s|
    ensures multiset(RowsOf(s, period))
         == multiset(RowsOf(s[..i] + s[i + 1..], period)) + multiset{TraceRow(s[i].0, s[i].1, period)}
  {
    var x := [s[i]];
    assert s == s[..i] + (x + s[i + 1..]);
    RowsOfConcat(s[..i], x + s[i + 1..], period);
    RowsOfConcat(x, s[i + 1..], period);
    RowsOfConcat(s[..i], s[i + 1..], period);
    assert x[..0] == [];
    assert RowsOf(x, period) == [TraceRow(s[i].0, s[i].1, period)];
  }

  function Without<T>(s: seq<T>, i: nat): seq<T>
    requires i < |s|
  {
    s[..i] + s[i + 1..]
  }

  lemma RestAgrees<T>(a: seq<T>, b: seq<T>, i: nat)
    requires a != [] && i < |b| && b[i] == a[0] && multiset(a) == multiset(b)
    ensures multiset(Without(a, 0)) == multiset(Without(b, i))
  {
    RemoveAt(a, 0);
    RemoveAt(b, i);
    Cancel(multiset(Without(a, 0)), multiset(Without(b, i)), multiset{a[0]});
  }

  lemma RowsTransfer(a: seq<Item>, b: seq<Item>, i: nat, period: int)
    requires a != [] && i < |b| && b[i] == a[0]
    requires multiset(RowsOf(Without(a, 0), period)) == multiset(RowsOf(Without(b, i), period))
    ensures multiset(RowsOf(a, period)) == multiset(RowsOf(b, period))
  {
    RowsRemoveAt(a, 0, period);
    RowsRemoveAt(b, i, period);
  }

  lemma {:induction false} RowsOfPermutation(a: seq<Item>, b: seq<Item>, period: int)
    requires multiset(a) == multiset(b)
    ensures multiset(RowsOf(a, period)) == multiset(RowsOf(b, period))
    decreases |a|
  {
    if a == [] {
      assert |b| == |multiset(b)| == |multiset(a)|;
    } else {
      assert a[0] in multiset(b);
      var i :| 0 <= i < |b| && b[i] == a[0];
      RestAgrees(a, b, i);
      RowsOfPermutation(Without(a, 0), Without(b, i), period);
      RowsTransfer(a, b, i, period);
    }
  }

  /** Two encodings of the same counts decode to the same rows, however the maps were hashed and iterated. */
  lemma {:induction false} EncodingIsDetermined(p: Profile, q: Profile, items: multiset<Item>, period: int)
    requires Encodes(p, items, period) && Encodes(q, items, period)
    ensures DecodeSamples(TablesOf(p), p.samples).Some? && DecodeSamples(TablesOf(q), q.samples).Some?
    ensures multiset(DecodeSamples(TablesOf(p), p.samples).value) == multiset(DecodeSamples(TablesOf(q), q.samples).value)
  {
    var a: seq<Item> :| multiset(a) == items && DecodesTo(p, a, period);
    var b: seq<Item> :| multiset(b) == items && DecodesTo(q, b, period);
    RowsOfPermutation(a, b, period);
  }

  // ---- Weight ----

  /** A sample carries the exact product of its count and the period unless that product leaves `i64`. */
  lemma {:induction false} WeightIsExact(count: nat, period: int)
    ensures Weight(count, period) == count * period <==> I64_MIN <= count * period <= I64_MAX
  {
    WrapProduct(count, period);
  }

  ghost function CountSum(order: seq<Item>): nat {
    if order == [] then 0 else CountSum(order[..|order| - 1]) + order[|order| - 1].1
  }

  ghost function RowSum(rows: seq<Row>): int {
    if rows == [] then 0
    else RowSum(rows[..|rows| - 1]) + (if rows[|rows| - 1].values == [] then 0 else rows[|rows| - 1].values[0])
  }

  lemma MulSum(a: int, b: int, c: int)
    ensures (a + b) * c == a * c + b * c
  {
    MulAdd(c, a, b);
  }

  /** One more item adds the weight of its row. */
  lemma {:induction false} LastRow(order: seq<Item>, period: int)
    requires order != []
    ensures var last := order[|order| - 1];
      RowSum(RowsOf(order, period)) == RowSum(RowsOf(order[..|order| - 1], period)) + Weight(last.1, period)
  {
    var last := order[|order| - 1];
    var rows, front := RowsOf(order, period), RowsOf(order[..|order| - 1], period);
    assert rows == front + [TraceRow(last.0, last.1, period)];
    assert rows[..|rows| - 1] == front;
  }

  lemma {:induction false} WeightOfRows(order: seq<Item>, period: nat)
    requires forall x | x in order :: x.1 * period <= I64_MAX
    ensures RowSum(RowsOf(order, period)) == CountSum(order) * period
    decreases |order|
  {
    if order != [] {
      var last := order[|order| - 1];
      assert last in order;
      WeightOfRows(order[..|order| - 1], period);
      LastRow(order, period);
      SmallWeight(last.1, period);
      MulSum(CountSum(order[..|order| - 1]), last.1, period);
    }
  }

  lemma SmallWeight(count: nat, period: nat)
    requires count * period <= I64_MAX
    ensures Weight(count, period) == count * period
  {
    WeightIsExact(count, period);
    NotNegative(count, period);
  }

  lemma NotNegative(a: nat, b: nat)
    ensures a * b >= 0
  {
  }

  lemma {:induction false} CountsOfItems(order: seq<Item>, data: Counts)
    requires multiset(order) == ItemsOf(data)
    ensures CountSum(order) == Total(data)
    decreases |order|
  {
    if order != [] {
      var last := order[|order| - 1];
      assert last in multiset(order);
      ItemsAreCounts(data, last.0, last.1);
      assert last == (last.0, last.1);
      ItemsWithout(data, last.0);
      TotalWithout(data, last.0);
      RemoveAt(order, |order| - 1);
      assert order[..|order| - 1] + order[|order|..] == order[..|order| - 1];
      TakeSame(ItemsOf(data), multiset{last}, multiset(order[..|order| - 1]), ItemsOf(data - {last.0}));
      CountsOfItems(order[..|order| - 1], data - {last.0});
    }
  }

  lemma PartBound(a: nat, b: nat, period: nat)
    ensures a * period <= (a + b) * period
  {
    MulAdd(period, a, b);
  }

  /** The emitted weight is the period times the number of samples that were buffered. */
  lemma {:induction false} WeightIsConserved(p: Profile, data: Counts, period: nat)
    requires Encodes(p, ItemsOf(data), period) && Total(data) * period <= I64_MAX
    ensures DecodeSamples(TablesOf(p), p.samples).Some?
    ensures RowSum(DecodeSamples(TablesOf(p), p.samples).value) == Total(data) * period
  {
    var order: seq<Item> :| multiset(order) == ItemsOf(data) && DecodesTo(p, order, period);
    CountsOfItems(order, data);
    ItemsAreSmall(order, data, period);
    WeightOfRows(order, period);
  }

  /** What fits in total fits item by item. */
  lemma {:induction false} ItemsAreSmall(order: seq<Item>, data: Counts, period: nat)
    requires multiset(order) == ItemsOf(data) && Total(data) * period <= I64_MAX
    ensures forall x | x in order :: x.1 * period <= I64_MAX
  {
    forall x | x in order
      ensures x.1 * period <= I64_MAX
    {
      assert x in multiset(order) && x == (x.0, x.1);
      ItemsAreCounts(data, x.0, x.1);
      TotalWithout(data, x.0);
      PartBound(x.1, Total(data - {x.0}), period);
    }
  }

  // ---- The strings of a profile ----

  ghost function ItemStrings(items: multiset<Item>): set<string> {
    TypeStrings(PySpy) + {""} + (set x, s | x in items && s in TraceStrings(x.0) :: s)
  }

  lemma {:induction false} FramesAreNamed(t: Tables, ids: seq<nat>, f: NamedFrame)
    requires DecodeFrames(t, ids).Some? && f in DecodeFrames(t, ids).value
    ensures f.name in t.strings && f.filename in t.strings
    decreases |ids|
  {
    if f in DecodeFrames(t, ids[..|ids| - 1]).value {
      FramesAreNamed(t, ids[..|ids| - 1], f);
    }
  }

  lemma {:induction false} LabelsAreNamed(t: Tables, labels: seq<Label>, tag: Tag)
    requires DecodeLabels(t, labels).Some? && tag in DecodeLabels(t, labels).value
    ensures tag.key in t.strings && tag.value in t.strings
    decreases |labels|
  {
    var init := DecodeLabels(t, labels[..|labels| - 1]).value;
    if tag in init {
      LabelsAreNamed(t, labels[..|labels| - 1], tag);
    } else {
      assert String(t, labels[|labels| - 1].key) == Some(tag.key) && String(t, labels[|labels| - 1].str) == Some(tag.value);
    }
  }

  lemma {:induction false} NamedFramesHas(frames: seq<StackFrame>, f: StackFrame)
    requires f in frames
    ensures NamedFrame(f.name, f.filename, f.line) in NamedFrames(frames)
    decreases |frames|
  {
    if f != frames[|frames| - 1] {
      NamedFramesHas(frames[..|frames| - 1], f);
    }
  }

  /** A sample that decodes to a trace needs all the strings of the trace. */
  lemma {:induction false} TraceIsNamed(t: Tables, sample: Sample, trace: StackTrace, count: nat, period: int)
    requires DecodeSample(t, sample) == Some(TraceRow(trace, count, period))
    ensures forall s | s in TraceStrings(trace) :: s in t.strings
  {
    forall f | f in trace.frames
      ensures f.name in t.strings && f.filename in t.strings
    {
      NamedFramesHas(trace.frames, f);
      FramesAreNamed(t, sample.locationId, NamedFrame(f.name, f.filename, f.line));
    }
    forall tag | tag in trace.metadata.tags
      ensures tag.key in t.strings && tag.value in t.strings
    {
      LabelsAreNamed(t, sample.labels, tag);
    }
  }

  lemma {:induction false} ItemIsNamed(t: Tables, samples: seq<Sample>, order: seq<Item>, item: Item, period: int)
    requires DecodeSamples(t, samples) == Some(RowsOf(order, period)) && item in order
    ensures forall s | s in TraceStrings(item.0) :: s in t.strings
    decreases |order|
  {
    var n := |order| - 1;
    var rows := RowsOf(order, period);
    assert samples != [] && rows[..n] == RowsOf(order[..n], period);
    assert DecodeSamples(t, samples[..|samples| - 1]) == Some(rows[..n]);
    if item == order[n] {
      TraceIsNamed(t, samples[|samples| - 1], item.0, item.1, period);
    } else {
      ItemIsNamed(t, samples[..|samples| - 1], order[..n], item, period);
    }
  }

  lemma {:induction false} TypesAreNamed(strings: seq<string>, types: seq<ValueType>, name: (string, string))
    requires DecodeTypes(strings, types).Some? && name in DecodeTypes(strings, types).value
    ensures name.0 in strings && name.1 in strings
    decreases |types|
  {
    var last := types[|types| - 1];
    if name in DecodeTypes(strings, types[..|types| - 1]).value {
      TypesAreNamed(strings, types[..|types| - 1], name);
    } else {
      assert name == (strings[last.kind], strings[last.unit]);
    }
  }

  lemma {:induction false} TypeStringsAreNamed(kind: Kind, p: Profile, strings: seq<string>)
    requires Typed(kind, p, strings)
    ensures forall s | s in TypeStrings(kind) :: s in strings
  {
    forall name | name in TypeNames(kind) + [PeriodTypeName(kind)]
      ensures name.0 in strings && name.1 in strings
    {
      if name in TypeNames(kind) {
        TypesAreNamed(strings, p.sampleTypes, name);
      } else {
        TypesAreNamed(strings, [p.periodType.value], name);
      }
    }
  }

  lemma {:induction false} ElementsAreFew<T>(s: seq<T>, a: set<T>)
    requires forall x | x in a :: x in s
    ensures |a| <= |s|
    decreases |s|
  {
    if s == [] {
      assert a == {};
    } else {
      SplitLast(s);
      ElementsAreFew(s[..|s| - 1], a - {s[|s| - 1]});
      SubsetSize(a, (a - {s[|s| - 1]}) + {s[|s| - 1]});
    }
  }

  /** A complete profile has an entry for every string of its items. */
  lemma {:induction false} AllIsNamed(p: Profile, order: seq<Item>, items: multiset<Item>, period: int)
    requires multiset(order) == items && DecodesTo(p, order, period)
    requires Typed(PySpy, p, p.stringTable) && "" in p.stringTable
    ensures |ItemStrings(items)| <= |p.stringTable|
  {
    TypeStringsAreNamed(PySpy, p, p.stringTable);
    forall x, s | x in items && s in TraceStrings(x.0)
      ensures s in p.stringTable
    {
      assert x in multiset(order);
      ItemIsNamed(TablesOf(p), p.samples, order, x, period);
    }
    ElementsAreFew(p.stringTable, ItemStrings(items));
  }

  // ---- Encoding ----

  /** What `encode` promises of its profile: rows, types, period and time range. */
  ghost predicate EncodedAs(p: Profile, items: multiset<Item>, sampleRate: nat, timeNanos: nat, durationNanos: nat) {
    && sampleRate > 0 && p.period == 1_000_000_000 / sampleRate && Encodes(p, items, p.period)
    && Typed(PySpy, p, p.stringTable) && Ranged(p, timeNanos, durationNanos)
  }

  /**
   A profile that decodes to exactly the reported counts times the period. There is none if the sample rate is zero
   or the reports have more strings than the string table can hold, and only then; with exactly as many as it can
   hold there is one if the last string that is looked up is new.
   */
  method Encode(reports: seq<Report>, sampleRate: nat, timeNanos: nat, durationNanos: nat) returns (r: Option<Profile>)
    ensures r.Some? ==> EncodedAs(r.value, AllItems(reports), sampleRate, timeNanos, durationNanos)
    ensures sampleRate == 0 || |ItemStrings(AllItems(reports))| > U32_MAX ==> r.None?
    ensures r.None? ==> sampleRate == 0 || |ItemStrings(AllItems(reports))| >= U32_MAX
  {
    ghost var universe := ItemStrings(AllItems(reports));
    var strings := new StringTable();
    var b := new PProfBuilder(PySpy);
    b.profile := b.profile.(timeNanos := WrapI64(timeNanos % WORD), durationNanos := WrapI64(durationNanos % WORD));
    var ok := b.SetProfileType(strings, sampleRate, universe);
    if !ok {
      NoMoreThan(strings, universe);
      return None;
    }
    r := EncodeRows(b, strings, reports, universe);
  }

  /** The rows of all reports, and the table they refer to. */
  method EncodeRows(b: PProfBuilder, strings: StringTable, reports: seq<Report>, ghost universe: set<string>) returns (r: Option<Profile>)
    requires b.Building(strings, universe) && b.kind == PySpy && b.profile.samples == []
    requires ItemStrings(AllItems(reports)) <= universe && Typed(PySpy, b.profile, strings.strings)
    modifies b, strings
    ensures r.Some? ==> SameFrame(old(b.profile), r.value) && Encodes(r.value, AllItems(reports), r.value.period)
    ensures r.Some? ==> Typed(PySpy, r.value, r.value.stringTable)
    ensures r.Some? ==> |ItemStrings(AllItems(reports))| <= U32_MAX
    ensures r.None? ==> |universe| >= U32_MAX
  {
    ghost var before, was := strings.strings, b.profile;
    var ok;
    ghost var order;
    ok, order := AddReports(b, strings, reports, universe);
    if !ok {
      NoMoreThan(strings, universe);
      return None;
    }
    Opened(b, strings, universe, order);
    var table := strings.PprofTable();
    b.profile := b.profile.(stringTable := table);
    TypedStays(PySpy, was, b.profile, before, table);
    assert DecodesTo(b.profile, order, b.profile.period);
    assert strings.strings[0] == "";
    AllIsNamed(b.profile, order, AllItems(reports), b.profile.period);
    r := Some(b.profile);
  }

  lemma Opened(b: PProfBuilder, strings: StringTable, universe: set<string>, order: seq<Item>)
    requires Kept(b, strings, universe, order)
    ensures Rows(b, strings, universe, order)
  {
    assert LookAt(order);
  }

  /** What the loops keep: the samples so far decode to the rows of `order`. */
  ghost predicate Rows(b: PProfBuilder, strings: StringTable, universe: set<string>, order: seq<Item>)
    reads b, strings
  {
    && b.Building(strings, universe) && b.kind == PySpy
    && DecodeSamples(b.TablesWith(strings), b.profile.samples) == Some(RowsOf(order, b.profile.period))
  }

  predicate LookAt(order: seq<Item>) {
    true
  }

  /** The same, closed: the loops pass it on, and only `AddOne` looks into it. */
  ghost predicate Kept(b: PProfBuilder, strings: StringTable, universe: set<string>, order: seq<Item>)
    reads b, strings
  {
    forall x {:trigger LookAt(x)} | x == order && LookAt(x) :: Rows(b, strings, universe, x)
  }

  /** The string table is full, with strings of `universe` only. */
  ghost predicate Full(strings: StringTable, universe: set<string>)
    reads strings
  {
    strings.Valid() && PprofBuilder.Within(strings.strings, universe) && |strings.strings| >= U32_MAX
  }

  /** The same types, period and time range. */
  predicate SameFrame(p: Profile, q: Profile) {
    && q.period == p.period && q.sampleTypes == p.sampleTypes && q.periodType == p.periodType
    && q.timeNanos == p.timeNanos && q.durationNanos == p.durationNanos
  }

  /** The same frame, and no string is lost. */
  ghost predicate Same(p: Profile, q: Profile, before: seq<string>, after: seq<string>) {
    SameFrame(p, q) && before <= after
  }

  lemma OneMoreReport(reports: seq<Report>, i: nat)
    requires i < |reports|
    ensures AllItems(reports[..i + 1]) == AllItems(reports[..i]) + ItemsOf(reports[i].data)
    ensures i + 1 == |reports| ==> reports[..i + 1] == reports
  {
    assert reports[..i + 1][..i] == reports[..i];
  }

  method AddReports(b: PProfBuilder, strings: StringTable, reports: seq<Report>, ghost universe: set<string>)
    returns (ok: bool, ghost order: seq<Item>)
    requires Kept(b, strings, universe, []) && ItemStrings(AllItems(reports)) <= universe
    modifies b, strings
    ensures if ok then Same(old(b.profile), b.profile, old(strings.strings), strings.strings) else Full(strings, universe)
    ensures ok ==> Kept(b, strings, universe, order) && multiset(order) == AllItems(reports)
  {
    order := [];
    assert reports[..0] == [];
    for i := 0 to |reports|
      invariant i == |reports| ==> reports[..i] == reports
      invariant Same(old(b.profile), b.profile, old(strings.strings), strings.strings)
      invariant Kept(b, strings, universe, order) && multiset(order) == AllItems(reports[..i])
    {
      StringsOf(reports, i, universe);
      OneMoreReport(reports, i);
      ok, order := AddReport(b, strings, reports[i].data, universe, order);
      if !ok {
        return;
      }
    }
    ok := true;
  }

  lemma {:induction false} HasItem(reports: seq<Report>, i: nat, t: StackTrace)
    requires i < |reports| && t in reports[i].data
    ensures (t, reports[i].data[t]) in AllItems(reports)
    decreases |reports|
  {
    if i == |reports| - 1 {
      ItemsAreCounts(reports[i].data, t, reports[i].data[t]);
    } else {
      HasItem(reports[..|reports| - 1], i, t);
    }
  }

  lemma StringsOf(reports: seq<Report>, i: nat, universe: set<string>)
    requires i < |reports| && ItemStrings(AllItems(reports)) <= universe
    ensures forall t | t in reports[i].data :: TraceStrings(t) <= universe
  {
    forall t, s | t in reports[i].data && s in TraceStrings(t)
      ensures s in universe
    {
      HasItem(reports, i, t);
      assert (t, reports[i].data[t]) in AllItems(reports);
    }
  }

  /** Adds every counted trace of one report, in any order. */
  method AddReport(b: PProfBuilder, strings: StringTable, data: Counts, ghost universe: set<string>, ghost before: seq<Item>)
    returns (ok: bool, ghost order: seq<Item>)
    requires Kept(b, strings, universe, before) && forall t | t in data :: TraceStrings(t) <= universe
    modifies b, strings
    ensures if ok then Same(old(b.profile), b.profile, old(strings.strings), strings.strings) else Full(strings, universe)
    ensures ok ==> Kept(b, strings, universe, order) && multiset(order) == multiset(before) + ItemsOf(data)
  {
    order := before;
    var rest := data;
    while rest != map[]
      invariant rest.Keys <= data.Keys && forall t | t in rest :: rest[t] == data[t]
      invariant Same(old(b.profile), b.profile, old(strings.strings), strings.strings)
      invariant Kept(b, strings, universe, order) && multiset(order) + ItemsOf(rest) == multiset(before) + ItemsOf(data)
      decreases |rest|
    {
      var trace :| trace in rest;
      TakeOne(order, rest, trace);
      ok := AddOne(b, strings, trace, rest[trace], universe, order);
      if !ok {
        return;
      }
      order := order + [(trace, rest[trace])];
      rest := rest - {trace};
    }
    ok := true;
  }

  lemma TakeOne(order: seq<Item>, rest: Counts, trace: StackTrace)
    requires trace in rest
    ensures multiset(order) + ItemsOf(rest) == multiset(order + [(trace, rest[trace])]) + ItemsOf(rest - {trace})
  {
    ItemsWithout(rest, trace);
    Shift(order, (trace, rest[trace]), ItemsOf(rest - {trace}));
  }

  lemma Shift<T>(s: seq<T>, x: T, m: multiset<T>)
    ensures multiset(s) + (multiset{x} + m) == multiset(s + [x]) + m
  {
  }

  method AddOne(b: PProfBuilder, strings: StringTable, trace: StackTrace, count: nat, ghost universe: set<string>, ghost order: seq<Item>)
    returns (ok: bool)
    requires Kept(b, strings, universe, order) && TraceStrings(trace) <= universe
    modifies b, strings
    ensures if ok then Same(old(b.profile), b.profile, old(strings.strings), strings.strings) else Full(strings, universe)
    ensures ok ==> Kept(b, strings, universe, order + [(trace, count)])
  {
    Opened(b, strings, universe, order);
    ghost var t, samples := b.TablesWith(strings), b.profile.samples;
    ok := b.AddStacktrace(strings, trace, count, universe);
    if ok {
      OneMoreSample(t, b.TablesWith(strings), samples, b.profile.samples, order, (trace, count), b.profile.period);
    }
  }

  lemma {:induction false} OneMoreSample(t: Tables, u: Tables, samples: seq<Sample>, more: seq<Sample>, order: seq<Item>, item: Item, period: int)
    requires Extends(t, u) && DecodeSamples(t, samples) == Some(RowsOf(order, period))
    requires |more| == |samples| + 1 && more[..|samples|] == samples
    requires DecodeSample(u, more[|samples|]) == Some(TraceRow(item.0, item.1, period))
    ensures DecodeSamples(u, more) == Some(RowsOf(order + [item], period))
  {
    SamplesStay(t, u, samples);
    assert (order + [item])[..|order|] == order;
  }

  lemma {:induction false} DistinctWithin(strings: seq<string>, universe: set<string>)
    requires forall i, j | 0 <= i < j < |strings| :: strings[i] != strings[j]
    requires PprofBuilder.Within(strings, universe)
    ensures |strings| <= |universe|
    decreases |strings|
  {
    if strings != [] {
      var last := strings[|strings| - 1];
      assert last in strings;
      forall s | s in strings[..|strings| - 1]
        ensures s in universe - {last}
      {
        assert s in strings;
      }
      DistinctWithin(strings[..|strings| - 1], universe - {last});
    }
  }

  /** A table holds each string once, so no more strings than it was given. */
  lemma NoMoreThan(table: StringTable, universe: set<string>)
    requires table.Valid() && PprofBuilder.Within(table.strings, universe)
    ensures |table.strings| <= |universe|
  {
    forall i, j | 0 <= i < j < |table.strings|
      ensures table.strings[i] != table.strings[j]
    {
      assert table.index[table.strings[i]] == i && table.index[table.strings[j]] == j;
    }
    DistinctWithin(table.strings, universe);
  }

  /** From the buffer to the profile: grouping by hash, whatever the hash function, loses nothing on the way. */
  method EncodeBuffer(data: Counts, hash: Metadata -> nat, sampleRate: nat, timeNanos: nat, durationNanos: nat)
    returns (r: Option<Profile>)
    ensures r.Some? ==> EncodedAs(r.value, ItemsOf(data), sampleRate, timeNanos, durationNanos)
    ensures sampleRate == 0 || |ItemStrings(ItemsOf(data))| > U32_MAX ==> r.None?
    ensures r.None? ==> sampleRate == 0 || |ItemStrings(ItemsOf(data))| >= U32_MAX
  {
    var reports := IntoReports(data, hash);
    r := Encode(reports, sampleRate, timeNanos, durationNanos);
  }
}
