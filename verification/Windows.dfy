/**
 A profile builder over its whole life: samples from any thread, and in between dumps and resets. What it emits is a
 function of that sequence, up to the order of samples.
 */
module Windows {
  import opened Ints
  import opened Options
  import opened Basics
  import opened Strings
  import opened Pprof
  import opened PprofBuilder

  /** What reaches a builder, in the order in which its lock lets it in. */
  datatype Event =
    | Intern(name: string)   // the table is shared with everybody else
    | Sampled(frames: seq<FFIFrame>, values: FFISampleValues)
    | Dump(config: nat, timeNanos: nat, durationNanos: nat)
    | Discard

  /** What was sampled since the last dump or reset. */
  function WindowAfter(kind: Kind, events: seq<Event>): seq<Push> {
    if events == [] then []
    else
      var before := WindowAfter(kind, events[..|events| - 1]);
      match events[|events| - 1]
      case Intern(_) => before
      case Sampled(frames, values) => before + [Push(frames, ValueSlots(kind, values))]
      case Dump(_, _, _) => []
      case Discard => []
  }

  /** The answer to a dump: exactly the rows of its window, and no profile for an empty one. */
  ghost predicate Answers(kind: Kind, window: seq<Push>, dump: Event, p: Option<Profile>)
    requires dump.Dump?
  {
    && (p.None? <==> window == [])
    && (p.Some? ==>
          && ExactRows(p.value, window) && Dense(TablesOf(p.value)) && Typed(kind, p.value, p.value.stringTable)
          && p.value.period == PeriodOf(kind, dump.config) && Ranged(p.value, dump.timeNanos, dump.durationNanos))
  }

  /** Each dump is answered from the samples between it and the one before it. */
  ghost predicate Emits(kind: Kind, events: seq<Event>, emitted: seq<Option<Profile>>) {
    if events == [] then emitted == []
    else
      var n := |events| - 1;
      if events[n].Dump? then
        && emitted != [] && Emits(kind, events[..n], emitted[..|emitted| - 1])
        && Answers(kind, WindowAfter(kind, events[..n]), events[n], emitted[|emitted| - 1])
      else
        Emits(kind, events[..n], emitted)
  }

  lemma {:induction false} EmitsNext(kind: Kind, events: seq<Event>, k: nat, before: seq<Option<Profile>>, after: seq<Option<Profile>>)
    requires k < |events| && Emits(kind, events[..k], before)
    requires if events[k].Dump?
             then after != [] && after[..|after| - 1] == before
                  && Answers(kind, WindowAfter(kind, events[..k]), events[k], after[|after| - 1])
             else after == before
    ensures Emits(kind, events[..k + 1], after)
  {
    OneLonger(events, k);
    assert events[..k + 1][..k] == events[..k];
  }

  /** The same rows in some order, or no profile on either side. */
  ghost predicate SaysTheSame(p: Option<Profile>, q: Option<Profile>) {
    match (p, q)
    case (Some(a), Some(b)) => Covers(a, b) && Covers(b, a)
    case (None, None) => true
    case _ => false
  }

  /** Every sample of `p` is one of `q`, with the same stack and the same values. */
  ghost predicate Covers(p: Profile, q: Profile) {
    forall i | 0 <= i < |p.samples| ::
      && IdsOk(p.functions, p.locations, p.samples[i].locationId)
      && exists j :: 0 <= j < |q.samples| && IdsOk(q.functions, q.locations, q.samples[j].locationId)
                     && SampleStack(q, j) == SampleStack(p, i) && q.samples[j].value == p.samples[i].value
  }

  lemma {:induction false} ExactCovers(p: Profile, q: Profile, window: seq<Push>)
    requires ExactRows(p, window) && ExactRows(q, window)
    ensures Covers(p, q)
  {
    forall i | 0 <= i < |p.samples|
      ensures exists j :: 0 <= j < |q.samples| && IdsOk(q.functions, q.locations, q.samples[j].locationId)
                          && SampleStack(q, j) == SampleStack(p, i) && q.samples[j].value == p.samples[i].value
    {
      RowsAreDetermined(p, q, window, i);
    }
  }

  lemma {:induction false} AnswersAgree(kind: Kind, window: seq<Push>, dump: Event, p: Option<Profile>, q: Option<Profile>)
    requires dump.Dump? && Answers(kind, window, dump, p) && Answers(kind, window, dump, q)
    ensures SaysTheSame(p, q)
  {
    if p.Some? {
      ExactCovers(p.value, q.value, window);
      ExactCovers(q.value, p.value, window);
    }
  }

  ghost predicate AllTheSame(a: seq<Option<Profile>>, b: seq<Option<Profile>>) {
    |a| == |b| && forall i | 0 <= i < |a| :: SaysTheSame(a[i], b[i])
  }

  lemma {:induction false} LastTheSame(a: seq<Option<Profile>>, b: seq<Option<Profile>>)
    requires a != [] && b != [] && AllTheSame(a[..|a| - 1], b[..|b| - 1]) && SaysTheSame(a[|a| - 1], b[|b| - 1])
    ensures AllTheSame(a, b)
  {
    forall i | 0 <= i < |a|
      ensures SaysTheSame(a[i], b[i])
    {
      if i < |a| - 1 { assert SaysTheSame(a[..|a| - 1][i], b[..|b| - 1][i]); }
    }
  }

  /** However the maps were hashed, and whatever the strings of the table, the same events emit the same profiles. */
  lemma {:induction false} EventsDecide(kind: Kind, events: seq<Event>, a: seq<Option<Profile>>, b: seq<Option<Profile>>)
    requires Emits(kind, events, a) && Emits(kind, events, b)
    ensures AllTheSame(a, b)
    decreases |events|
  {
    if events != [] {
      var n := |events| - 1;
      if events[n].Dump? {
        EventsDecide(kind, events[..n], a[..|a| - 1], b[..|b| - 1]);
        AnswersAgree(kind, WindowAfter(kind, events[..n]), events[n], a[|a| - 1], b[|b| - 1]);
        LastTheSame(a, b);
      } else {
        EventsDecide(kind, events[..n], a, b);
      }
    }
  }

  // ---- The emitted numbers, field by field ----

  function AllocCount(v: FFISampleValues): int { WrapI64(v.allocCount) }
  function AllocSpace(v: FFISampleValues): int { WrapI64(v.allocSpace) }
  function HeapCount(v: FFISampleValues): int { WrapI64(v.heapCount) }
  function HeapSpace(v: FFISampleValues): int { WrapI64(v.heapSpace) }
  function CpuTime(v: FFISampleValues): int { v.cpuTime }
  function WallTime(v: FFISampleValues): int { v.wallTime }

  /** The sum of a field over the samples of a stack since the last dump or reset. */
  ghost function FieldSum(events: seq<Event>, stack: seq<FFIFrame>, field: FFISampleValues -> int): int {
    if events == [] then 0
    else
      var before := FieldSum(events[..|events| - 1], stack, field);
      match events[|events| - 1]
      case Intern(_) => before
      case Sampled(frames, values) => before + if frames == stack then field(values) else 0
      case Dump(_, _, _) => 0
      case Discard => 0
  }

  /** The fields of a kind, in the order of its types. */
  function Fields(kind: Kind): seq<FFISampleValues -> int> {
    match kind
    case Memory => [AllocCount, AllocSpace, HeapCount, HeapSpace]
    case CpuWall => [CpuTime, WallTime]
    case OnCpu => [CpuTime]
    case PySpy => []
  }

  lemma {:induction false} WindowIsFields(kind: Kind, events: seq<Event>, stack: seq<FFIFrame>, k: nat)
    requires k < |Fields(kind)|
    ensures SlotSum(WindowAfter(kind, events), stack, k) == FieldSum(events, stack, Fields(kind)[k])
    ensures Wide(WindowAfter(kind, events), stack, |Fields(kind)|)
    decreases |events|
  {
    if events != [] {
      var front, last := events[..|events| - 1], events[|events| - 1];
      WindowIsFields(kind, front, stack, k);
      if last.Sampled? {
        SlotIsField(kind, last.values, k);
        OneMorePush(WindowAfter(kind, front), Push(last.frames, ValueSlots(kind, last.values)), stack, k, |Fields(kind)|);
      }
    }
  }

  lemma SlotIsField(kind: Kind, v: FFISampleValues, k: nat)
    requires k < |Fields(kind)|
    ensures |ValueSlots(kind, v)| == |Fields(kind)| && ValueSlots(kind, v)[k] == Fields(kind)[k](v)
  {
  }

  lemma {:induction false} OneMorePush(window: seq<Push>, push: Push, stack: seq<FFIFrame>, k: nat, n: nat)
    requires |push.values| == n && k < n && Wide(window, stack, n)
    ensures SlotSum(window + [push], stack, k) == SlotSum(window, stack, k) + if push.frames == stack then push.values[k] else 0
    ensures Wide(window + [push], stack, n)
  {
    assert (window + [push])[..|window|] == window;
  }

  /** No sum of a field on the way to the dump leaves `i64`. */
  ghost predicate InRange(kind: Kind, events: seq<Event>, stack: seq<FFIFrame>) {
    forall k | 0 <= k < |Fields(kind)| :: StaysInRange(WindowAfter(kind, events), stack, k)
  }

  lemma {:induction false} SampleIsFields(kind: Kind, events: seq<Event>, p: Profile, i: nat)
    requires Fields(kind) != [] && ExactRows(p, WindowAfter(kind, events)) && i < |p.samples| && InRange(kind, events, SampleStack(p, i))
    ensures |p.samples[i].value| == |Fields(kind)|
    ensures forall k | 0 <= k < |Fields(kind)| :: p.samples[i].value[k] == FieldSum(events, SampleStack(p, i), Fields(kind)[k])
  {
    var window, stack := WindowAfter(kind, events), SampleStack(p, i);
    WindowIsFields(kind, events, stack, 0);
    RowIsSum(window, stack, 0, |Fields(kind)|);
    forall k | 0 <= k < |Fields(kind)|
      ensures p.samples[i].value[k] == FieldSum(events, stack, Fields(kind)[k])
    {
      WindowIsFields(kind, events, stack, k);
      RowIsSum(window, stack, k, |Fields(kind)|);
    }
  }

  /** A memory profile: allocations and live memory, in objects and in bytes. */
  lemma {:induction false} MemoryProfile(events: seq<Event>, dump: Event, p: Profile, i: nat)
    requires dump.Dump? && Answers(Memory, WindowAfter(Memory, events), dump, Some(p))
    requires i < |p.samples| && InRange(Memory, events, SampleStack(p, i))
    ensures DecodeTypes(p.stringTable, p.sampleTypes)
            == Some([("alloc_objects", "count"), ("alloc_space", "bytes"), ("inuse_objects", "count"), ("inuse_space", "bytes")])
    ensures var stack := SampleStack(p, i);
      p.samples[i].value == [FieldSum(events, stack, AllocCount), FieldSum(events, stack, AllocSpace),
                             FieldSum(events, stack, HeapCount), FieldSum(events, stack, HeapSpace)]
    ensures dump.config <= I64_MAX ==> p.period == dump.config
  {
    SampleIsFields(Memory, events, p, i);
    TypesByName(Memory, p, p.stringTable);
  }

  /** A stack profile: time on the processor and, unless only that is sampled, elapsed time. */
  lemma {:induction false} StackProfile(oncpu: bool, events: seq<Event>, dump: Event, p: Profile, i: nat)
    requires var kind := if oncpu then OnCpu else CpuWall;
      && dump.Dump? && Answers(kind, WindowAfter(kind, events), dump, Some(p))
      && i < |p.samples| && InRange(kind, events, SampleStack(p, i))
    ensures DecodeTypes(p.stringTable, p.sampleTypes)
            == Some(if oncpu then [("cpu", "nanoseconds")] else [("cpu", "nanoseconds"), ("wall", "nanoseconds")])
    ensures var stack := SampleStack(p, i);
      p.samples[i].value == [FieldSum(events, stack, CpuTime)] + if oncpu then [] else [FieldSum(events, stack, WallTime)]
    ensures dump.config <= I64_MAX ==> p.period == dump.config
  {
    var kind := if oncpu then OnCpu else CpuWall;
    SampleIsFields(kind, events, p, i);
    TypesByName(kind, p, p.stringTable);
    var stack := SampleStack(p, i);
    assert Fields(kind) == [CpuTime] + if oncpu then [] else [WallTime];
    assert p.samples[i].value[0] == FieldSum(events, stack, CpuTime);
  }

  // ---- The methods of a builder, in any order ----

  /** What holds between two events. */
  ghost predicate Between(b: PProfBuilder, strings: StringTable, window: seq<Push>)
    reads b, strings
  {
    b.Valid() && b.profile.samples == [] && b.window == window && strings.Valid()
  }

  /** A dump: the types are set again, since emitting a profile has emptied them. */
  method TakeDump(b: PProfBuilder, strings: StringTable, dump: Event) returns (ok: bool, p: Option<Profile>)
    requires dump.Dump? && !b.kind.PySpy? && Between(b, strings, b.window)
    modifies b, strings
    ensures if ok then Between(b, strings, []) && Answers(b.kind, old(b.window), dump, p) else |strings.strings| >= U32_MAX
  {
    ghost var universe := TypeStrings(b.kind) + (set s | s in strings.strings);
    ok := b.SetProfileType(strings, dump.config, universe);
    if !ok {
      return false, None;
    }
    assert b.Valid();
    p := b.TakeProfileAndReset(strings, dump.timeNanos, dump.durationNanos);
    if p.Some? {
      assert Typed(b.kind, p.value, p.value.stringTable);
    }
  }

  /** Lets one event in. It is refused only by a full string table. */
  method Take(b: PProfBuilder, strings: StringTable, events: seq<Event>, k: nat, emitted: seq<Option<Profile>>)
    returns (ok: bool, more: seq<Option<Profile>>)
    requires k < |events| && !b.kind.PySpy?
    requires Between(b, strings, WindowAfter(b.kind, events[..k])) && Emits(b.kind, events[..k], emitted)
    modifies b, strings
    ensures !ok ==> |strings.strings| >= U32_MAX && more == emitted
    ensures ok ==> Between(b, strings, WindowAfter(b.kind, events[..k + 1])) && Emits(b.kind, events[..k + 1], more)
  {
    assert events[..k + 1][..k] == events[..k] && events[..k + 1][k] == events[k];
    ok, more := true, emitted;
    match events[k]
    case Intern(name) =>
      var id := strings.Add(name);
      ok := id.Some?;
    case Sampled(frames, values) =>
      b.AddFfiSample(frames, values);
    case Dump(_, _, _) =>
      var p;
      ok, p := TakeDump(b, strings, events[k]);
      if ok {
        more := emitted + [p];
      }
    case Discard =>
      b.Reset();
    if ok {
      EmitsNext(b.kind, events, k, emitted, more);
    }
  }

  /**
   The whole life of a builder. It emits what the events say, for as long as the string table has room for what the
   dumps and everybody else look up in it.
   */
  method Live(b: PProfBuilder, strings: StringTable, events: seq<Event>) returns (emitted: seq<Option<Profile>>, done: nat)
    requires !b.kind.PySpy? && Between(b, strings, [])
    modifies b, strings
    ensures done <= |events| && Emits(b.kind, events[..done], emitted)
    ensures done < |events| ==> |strings.strings| >= U32_MAX
  {
    emitted, done := [], 0;
    while done < |events|
      invariant done <= |events| && Emits(b.kind, events[..done], emitted)
      invariant Between(b, strings, WindowAfter(b.kind, events[..done]))
    {
      var ok;
      ok, emitted := Take(b, strings, events, done, emitted);
      if !ok {
        return;
      }
      done := done + 1;
    }
  }
}
