/**
 The profile builder: functions and locations deduplicated through hash maps that must agree with dense,
 1-based lists, and samples accumulated per stack of location ids.
 */
module PprofBuilder {
  import opened Words
  import opened Ints
  import opened Options
  import opened Strings
  import opened Pprof
  import opened Backend

  datatype FunctionMirror = FunctionMirror(name: nat, filename: nat)
  datatype LocationMirror = LocationMirror(functionId: nat, line: int)

  // ---- What crosses the FFI boundary ----

  datatype FFIFrame = FFIFrame(functionName: nat, fileName: nat, line: int)
  datatype FFISampleValues = FFISampleValues(cpuTime: int, wallTime: int, allocSpace: nat, allocCount: nat,
                                             heapSpace: nat, heapCount: nat)

  datatype Kind = Memory | CpuWall | OnCpu | PySpy

  /** One slot per sample type, in the same order. */
  function ValueSlots(kind: Kind, v: FFISampleValues): seq<int> {
    match kind
    case Memory => [WrapI64(v.allocCount), WrapI64(v.allocSpace), WrapI64(v.heapCount), WrapI64(v.heapSpace)]
    case CpuWall => [v.cpuTime, v.wallTime]
    case OnCpu => [v.cpuTime]
    case PySpy => []
  }

  function TypeNames(kind: Kind): seq<(string, string)> {
    match kind
    case Memory => [("alloc_objects", "count"), ("alloc_space", "bytes"), ("inuse_objects", "count"), ("inuse_space", "bytes")]
    case CpuWall => [("cpu", "nanoseconds"), ("wall", "nanoseconds")]
    case _ => [("cpu", "nanoseconds")]
  }

  function PeriodTypeName(kind: Kind): (string, string) {
    if kind.Memory? then ("space", "bytes") else ("cpu", "nanoseconds")
  }

  // ---- The aggregation a window is meant to compute ----

  datatype Push = Push(frames: seq<FFIFrame>, values: seq<int>)

  function AddSlots(a: seq<int>, b: seq<int>): (r: seq<int>)
    ensures |r| == |a|
  {
    seq(|a|, i requires 0 <= i < |a| => if i < |b| then SaturatingAdd(a[i], b[i]) else a[i])
  }

  /** The saturating sum of the pushes of `stack`, slot by slot and in the order they were made. */
  function RowOf(window: seq<Push>, stack: seq<FFIFrame>): Option<seq<int>> {
    if window == [] then None
    else
      var before := RowOf(window[..|window| - 1], stack);
      var last := window[|window| - 1];
      if last.frames != stack then before
      else if before.None? then Some(last.values)
      else Some(AddSlots(before.value, last.values))
  }

  // ---- What a row is, in integers ----

  /** The sum of one slot over the pushes of a stack. */
  ghost function SlotSum(window: seq<Push>, stack: seq<FFIFrame>, k: nat): int {
    if window == [] then 0
    else
      var last := window[|window| - 1];
      SlotSum(window[..|window| - 1], stack, k) + if last.frames == stack && k < |last.values| then last.values[k] else 0
  }

  /** No sum on the way leaves `i64`. */
  ghost predicate StaysInRange(window: seq<Push>, stack: seq<FFIFrame>, k: nat) {
    window == [] || (
      && StaysInRange(window[..|window| - 1], stack, k)
      && I64_MIN <= SlotSum(window, stack, k) <= I64_MAX)
  }

  /** All pushes of this stack have `n` values. */
  ghost predicate Wide(window: seq<Push>, stack: seq<FFIFrame>, n: nat) {
    forall push | push in window && push.frames == stack :: |push.values| == n
  }

  /** The first push of a stack is its row; one more adds to each slot and stops at the bounds; other rows stay. */
  lemma {:induction false} RowSteps(window: seq<Push>, push: Push, k: nat)
    ensures var row, next := RowOf(window, push.frames), RowOf(window + [push], push.frames);
      && (row.None? ==> next == Some(push.values))
      && (row.Some? ==> next.Some? && |next.value| == |row.value|)
      && (row.Some? && k < |row.value| && k < |push.values| ==>
            var sum := row.value[k] + push.values[k];
            && (I64_MIN <= sum <= I64_MAX ==> next.value[k] == sum)
            && (sum > I64_MAX ==> next.value[k] == I64_MAX)
            && (sum < I64_MIN ==> next.value[k] == I64_MIN))
    ensures forall stack | stack != push.frames :: RowOf(window + [push], stack) == RowOf(window, stack)
  {
    assert (window + [push])[..|window|] == window;
  }

  /** While no sum leaves `i64`, each slot of a row is the sum of that slot over the pushes of its stack. */
  lemma {:induction false} RowIsSum(window: seq<Push>, stack: seq<FFIFrame>, k: nat, n: nat)
    requires Wide(window, stack, n) && k < n
    ensures RowOf(window, stack).Some? ==> |RowOf(window, stack).value| == n
    ensures RowOf(window, stack).None? ==> SlotSum(window, stack, k) == 0
    ensures RowOf(window, stack).Some? && StaysInRange(window, stack, k) ==> RowOf(window, stack).value[k] == SlotSum(window, stack, k)
    decreases |window|
  {
    if window != [] {
      var front, last := window[..|window| - 1], window[|window| - 1];
      assert window == front + [last];
      RowIsSum(front, stack, k, n);
      RowSteps(front, last, k);
    }
  }

  // ---- Maps and lists that agree ----

  ghost predicate FunctionsAgree(functions: map<FunctionMirror, nat>, fl: seq<Function>) {
    && |functions| == |fl|
    && (forall i {:trigger fl[i]} | 0 <= i < |fl| ::
          var m := FunctionMirror(fl[i].name, fl[i].filename); m in functions && functions[m] == i + 1)
    && (forall m {:trigger Known(functions, m)} | Known(functions, m) ::
          1 <= functions[m] <= |fl| && fl[functions[m] - 1] == Function(functions[m], m.name, m.filename))
  }

  ghost predicate LocationsAgree(locations: map<LocationMirror, nat>, ll: seq<Location>) {
    && |locations| == |ll|
    && (forall i {:trigger ll[i]} | 0 <= i < |ll| ::
          var m := LocationMirror(ll[i].functionId, ll[i].line); m in locations && locations[m] == i + 1)
    && (forall m {:trigger Known(locations, m)} | Known(locations, m) ::
          1 <= locations[m] <= |ll| && ll[locations[m] - 1] == Location(locations[m], m.functionId, m.line))
  }

  ghost predicate Agree(functions: map<FunctionMirror, nat>, locations: map<LocationMirror, nat>,
                        fl: seq<Function>, ll: seq<Location>)
  {
    && FunctionsAgree(functions, fl) && LocationsAgree(locations, ll)
    && (forall i | 0 <= i < |ll| :: 1 <= ll[i].functionId <= |fl|)
  }

  lemma {:induction false} NewFunction(functions: map<FunctionMirror, nat>, fl: seq<Function>, fm: FunctionMirror)
    requires FunctionsAgree(functions, fl) && fm !in functions
    ensures FunctionsAgree(functions[fm := |fl| + 1], fl + [Function(|fl| + 1, fm.name, fm.filename)])
  {
    var functions2 := functions[fm := |fl| + 1];
    var fl2 := fl + [Function(|fl| + 1, fm.name, fm.filename)];
    forall m | Known(functions2, m)
      ensures 1 <= functions2[m] <= |fl2| && fl2[functions2[m] - 1] == Function(functions2[m], m.name, m.filename)
    {
      assert m != fm ==> Known(functions, m);
    }
  }

  lemma {:induction false} NewLocation(locations: map<LocationMirror, nat>, ll: seq<Location>, lm: LocationMirror)
    requires LocationsAgree(locations, ll) && lm !in locations
    ensures LocationsAgree(locations[lm := |ll| + 1], ll + [Location(|ll| + 1, lm.functionId, lm.line)])
  {
    var locations2 := locations[lm := |ll| + 1];
    var ll2 := ll + [Location(|ll| + 1, lm.functionId, lm.line)];
    forall m | Known(locations2, m)
      ensures 1 <= locations2[m] <= |ll2| && ll2[locations2[m] - 1] == Location(locations2[m], m.functionId, m.line)
    {
      assert m != lm ==> Known(locations, m);
    }
  }

  ghost predicate IdOk(fl: seq<Function>, ll: seq<Location>, id: nat) {
    1 <= id <= |ll| && 1 <= ll[id - 1].functionId <= |fl|
  }

  ghost predicate IdsOk(fl: seq<Function>, ll: seq<Location>, ids: seq<nat>) {
    forall id | id in ids :: IdOk(fl, ll, id)
  }

  ghost function FrameAt(fl: seq<Function>, ll: seq<Location>, id: nat): FFIFrame
    requires IdOk(fl, ll, id)
  {
    var l := ll[id - 1];
    FFIFrame(fl[l.functionId - 1].name, fl[l.functionId - 1].filename, l.line)
  }

  /** The frames a stack of location ids stands for. */
  ghost function StackAt(fl: seq<Function>, ll: seq<Location>, ids: seq<nat>): (r: seq<FFIFrame>)
    requires IdsOk(fl, ll, ids)
    ensures |r| == |ids|
  {
    if ids == [] then [] else StackAt(fl, ll, ids[..|ids| - 1]) + [FrameAt(fl, ll, ids[|ids| - 1])]
  }

  lemma {:induction false} FrameInjective(functions: map<FunctionMirror, nat>, locations: map<LocationMirror, nat>,
                                          fl: seq<Function>, ll: seq<Location>, a: nat, b: nat)
    requires Agree(functions, locations, fl, ll) && IdOk(fl, ll, a) && IdOk(fl, ll, b)
    requires FrameAt(fl, ll, a) == FrameAt(fl, ll, b)
    ensures a == b
  {
    var la, lb := ll[a - 1], ll[b - 1];
    assert functions[FunctionMirror(fl[la.functionId - 1].name, fl[la.functionId - 1].filename)] == la.functionId;
    assert functions[FunctionMirror(fl[lb.functionId - 1].name, fl[lb.functionId - 1].filename)] == lb.functionId;
    assert locations[LocationMirror(la.functionId, la.line)] == a;
    assert locations[LocationMirror(lb.functionId, lb.line)] == b;
  }

  /** Distinct ids stand for distinct frames, so distinct id stacks stand for distinct stacks. */
  lemma {:induction false} StackInjective(functions: map<FunctionMirror, nat>, locations: map<LocationMirror, nat>,
                                          fl: seq<Function>, ll: seq<Location>, a: seq<nat>, b: seq<nat>)
    requires Agree(functions, locations, fl, ll) && IdsOk(fl, ll, a) && IdsOk(fl, ll, b)
    requires StackAt(fl, ll, a) == StackAt(fl, ll, b)
    ensures a == b
    decreases |a|
  {
    var stack := StackAt(fl, ll, a);
    assert |a| == |stack| == |b|;
    if a != [] {
      var n := |a| - 1;
      assert stack[..n] == StackAt(fl, ll, a[..n]) && stack[n] == FrameAt(fl, ll, a[n]);
      assert stack[..n] == StackAt(fl, ll, b[..n]) && stack[n] == FrameAt(fl, ll, b[n]);
      StackInjective(functions, locations, fl, ll, a[..n], b[..n]);
      FrameInjective(functions, locations, fl, ll, a[n], b[n]);
      assert a == a[..n] + [a[n]] && b == b[..n] + [b[n]];
    }
  }

  ghost predicate Covered(fl: seq<Function>, ll: seq<Location>, rows: map<seq<nat>, seq<int>>, frames: seq<FFIFrame>) {
    exists key :: key in rows && IdsOk(fl, ll, key) && StackAt(fl, ll, key) == frames
  }

  ghost predicate RowsAgree(fl: seq<Function>, ll: seq<Location>, rows: map<seq<nat>, seq<int>>, window: seq<Push>) {
    && (forall key | key in rows :: IdsOk(fl, ll, key) && RowOf(window, StackAt(fl, ll, key)) == Some(rows[key]))
    && (forall push | push in window :: Covered(fl, ll, rows, push.frames))
  }

  lemma {:induction false} StackStays(fl: seq<Function>, ll: seq<Location>, fl2: seq<Function>, ll2: seq<Location>, ids: seq<nat>)
    requires fl <= fl2 && ll <= ll2 && IdsOk(fl, ll, ids)
    ensures IdsOk(fl2, ll2, ids) && StackAt(fl2, ll2, ids) == StackAt(fl, ll, ids)
    decreases |ids|
  {
    if ids != [] {
      var id := ids[|ids| - 1];
      assert id in ids;
      StackStays(fl, ll, fl2, ll2, ids[..|ids| - 1]);
      assert FrameAt(fl2, ll2, id) == FrameAt(fl, ll, id);
    }
  }

  lemma {:induction false} RowsStay(fl: seq<Function>, ll: seq<Location>, fl2: seq<Function>, ll2: seq<Location>,
                                    rows: map<seq<nat>, seq<int>>, window: seq<Push>)
    requires fl <= fl2 && ll <= ll2 && RowsAgree(fl, ll, rows, window)
    ensures RowsAgree(fl2, ll2, rows, window)
  {
    forall key | key in rows
      ensures IdsOk(fl2, ll2, key) && StackAt(fl2, ll2, key) == StackAt(fl, ll, key)
    {
      StackStays(fl, ll, fl2, ll2, key);
    }
  }

  lemma {:induction false} NoRow(window: seq<Push>, stack: seq<FFIFrame>)
    ensures RowOf(window, stack).None? <==> forall push | push in window :: push.frames != stack
    decreases |window|
  {
    if window != [] {
      NoRow(window[..|window| - 1], stack);
      assert window == window[..|window| - 1] + [window[|window| - 1]];
    }
  }

  /** One more push changes the row of its own stack and no other. */
  lemma {:induction false} RowsGrow(functions: map<FunctionMirror, nat>, locations: map<LocationMirror, nat>,
                                    fl: seq<Function>, ll: seq<Location>, rows: map<seq<nat>, seq<int>>,
                                    window: seq<Push>, ids: seq<nat>, values: seq<int>)
    requires Agree(functions, locations, fl, ll) && RowsAgree(fl, ll, rows, window) && IdsOk(fl, ll, ids)
    ensures RowsAgree(fl, ll, rows[ids := if ids in rows then AddSlots(rows[ids], values) else values],
                      window + [Push(StackAt(fl, ll, ids), values)])
  {
    var stack := StackAt(fl, ll, ids);
    var rows2 := rows[ids := if ids in rows then AddSlots(rows[ids], values) else values];
    var window2 := window + [Push(stack, values)];
    assert window2[..|window|] == window;
    if ids !in rows {
      NoRow(window, stack);
      if push :| push in window && push.frames == stack {
        var key :| key in rows && IdsOk(fl, ll, key) && StackAt(fl, ll, key) == stack;
        StackInjective(functions, locations, fl, ll, key, ids);
        assert false;
      }
    }
    forall key | key in rows2
      ensures IdsOk(fl, ll, key) && RowOf(window2, StackAt(fl, ll, key)) == Some(rows2[key])
    {
      if key != ids && StackAt(fl, ll, key) == stack {
        StackInjective(functions, locations, fl, ll, key, ids);
      }
    }
    forall push | push in window2
      ensures Covered(fl, ll, rows2, push.frames)
    {
      if push in window {
        var key :| key in rows && IdsOk(fl, ll, key) && StackAt(fl, ll, key) == push.frames;
        assert key in rows2;
      } else {
        assert ids in rows2;
      }
    }
  }

  ghost function SampleStack(p: Profile, i: nat): seq<FFIFrame>
    requires i < |p.samples| && IdsOk(p.functions, p.locations, p.samples[i].locationId)
  {
    StackAt(p.functions, p.locations, p.samples[i].locationId)
  }

  /**
   The samples of `p` are the rows of `window`: each sample holds the sum of its stack, no stack appears
   twice, and every pushed stack appears.
   */
  ghost predicate ExactRows(p: Profile, window: seq<Push>) {
    && (forall i | 0 <= i < |p.samples| :: IdsOk(p.functions, p.locations, p.samples[i].locationId))
    && (forall i | 0 <= i < |p.samples| ::
          p.samples[i].labels == [] && RowOf(window, SampleStack(p, i)) == Some(p.samples[i].value))
    && (forall i, j | 0 <= i < j < |p.samples| :: SampleStack(p, i) != SampleStack(p, j))
    && (forall push | push in window :: exists i :: 0 <= i < |p.samples| && SampleStack(p, i) == push.frames)
  }

  /** `samples` are the entries of `rows`, in some order. */
  ghost predicate Flushed(samples: seq<Sample>, rows: map<seq<nat>, seq<int>>) {
    && (forall i | 0 <= i < |samples| ::
          samples[i].labels == [] && samples[i].locationId in rows && samples[i].value == rows[samples[i].locationId])
    && (forall i, j | 0 <= i < j < |samples| :: samples[i].locationId != samples[j].locationId)
    && (forall key | key in rows :: exists i :: 0 <= i < |samples| && samples[i].locationId == key)
  }

  lemma {:induction false} FlushedIsExact(functions: map<FunctionMirror, nat>, locations: map<LocationMirror, nat>,
                                          p: Profile, rows: map<seq<nat>, seq<int>>, window: seq<Push>)
    requires Agree(functions, locations, p.functions, p.locations)
    requires RowsAgree(p.functions, p.locations, rows, window) && Flushed(p.samples, rows)
    ensures ExactRows(p, window)
  {
    forall i, j | 0 <= i < j < |p.samples|
      ensures SampleStack(p, i) != SampleStack(p, j)
    {
      if SampleStack(p, i) == SampleStack(p, j) {
        StackInjective(functions, locations, p.functions, p.locations, p.samples[i].locationId, p.samples[j].locationId);
      }
    }
    forall push | push in window
      ensures exists i :: 0 <= i < |p.samples| && SampleStack(p, i) == push.frames
    {
      assert Covered(p.functions, p.locations, rows, push.frames);
      var key :| key in rows && IdsOk(p.functions, p.locations, key)
                 && StackAt(p.functions, p.locations, key) == push.frames;
      var i :| 0 <= i < |p.samples| && p.samples[i].locationId == key;
      assert SampleStack(p, i) == push.frames;
    }
  }

  /** A profile of a window has exactly the rows any other profile of it has, whatever the map order was. */
  lemma {:induction false} RowsAreDetermined(p: Profile, q: Profile, window: seq<Push>, i: nat)
    requires ExactRows(p, window) && ExactRows(q, window) && i < |p.samples|
    ensures exists j :: 0 <= j < |q.samples| && SampleStack(q, j) == SampleStack(p, i) && q.samples[j].value == p.samples[i].value
  {
    NoRow(window, SampleStack(p, i));
    var push :| push in window && push.frames == SampleStack(p, i);
    var j :| 0 <= j < |q.samples| && SampleStack(q, j) == push.frames;
  }

  // ---- What a stack trace is meant to become ----

  function NamedFrames(frames: seq<StackFrame>): seq<NamedFrame> {
    if frames == [] then []
    else
      var last := frames[|frames| - 1];
      NamedFrames(frames[..|frames| - 1]) + [NamedFrame(last.name, last.filename, last.line)]
  }

  /** `value as i64 * period`, wrapping as a release build does. */
  function Weight(value: nat, period: int): int {
    WrapI64(WrapI64(value) * period)
  }

  function TraceRow(trace: StackTrace, value: nat, period: int): Row {
    Row(NamedFrames(trace.frames), trace.metadata.tags, [Weight(value, period)])
  }

  ghost function TraceStrings(trace: StackTrace): set<string> {
    (set f | f in trace.frames :: f.name) + (set f | f in trace.frames :: f.filename)
    + (set t | t in trace.metadata.tags :: t.key) + (set t | t in trace.metadata.tags :: t.value)
  }

  ghost predicate Within(strings: seq<string>, universe: set<string>) {
    forall s | s in strings :: s in universe
  }

  class PProfBuilder {
    const kind: Kind
    var profile: Profile
    var functions: map<FunctionMirror, nat>
    var locations: map<LocationMirror, nat>
    var ffiSamples: map<seq<nat>, seq<int>>
    var ffiLocationsScratch: seq<nat>
    ghost var window: seq<Push>   // what was pushed since the last profile was taken

    ghost predicate Valid()
      reads this
    {
      && Agree(functions, locations, profile.functions, profile.locations)
      && RowsAgree(profile.functions, profile.locations, ffiSamples, window)
    }

    /** Nothing is buffered. */
    ghost predicate Clear()
      reads this
    {
      && profile.samples == [] && profile.functions == [] && profile.locations == []
      && functions == map[] && locations == map[] && ffiSamples == map[] && window == []
    }

    constructor (kind: Kind)
      ensures this.kind == kind && Valid() && Clear() && profile == EmptyProfile
    {
      this.kind := kind;
      profile := EmptyProfile;
      functions, locations, ffiSamples := map[], map[], map[];
      ffiLocationsScratch := [];
      window := [];
    }

    /** The id of a function: a known one again, a new one at the end of the list. */
    method AddFunctionMirror(fm: FunctionMirror) returns (id: nat)
      requires FunctionsAgree(functions, profile.functions)
      modifies `profile, `functions
      ensures FunctionsAgree(functions, profile.functions)
      ensures old(profile.functions) <= profile.functions && profile == old(profile).(functions := profile.functions)
      ensures 1 <= id <= |profile.functions| && profile.functions[id - 1] == Function(id, fm.name, fm.filename)
    {
      if fm in functions {
        assert Known(functions, fm);
        return functions[fm];
      }
      assert |functions| != |profile.functions| + 1;
      id := |functions| + 1;
      NewFunction(functions, profile.functions, fm);
      functions := functions[fm := id];
      profile := profile.(functions := profile.functions + [Function(id, fm.name, fm.filename)]);
    }

    method AddLocationMirror(lm: LocationMirror) returns (id: nat)
      requires LocationsAgree(locations, profile.locations)
      modifies `profile, `locations
      ensures LocationsAgree(locations, profile.locations)
      ensures profile.locations == old(profile.locations) || profile.locations == old(profile.locations) + [Location(id, lm.functionId, lm.line)]
      ensures old(profile.locations) <= profile.locations && profile == old(profile).(locations := profile.locations)
      ensures 1 <= id <= |profile.locations| && profile.locations[id - 1] == Location(id, lm.functionId, lm.line)
    {
      if lm in locations {
        assert Known(locations, lm);
        return locations[lm];
      }
      assert |locations| != |profile.locations| + 1;
      id := |locations| + 1;
      NewLocation(locations, profile.locations, lm);
      locations := locations[lm := id];
      profile := profile.(locations := profile.locations + [Location(id, lm.functionId, lm.line)]);
    }

    /** The location id of a frame. */
    method AddFrame(name: nat, filename: nat, line: int) returns (id: nat)
      requires Agree(functions, locations, profile.functions, profile.locations)
      modifies `profile, `functions, `locations
      ensures Agree(functions, locations, profile.functions, profile.locations)
      ensures old(profile.functions) <= profile.functions && old(profile.locations) <= profile.locations
      ensures profile == old(profile).(functions := profile.functions, locations := profile.locations)
      ensures IdOk(profile.functions, profile.locations, id)
      ensures FrameAt(profile.functions, profile.locations, id) == FFIFrame(name, filename, line)
    {
      var functionId := AddFunctionMirror(FunctionMirror(name, filename));
      ghost var fl := profile.functions;
      id := AddLocationMirror(LocationMirror(functionId, line));
      assert profile.functions == fl;
      assert forall i | 0 <= i < |profile.locations| :: 1 <= profile.locations[i].functionId <= |fl|;
    }

    /** Adds `values` to the row of this stack. */
    method AddFfiSample(frames: seq<FFIFrame>, values: FFISampleValues)
      requires Valid()
      modifies this
      ensures Valid()
      ensures window == old(window) + [Push(frames, ValueSlots(kind, values))]
      ensures profile == old(profile).(functions := profile.functions, locations := profile.locations)
      ensures old(profile.functions) <= profile.functions && old(profile.locations) <= profile.locations
    {
      var sampleValues := ValueSlots(kind, values);
      var locationIds := AddFrames(frames);
      RowsStay(old(profile.functions), old(profile.locations), profile.functions, profile.locations, ffiSamples, window);
      RowsGrow(functions, locations, profile.functions, profile.locations, ffiSamples, window, locationIds, sampleValues);
      if locationIds in ffiSamples {
        ffiSamples := ffiSamples[locationIds := AddSlots(ffiSamples[locationIds], sampleValues)];
      } else {
        ffiSamples := ffiSamples[locationIds := sampleValues];
      }
      window := window + [Push(frames, sampleValues)];
      ffiLocationsScratch := locationIds;
    }

    /** The location ids of a stack, in frame order. */
    method AddFrames(frames: seq<FFIFrame>) returns (locationIds: seq<nat>)
      requires Agree(functions, locations, profile.functions, profile.locations)
      modifies `profile, `functions, `locations, `ffiLocationsScratch
      ensures Agree(functions, locations, profile.functions, profile.locations)
      ensures old(profile.functions) <= profile.functions && old(profile.locations) <= profile.locations
      ensures profile == old(profile).(functions := profile.functions, locations := profile.locations)
      ensures IdsOk(profile.functions, profile.locations, locationIds)
      ensures StackAt(profile.functions, profile.locations, locationIds) == frames
    {
      locationIds := ffiLocationsScratch;
      ffiLocationsScratch := [];
      locationIds := [];
      var i := 0;
      assert frames[..0] == [];
      while i < |frames|
        invariant i <= |frames| && (i == |frames| ==> frames[..i] == frames)
        invariant Agree(functions, locations, profile.functions, profile.locations)
        invariant old(profile.functions) <= profile.functions && old(profile.locations) <= profile.locations
        invariant profile == old(profile).(functions := profile.functions, locations := profile.locations)
        invariant IdsOk(profile.functions, profile.locations, locationIds)
        invariant StackAt(profile.functions, profile.locations, locationIds) == frames[..i]
      {
        ghost var fl, ll := profile.functions, profile.locations;
        var id := AddFrame(frames[i].functionName, frames[i].fileName, frames[i].line);
        StackGrows(fl, ll, profile.functions, profile.locations, locationIds, id);
        OneMore(frames, i);
        locationIds := locationIds + [id];
        i := i + 1;
      }
    }

    /** Drains the rows into samples, in whatever order the map yields them. */
    method FlushFfiSamples()
      requires profile.samples == []
      modifies `profile, `ffiSamples
      ensures ffiSamples == map[] && profile == old(profile).(samples := profile.samples)
      ensures Flushed(profile.samples, old(ffiSamples))
    {
      var todo := ffiSamples.Keys;
      ghost var done: map<seq<nat>, seq<int>> := map[];
      while todo != {}
        invariant todo <= ffiSamples.Keys && ffiSamples == old(ffiSamples)
        invariant done.Keys == ffiSamples.Keys - todo && (forall key | key in done :: done[key] == ffiSamples[key])
        invariant profile == old(profile).(samples := profile.samples)
        invariant Flushed(profile.samples, done)
        decreases |todo|
      {
        var key :| key in todo;
        FlushOne(profile.samples, done, key, ffiSamples[key]);
        done := done[key := ffiSamples[key]];
        profile := profile.(samples := profile.samples + [Sample(key, ffiSamples[key], [])]);
        todo := todo - {key};
      }
      assert done == ffiSamples;
      ffiSamples := map[];
    }

    /** Discards everything buffered; the sample types and the period stay. */
    method Reset()
      modifies this
      ensures Valid() && Clear()
      ensures profile == old(profile).(samples := [], functions := [], locations := [], stringTable := [],
                                       timeNanos := 0, durationNanos := 0)
    {
      profile := profile.(samples := [], functions := [], locations := [], stringTable := [], timeNanos := 0, durationNanos := 0);
      locations, functions, ffiSamples := map[], map[], map[];
      ffiLocationsScratch := [];
      window := [];
    }

    /**
     Emits the profile of the window, with a copy of the whole string table, and starts an empty window.
     There is no profile exactly when nothing was pushed.
     */
    method TakeProfileAndReset(strings: StringTable, timeNanos: nat, durationNanos: nat) returns (r: Option<Profile>)
      requires Valid() && strings.Valid() && profile.samples == []
      modifies this
      ensures Valid() && Clear()
      ensures r.None? <==> old(window) == []
      ensures r.Some? ==> ExactRows(r.value, old(window)) && r.value.stringTable == strings.strings
      ensures r.Some? ==> r.value.sampleTypes == old(profile.sampleTypes) && r.value.periodType == old(profile.periodType)
      ensures r.Some? ==> r.value.period == old(profile.period) && Ranged(r.value, timeNanos, durationNanos)
      ensures r.Some? ==> Dense(TablesOf(r.value))
      ensures r.Some? ==> profile == EmptyProfile
      ensures r.None? ==> profile.sampleTypes == old(profile.sampleTypes) && profile.periodType == old(profile.periodType)
      ensures r.None? ==> profile.period == old(profile.period)
    {
      FlushWindow();
      if profile.samples == [] {
        Reset();
        return None;
      }
      profile := profile.(timeNanos := WrapI64(timeNanos % WORD), durationNanos := WrapI64(durationNanos % WORD));
      var table := strings.PprofTable();
      profile := profile.(stringTable := table);
      r := Some(profile);
      profile := EmptyProfile;
      Reset();
    }

    // ---- Samples from stack traces ----

    /** The tables samples are resolved through while the profile is being built. */
    ghost function TablesWith(strings: StringTable): Tables
      reads this, strings
    {
      Tables(strings.strings, profile.functions, profile.locations)
    }

    ghost predicate Building(strings: StringTable, universe: set<string>)
      reads this, strings
    {
      && Agree(functions, locations, profile.functions, profile.locations)
      && strings.Valid() && Within(strings.strings, universe)
    }

    /** The location id of a named frame, or nothing when the string table is full. */
    method AddNamedFrame(strings: StringTable, sf: StackFrame, ghost universe: set<string>) returns (id: Option<nat>)
      requires Building(strings, universe) && sf.name in universe && sf.filename in universe
      modifies `profile, `functions, `locations, strings
      ensures Building(strings, universe) && Extends(old(TablesWith(strings)), TablesWith(strings))
      ensures profile == old(profile).(functions := profile.functions, locations := profile.locations)
      ensures id.None? ==> |strings.strings| >= U32_MAX
      ensures id.Some? ==> DecodeFrame(TablesWith(strings), id.value) == Some(NamedFrame(sf.name, sf.filename, sf.line))
    {
      var name :- strings.Add(sf.name);
      var filename :- strings.Add(sf.filename);
      var location := AddFrame(name, filename, sf.line);
      FrameDecodes(functions, locations, TablesWith(strings), location, name, filename, sf);
      id := Some(location);
    }

    method AddNamedFrames(strings: StringTable, frames: seq<StackFrame>, ghost universe: set<string>) returns (r: Option<seq<nat>>)
      requires Building(strings, universe) && forall f | f in frames :: f.name in universe && f.filename in universe
      modifies `profile, `functions, `locations, strings
      ensures Building(strings, universe) && Extends(old(TablesWith(strings)), TablesWith(strings))
      ensures profile == old(profile).(functions := profile.functions, locations := profile.locations)
      ensures r.None? ==> |strings.strings| >= U32_MAX
      ensures r.Some? ==> DecodeFrames(TablesWith(strings), r.value) == Some(NamedFrames(frames))
    {
      var ids: seq<nat> := [];
      var i := 0;
      assert frames[..0] == [];
      while i < |frames|
        invariant i <= |frames| && (i == |frames| ==> frames[..i] == frames)
        invariant Building(strings, universe) && Extends(old(TablesWith(strings)), TablesWith(strings))
        invariant profile == old(profile).(functions := profile.functions, locations := profile.locations)
        invariant DecodeFrames(TablesWith(strings), ids) == Some(NamedFrames(frames[..i]))
      {
        ghost var before := TablesWith(strings);
        var id :- AddNamedFrame(strings, frames[i], universe);
        FramesStay(before, TablesWith(strings), ids);
        FramesAppend(TablesWith(strings), ids, id, frames, i);
        ids := ids + [id];
        i := i + 1;
      }
      r := Some(ids);
    }

    method AddLabels(strings: StringTable, tags: seq<Tag>, ghost universe: set<string>) returns (r: Option<seq<Label>>)
      requires Building(strings, universe) && forall t | t in tags :: t.key in universe && t.value in universe
      modifies strings
      ensures Building(strings, universe) && Extends(old(TablesWith(strings)), TablesWith(strings))
      ensures r.None? ==> |strings.strings| >= U32_MAX
      ensures r.Some? ==> DecodeLabels(TablesWith(strings), r.value) == Some(tags)
    {
      var labels: seq<Label> := [];
      var i := 0;
      assert tags[..0] == [];
      while i < |tags|
        invariant i <= |tags| && (i == |tags| ==> tags[..i] == tags)
        invariant Building(strings, universe) && Extends(old(TablesWith(strings)), TablesWith(strings))
        invariant DecodeLabels(TablesWith(strings), labels) == Some(tags[..i])
      {
        ghost var before := TablesWith(strings);
        var pair :- AddPair(strings, tags[i].key, tags[i].value, universe);
        LabelsStay(before, TablesWith(strings), labels);
        LabelsAppend(TablesWith(strings), labels, Label(pair.0, pair.1), tags, i);
        labels := labels + [Label(pair.0, pair.1)];
        i := i + 1;
      }
      r := Some(labels);
    }

    /** Appends one sample that decodes to this trace; the samples before it keep their meaning. */
    method AddStacktrace(strings: StringTable, trace: StackTrace, value: nat, ghost universe: set<string>) returns (ok: bool)
      requires Building(strings, universe) && TraceStrings(trace) <= universe
      modifies `profile, `functions, `locations, strings
      ensures Building(strings, universe) && Extends(old(TablesWith(strings)), TablesWith(strings))
      ensures !ok ==> |strings.strings| >= U32_MAX
      ensures ok ==> |profile.samples| == |old(profile.samples)| + 1 && profile.samples[..|old(profile.samples)|] == old(profile.samples)
      ensures ok ==> DecodeSample(TablesWith(strings), profile.samples[|old(profile.samples)|]) == Some(TraceRow(trace, value, old(profile.period)))
      ensures profile == old(profile).(samples := profile.samples, functions := profile.functions, locations := profile.locations)
    {
      var weight := WrapI64(WrapI64(value) * profile.period);
      forall f | f in trace.frames
        ensures f.name in universe && f.filename in universe
      {
        assert f.name in TraceStrings(trace) && f.filename in TraceStrings(trace);
      }
      forall t | t in trace.metadata.tags
        ensures t.key in universe && t.value in universe
      {
        assert t.key in TraceStrings(trace) && t.value in TraceStrings(trace);
      }
      var ids := AddNamedFrames(strings, trace.frames, universe);
      if ids.None? {
        return false;
      }
      ghost var before := TablesWith(strings);
      var labels := AddLabels(strings, trace.metadata.tags, universe);
      if labels.None? {
        return false;
      }
      FramesStay(before, TablesWith(strings), ids.value);
      profile := profile.(samples := profile.samples + [Sample(ids.value, [weight], labels.value)]);
      ok := true;
    }

    /**
     Assigns the sample types and the period. It fails when the string table is full, or on the division by a
     zero sample rate.
     */
    method SetProfileType(strings: StringTable, config: nat, ghost universe: set<string>) returns (ok: bool)
      requires Building(strings, universe) && TypeStrings(kind) <= universe
      modifies `profile, strings
      ensures Building(strings, universe) && Extends(old(TablesWith(strings)), TablesWith(strings))
      ensures !ok ==> |strings.strings| >= U32_MAX || (kind.PySpy? && config == 0)
      ensures kind.PySpy? && config == 0 ==> !ok
      ensures ok ==> profile == old(profile).(sampleTypes := profile.sampleTypes, periodType := profile.periodType,
                                              period := PeriodOf(kind, config))
      ensures ok ==> Typed(kind, profile, strings.strings)
      ensures ok && kind.PySpy? ==> profile.period == 1_000_000_000 / config
      ensures ok && !kind.PySpy? && config <= I64_MAX ==> profile.period == config
      ensures !ok ==> profile == old(profile).(sampleTypes := profile.sampleTypes)
    {
      var types := AddTypes(strings, TypeNames(kind), universe);
      if types.None? {
        return false;
      }
      profile := profile.(sampleTypes := types.value);
      if kind.PySpy? && config == 0 {
        return false;
      }
      ghost var before := strings.strings;
      var periodType := AddPair(strings, PeriodTypeName(kind).0, PeriodTypeName(kind).1, universe);
      if periodType.None? {
        return false;
      }
      TypedBy(kind, types.value, ValueType(periodType.value.0, periodType.value.1), before, strings.strings);
      profile := profile.(period := PeriodOf(kind, config), periodType := Some(ValueType(periodType.value.0, periodType.value.1)));
      ok := true;
    }

    method AddTypes(strings: StringTable, names: seq<(string, string)>, ghost universe: set<string>) returns (r: Option<seq<ValueType>>)
      requires Building(strings, universe) && forall n | n in names :: n.0 in universe && n.1 in universe
      modifies strings
      ensures Building(strings, universe) && Extends(old(TablesWith(strings)), TablesWith(strings))
      ensures r.None? ==> |strings.strings| >= U32_MAX
      ensures r.Some? ==> DecodeTypes(strings.strings, r.value) == Some(names)
    {
      var types: seq<ValueType> := [];
      var i := 0;
      assert names[..0] == [];
      while i < |names|
        invariant i <= |names| && (i == |names| ==> names[..i] == names)
        invariant Building(strings, universe) && Extends(old(TablesWith(strings)), TablesWith(strings))
        invariant DecodeTypes(strings.strings, types) == Some(names[..i])
      {
        ghost var before := strings.strings;
        var pair :- AddPair(strings, names[i].0, names[i].1, universe);
        TypesStay(before, strings.strings, types);
        OneMore(names, i);
        TypesAppend(strings.strings, types, ValueType(pair.0, pair.1));
        types := types + [ValueType(pair.0, pair.1)];
        i := i + 1;
      }
      r := Some(types);
    }

    /** Interns two strings. */
    method AddPair(strings: StringTable, a: string, b: string, ghost universe: set<string>) returns (r: Option<(nat, nat)>)
      requires Building(strings, universe) && a in universe && b in universe
      modifies strings
      ensures Building(strings, universe) && Extends(old(TablesWith(strings)), TablesWith(strings))
      ensures r.None? ==> |strings.strings| >= U32_MAX
      ensures r.Some? ==> r.value.0 < |strings.strings| && r.value.1 < |strings.strings|
      ensures r.Some? ==> strings.strings[r.value.0] == a && strings.strings[r.value.1] == b
    {
      var i :- strings.Add(a);
      var j :- strings.Add(b);
      r := Some((i, j));
    }

    method FlushWindow()
      requires Valid() && profile.samples == []
      modifies `profile, `ffiSamples
      ensures profile == old(profile).(samples := profile.samples)
      ensures profile.samples == [] <==> window == []
      ensures forall p: Profile | SameSamples(p, profile) :: ExactRows(p, window) && Dense(TablesOf(p))
    {
      FlushFfiSamples();
      FlushedIsExact(functions, locations, profile, old(ffiSamples), window);
      ListsAreDense(functions, locations, profile.functions, profile.locations);
      NonEmpty(profile, window);
      forall p: Profile | SameSamples(p, profile)
        ensures ExactRows(p, window)
      {
        SameRows(window, p, profile);
      }
    }
  }

  /** The period a sampling configuration stands for: a heap interval, nanoseconds as read, or a rate in Hz. */
  function PeriodOf(kind: Kind, config: nat): int {
    match kind
    case PySpy => if config == 0 then 0 else 1_000_000_000 / config
    case _ => WrapI64(config)
  }

  ghost function TypeStrings(kind: Kind): (r: set<string>)
    ensures forall n | n in TypeNames(kind) + [PeriodTypeName(kind)] :: n.0 in r && n.1 in r
  {
    var names := TypeNames(kind) + [PeriodTypeName(kind)];
    (set n | n in names :: n.0) + (set n | n in names :: n.1)
  }

  /** The types of `p` are named as `kind` says. */
  ghost predicate Typed(kind: Kind, p: Profile, strings: seq<string>) {
    && DecodeTypes(strings, p.sampleTypes) == Some(TypeNames(kind))
    && p.periodType.Some? && DecodeTypes(strings, [p.periodType.value]) == Some([PeriodTypeName(kind)])
  }

  /** The names themselves, kind by kind. */
  lemma TypesByName(kind: Kind, p: Profile, strings: seq<string>)
    requires Typed(kind, p, strings)
    ensures DecodeTypes(strings, p.sampleTypes)
            == Some(if kind.Memory? then
                      [("alloc_objects", "count"), ("alloc_space", "bytes"), ("inuse_objects", "count"), ("inuse_space", "bytes")]
                    else if kind.CpuWall? then [("cpu", "nanoseconds"), ("wall", "nanoseconds")]
                    else [("cpu", "nanoseconds")])
    ensures p.periodType.Some?
    ensures DecodeTypes(strings, [p.periodType.value]) == Some([if kind.Memory? then ("space", "bytes") else ("cpu", "nanoseconds")])
  {
  }

  lemma {:induction false} TypedBy(kind: Kind, types: seq<ValueType>, periodType: ValueType, a: seq<string>, b: seq<string>)
    requires DecodeTypes(a, types) == Some(TypeNames(kind)) && a <= b && periodType.kind < |b| && periodType.unit < |b|
    requires b[periodType.kind] == PeriodTypeName(kind).0 && b[periodType.unit] == PeriodTypeName(kind).1
    ensures forall p: Profile | p.sampleTypes == types && p.periodType == Some(periodType) :: Typed(kind, p, b)
  {
    TypesStay(a, b, types);
    var none: seq<ValueType> := [];
    TypesAppend(b, none, periodType);
    assert none + [periodType] == [periodType];
    assert DecodeTypes(b, none) == Some([]);
    assert DecodeTypes(b, [periodType]).value == [PeriodTypeName(kind)];
  }

  lemma {:induction false} TypedStays(kind: Kind, p: Profile, q: Profile, a: seq<string>, b: seq<string>)
    requires Typed(kind, p, a) && a <= b && q.sampleTypes == p.sampleTypes && q.periodType == p.periodType
    ensures Typed(kind, q, b)
  {
    TypesStay(a, b, p.sampleTypes);
    TypesStay(a, b, [p.periodType.value]);
  }

  /** The time range of a profile: nanoseconds cast to `i64`. */
  predicate Ranged(p: Profile, timeNanos: nat, durationNanos: nat) {
    p.timeNanos == WrapI64(timeNanos % WORD) && p.durationNanos == WrapI64(durationNanos % WORD)
  }

  function DecodeTypes(strings: seq<string>, types: seq<ValueType>): Option<seq<(string, string)>> {
    if types == [] then Some([])
    else
      var init :- DecodeTypes(strings, types[..|types| - 1]);
      var last := types[|types| - 1];
      if last.kind < |strings| && last.unit < |strings| then Some(init + [(strings[last.kind], strings[last.unit])]) else None
  }

  lemma {:induction false} TypesStay(a: seq<string>, b: seq<string>, types: seq<ValueType>)
    requires a <= b && DecodeTypes(a, types).Some?
    ensures DecodeTypes(b, types) == DecodeTypes(a, types)
    decreases |types|
  {
    if types != [] {
      TypesStay(a, b, types[..|types| - 1]);
    }
  }

  lemma TypesAppend(strings: seq<string>, types: seq<ValueType>, vt: ValueType)
    requires DecodeTypes(strings, types).Some? && vt.kind < |strings| && vt.unit < |strings|
    ensures DecodeTypes(strings, types + [vt]) == Some(DecodeTypes(strings, types).value + [(strings[vt.kind], strings[vt.unit])])
  {
    assert (types + [vt])[..|types|] == types;
  }

  /** The id of a frame is found again, and leads to its strings. */
  lemma {:induction false} FrameDecodes(functions: map<FunctionMirror, nat>, locations: map<LocationMirror, nat>, t: Tables,
                                        id: nat, name: nat, filename: nat, sf: StackFrame)
    requires Agree(functions, locations, t.functions, t.locations) && IdOk(t.functions, t.locations, id)
    requires FrameAt(t.functions, t.locations, id) == FFIFrame(name, filename, sf.line)
    requires name < |t.strings| && t.strings[name] == sf.name && filename < |t.strings| && t.strings[filename] == sf.filename
    ensures DecodeFrame(t, id) == Some(NamedFrame(sf.name, sf.filename, sf.line))
  {
    ListsAreDense(functions, locations, t.functions, t.locations);
    FindInDenseLocations(t.locations, 0, id);
    FindInDenseFunctions(t.functions, 0, t.locations[id - 1].functionId);
  }

  lemma FramesAppend(t: Tables, ids: seq<nat>, id: nat, frames: seq<StackFrame>, i: nat)
    requires i < |frames| && DecodeFrames(t, ids) == Some(NamedFrames(frames[..i]))
    requires DecodeFrame(t, id) == Some(NamedFrame(frames[i].name, frames[i].filename, frames[i].line))
    ensures DecodeFrames(t, ids + [id]) == Some(NamedFrames(frames[..i + 1]))
    ensures i + 1 == |frames| ==> frames[..i + 1] == frames
  {
    assert (ids + [id])[..|ids|] == ids;
    assert frames[..i + 1][..i] == frames[..i];
  }

  lemma LabelsAppend(t: Tables, labels: seq<Label>, label_: Label, tags: seq<Tag>, i: nat)
    requires i < |tags| && DecodeLabels(t, labels) == Some(tags[..i])
    requires String(t, label_.key) == Some(tags[i].key) && String(t, label_.str) == Some(tags[i].value)
    ensures DecodeLabels(t, labels + [label_]) == Some(tags[..i + 1])
    ensures i + 1 == |tags| ==> tags[..i + 1] == tags
  {
    assert (labels + [label_])[..|labels|] == labels;
    assert tags[..i + 1] == tags[..i] + [tags[i]];
  }

  ghost predicate SameSamples(p: Profile, q: Profile) {
    p.samples == q.samples && p.functions == q.functions && p.locations == q.locations
  }

  lemma OneMore<T>(s: seq<T>, i: nat)
    requires i < |s|
    ensures s[..i + 1] == s[..i] + [s[i]]
    ensures i + 1 == |s| ==> s[..i + 1] == s
  {
  }

  lemma {:induction false} NonEmpty(p: Profile, window: seq<Push>)
    requires ExactRows(p, window)
    ensures p.samples == [] <==> window == []
  {
    if window != [] {
      assert window[0] in window;
    } else if p.samples != [] {
      NoRow(window, SampleStack(p, 0));
    }
  }

  lemma {:induction false} SameRows(window: seq<Push>, p: Profile, q: Profile)
    requires SameSamples(p, q)
    ensures ExactRows(p, window) <==> ExactRows(q, window)
  {
    assert forall i | 0 <= i < |p.samples| && IdsOk(p.functions, p.locations, p.samples[i].locationId) ::
        SampleStack(p, i) == SampleStack(q, i);
  }

  lemma ListsAreDense(functions: map<FunctionMirror, nat>, locations: map<LocationMirror, nat>,
                      fl: seq<Function>, ll: seq<Location>)
    requires Agree(functions, locations, fl, ll)
    ensures forall t: Tables | t.functions == fl && t.locations == ll :: Dense(t)
  {
    forall i | 0 <= i < |fl|
      ensures fl[i].id == i + 1
    {
      assert Known(functions, FunctionMirror(fl[i].name, fl[i].filename));
    }
    forall i | 0 <= i < |ll|
      ensures ll[i].id == i + 1
    {
      assert Known(locations, LocationMirror(ll[i].functionId, ll[i].line));
    }
  }

  lemma {:induction false} FlushOne(samples: seq<Sample>, rows: map<seq<nat>, seq<int>>, key: seq<nat>, value: seq<int>)
    requires Flushed(samples, rows) && key !in rows
    ensures Flushed(samples + [Sample(key, value, [])], rows[key := value])
  {
    var more := samples + [Sample(key, value, [])];
    forall k: seq<nat> | k == key || k in rows
      ensures exists i :: 0 <= i < |more| && more[i].locationId == k
    {
      if k == key {
        assert more[|samples|].locationId == k;
      } else {
        var i :| 0 <= i < |samples| && samples[i].locationId == k;
        assert more[i].locationId == k;
      }
    }
  }

  lemma {:induction false} StackGrows(fl: seq<Function>, ll: seq<Location>, fl2: seq<Function>, ll2: seq<Location>,
                                      ids: seq<nat>, id: nat)
    requires fl <= fl2 && ll <= ll2 && IdsOk(fl, ll, ids) && IdOk(fl2, ll2, id)
    ensures IdsOk(fl2, ll2, ids + [id])
    ensures StackAt(fl2, ll2, ids + [id]) == StackAt(fl, ll, ids) + [FrameAt(fl2, ll2, id)]
  {
    StackStays(fl, ll, fl2, ll2, ids);
    assert (ids + [id])[..|ids|] == ids;
  }
}
