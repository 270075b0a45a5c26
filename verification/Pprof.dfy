/** The pprof profile and what it means: rows of named frames, labels and values. */
module Pprof {
  import opened Options

  datatype ValueType = ValueType(kind: nat, unit: nat)
  datatype Label = Label(key: nat, str: nat)
  datatype Sample = Sample(locationId: seq<nat>, value: seq<int>, labels: seq<Label>)
  datatype Function = Function(id: nat, name: nat, filename: nat)
  datatype Location = Location(id: nat, functionId: nat, line: int)
  datatype Profile = Profile(sampleTypes: seq<ValueType>, samples: seq<Sample>, locations: seq<Location>,
                             functions: seq<Function>, stringTable: seq<string>, timeNanos: int,
                             durationNanos: int, periodType: Option<ValueType>, period: int)

  const EmptyProfile := Profile([], [], [], [], [], 0, 0, None, 0)

  // ---- Decoding ----

  datatype NamedFrame = NamedFrame(name: string, filename: string, line: int)
  datatype Tag = Tag(key: string, value: string)
  datatype Row = Row(frames: seq<NamedFrame>, labels: seq<Tag>, values: seq<int>)

  /** The tables a sample is resolved through. */
  datatype Tables = Tables(strings: seq<string>, functions: seq<Function>, locations: seq<Location>)

  function TablesOf(p: Profile): Tables {
    Tables(p.stringTable, p.functions, p.locations)
  }

  /** Ids are looked up, not used as positions: that they agree is a property of the builder. */
  function FindFunction(functions: seq<Function>, id: nat): Option<Function> {
    if functions == [] then None
    else if functions[0].id == id then Some(functions[0])
    else FindFunction(functions[1..], id)
  }

  function FindLocation(locations: seq<Location>, id: nat): Option<Location> {
    if locations == [] then None
    else if locations[0].id == id then Some(locations[0])
    else FindLocation(locations[1..], id)
  }

  function String(t: Tables, i: nat): Option<string> {
    if i < |t.strings| then Some(t.strings[i]) else None
  }

  function DecodeFrame(t: Tables, id: nat): Option<NamedFrame> {
    var location :- FindLocation(t.locations, id);
    var fn :- FindFunction(t.functions, location.functionId);
    var name :- String(t, fn.name);
    var filename :- String(t, fn.filename);
    Some(NamedFrame(name, filename, location.line))
  }

  function DecodeFrames(t: Tables, ids: seq<nat>): Option<seq<NamedFrame>> {
    if ids == [] then Some([])
    else
      var init :- DecodeFrames(t, ids[..|ids| - 1]);
      var last :- DecodeFrame(t, ids[|ids| - 1]);
      Some(init + [last])
  }

  function DecodeLabels(t: Tables, labels: seq<Label>): Option<seq<Tag>> {
    if labels == [] then Some([])
    else
      var init :- DecodeLabels(t, labels[..|labels| - 1]);
      var key :- String(t, labels[|labels| - 1].key);
      var value :- String(t, labels[|labels| - 1].str);
      Some(init + [Tag(key, value)])
  }

  function DecodeSample(t: Tables, s: Sample): Option<Row> {
    var frames :- DecodeFrames(t, s.locationId);
    var labels :- DecodeLabels(t, s.labels);
    Some(Row(frames, labels, s.value))
  }

  function DecodeSamples(t: Tables, samples: seq<Sample>): Option<seq<Row>> {
    if samples == [] then Some([])
    else
      var init :- DecodeSamples(t, samples[..|samples| - 1]);
      var last :- DecodeSample(t, samples[|samples| - 1]);
      Some(init + [last])
  }

  // ---- Dense tables ----

  ghost predicate Dense(t: Tables) {
    && (forall i | 0 <= i < |t.functions| :: t.functions[i].id == i + 1)
    && (forall i | 0 <= i < |t.locations| :: t.locations[i].id == i + 1)
  }

  lemma {:induction false} FindInDenseFunctions(functions: seq<Function>, from: nat, id: nat)
    requires forall i | 0 <= i < |functions| :: functions[i].id == from + i + 1
    requires from < id <= from + |functions|
    ensures FindFunction(functions, id) == Some(functions[id - from - 1])
    decreases |functions|
  {
    if functions[0].id != id {
      FindInDenseFunctions(functions[1..], from + 1, id);
    }
  }

  lemma {:induction false} FindInDenseLocations(locations: seq<Location>, from: nat, id: nat)
    requires forall i | 0 <= i < |locations| :: locations[i].id == from + i + 1
    requires from < id <= from + |locations|
    ensures FindLocation(locations, id) == Some(locations[id - from - 1])
    decreases |locations|
  {
    if locations[0].id != id {
      FindInDenseLocations(locations[1..], from + 1, id);
    }
  }

  ghost predicate Extends(t: Tables, u: Tables) {
    t.strings <= u.strings && t.functions <= u.functions && t.locations <= u.locations
  }

  /** Later additions to the tables do not change what an earlier sample means. */
  lemma {:induction false} FrameStays(t: Tables, u: Tables, id: nat)
    requires Extends(t, u) && DecodeFrame(t, id).Some?
    ensures DecodeFrame(u, id) == DecodeFrame(t, id)
  {
    LocationStays(t.locations, u.locations, id);
    FunctionStays(t.functions, u.functions, FindLocation(t.locations, id).value.functionId);
  }

  lemma {:induction false} LocationStays(a: seq<Location>, b: seq<Location>, id: nat)
    requires a <= b && FindLocation(a, id).Some?
    ensures FindLocation(b, id) == FindLocation(a, id)
    decreases |a|
  {
    if a[0].id != id {
      LocationStays(a[1..], b[1..], id);
    }
  }

  lemma {:induction false} FunctionStays(a: seq<Function>, b: seq<Function>, id: nat)
    requires a <= b && FindFunction(a, id).Some?
    ensures FindFunction(b, id) == FindFunction(a, id)
    decreases |a|
  {
    if a[0].id != id {
      FunctionStays(a[1..], b[1..], id);
    }
  }

  lemma {:induction false} FramesStay(t: Tables, u: Tables, ids: seq<nat>)
    requires Extends(t, u) && DecodeFrames(t, ids).Some?
    ensures DecodeFrames(u, ids) == DecodeFrames(t, ids)
    decreases |ids|
  {
    if ids != [] {
      FramesStay(t, u, ids[..|ids| - 1]);
      FrameStays(t, u, ids[|ids| - 1]);
    }
  }

  lemma {:induction false} LabelsStay(t: Tables, u: Tables, labels: seq<Label>)
    requires Extends(t, u) && DecodeLabels(t, labels).Some?
    ensures DecodeLabels(u, labels) == DecodeLabels(t, labels)
    decreases |labels|
  {
    if labels != [] {
      LabelsStay(t, u, labels[..|labels| - 1]);
    }
  }

  lemma {:induction false} SamplesStay(t: Tables, u: Tables, samples: seq<Sample>)
    requires Extends(t, u) && DecodeSamples(t, samples).Some?
    ensures DecodeSamples(u, samples) == DecodeSamples(t, samples)
    decreases |samples|
  {
    if samples != [] {
      SamplesStay(t, u, samples[..|samples| - 1]);
      var last := samples[|samples| - 1];
      FramesStay(t, u, last.locationId);
      LabelsStay(t, u, last.labels);
    }
  }
}
