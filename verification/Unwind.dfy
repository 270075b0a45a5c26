/**
 The stack unwinder that runs in the signal handler. Memory is an arbitrary partial map, so frame chains may
 be broken, cyclic, or point anywhere.
 */
module Unwind {
  import opened Words
  import opened Options

  const MAX_FRAMES := 256

  datatype Frame = Frame(code: nat, instr: nat)

  datatype Error = NoThreadState | Read | InvalidCodeType | Truncated | Invalid

  datatype Result<T> = Ok(value: T) | Err(error: Error) {
    predicate IsFailure() { Err? }
    function PropagateFailure<U>(): Result<U>
      requires Err?
    {
      Err(error)
    }
    function Extract(): T
      requires Ok?
    {
      value
    }
  }

  /** What `kindasafe` can read: words and bytes at the addresses that do not fault. */
  datatype Memory = Memory(words: map<nat, Word>, bytes: map<nat, nat>)

  /** One CPython layout with an owner byte. `skipOwners` is a bit per owner kind. */
  datatype Layout = Layout(threadFrame: nat, cframe: bool, cframeFrame: nat, previous: nat, owner: nat,
                           executable: nat, instr: nat, obType: nat, skipOwners: nat, executableMask: nat)

  const PY_3_12 := Layout(56, true, 0, 8, 70, 0, 56, 8, 0x08, WORD - 1)
  const PY_3_13 := Layout(72, false, 0, 8, 70, 0, 56, 8, 0x08, WORD - 1)
  const PY_3_14 := Layout(72, false, 0, 8, 74, 0, 56, 8, 0x18, WORD - 1 - 3)

  /** A process as the unwinder sees it. */
  datatype Process = Process(memory: Memory, layout: Layout, codeType: nat)
  {
    function ReadWord(base: nat, offset: nat): Result<Word> {
      if base + offset >= WORD || base + offset + 8 >= WORD then Err(Invalid)
      else if base + offset in memory.words then Ok(memory.words[base + offset])
      else Err(Read)
    }

    function ReadByte(base: nat, offset: nat): Result<nat> {
      if base + offset >= WORD || base + offset + 1 >= WORD then Err(Invalid)
      else if base + offset in memory.bytes then Ok(memory.bytes[base + offset])
      else Err(Read)
    }

    /** `SKIP_OWNERS & (1 << owner) != 0` on `u8`, whose shift amount counts modulo 8. */
    predicate SkipsOwner(owner: nat) {
      BitAnd(layout.skipOwners, Pow2(owner % 8)) != 0
    }

    function CurrentFrame(tstate: nat): Result<Word> {
      var frame :- ReadWord(tstate, layout.threadFrame);
      if layout.cframe then ReadWord(frame, layout.cframeFrame) else Ok(frame)
    }

    // ---- What a frame is, read by read ----

    function Executable(f: Word): Result<nat> {
      var word :- ReadWord(f, layout.executable);
      Ok(BitAnd(word, layout.executableMask))
    }

    /** The frame is readable and marked as not being a Python frame. */
    ghost predicate Skipped(f: Word) {
      ReadWord(f, layout.previous).Ok? && ReadByte(f, layout.owner).Ok? && SkipsOwner(ReadByte(f, layout.owner).value)
    }

    /** The frame is readable and runs a code object. */
    ghost predicate Python(f: Word) {
      && ReadWord(f, layout.previous).Ok?
      && ReadByte(f, layout.owner).Ok? && !SkipsOwner(ReadByte(f, layout.owner).value)
      && Executable(f).Ok? && ReadWord(f, layout.instr).Ok?
      && Executable(f).value != 0
      && ReadWord(Executable(f).value, layout.obType) == Ok(codeType)
    }

    ghost function Entry(f: Word): Frame
      requires Python(f)
    {
      Frame(Executable(f).value, ReadWord(f, layout.instr).value)
    }

    /** The first obstacle a frame that is neither skipped nor a Python frame presents, in reading order. */
    ghost function Obstacle(f: Word): Error
      requires !Skipped(f) && !Python(f)
    {
      if ReadWord(f, layout.previous).Err? then ReadWord(f, layout.previous).error
      else if ReadByte(f, layout.owner).Err? then ReadByte(f, layout.owner).error
      else if Executable(f).Err? then Executable(f).error
      else if ReadWord(f, layout.instr).Err? then ReadWord(f, layout.instr).error
      else if Executable(f).value == 0 then InvalidCodeType
      else if ReadWord(Executable(f).value, layout.obType).Err? then ReadWord(Executable(f).value, layout.obType).error
      else InvalidCodeType
    }

    // ---- The same in terms of memory alone ----

    /** The eight bytes at `base + offset` lie in the address space, can be read, and hold `w`. */
    ghost predicate WordAt(base: nat, offset: nat, w: nat) {
      base + offset + 8 < WORD && base + offset in memory.words && memory.words[base + offset] == w
    }

    ghost predicate ByteAt(base: nat, offset: nat, b: nat) {
      base + offset + 1 < WORD && base + offset in memory.bytes && memory.bytes[base + offset] == b
    }

    /** Why the word at `base + offset` cannot be had, if it cannot. */
    ghost predicate NoWord(base: nat, offset: nat, e: Error) {
      if base + offset + 8 >= WORD then e == Invalid else base + offset !in memory.words && e == Read
    }

    ghost predicate NoByte(base: nat, offset: nat, e: Error) {
      if base + offset + 1 >= WORD then e == Invalid else base + offset !in memory.bytes && e == Read
    }

    /** The first frame: the thread state points at it, through a word in between where the layout has one. */
    lemma {:induction false} FirstFrame(tstate: nat, f: Word)
      ensures CurrentFrame(tstate) == Ok(f) <==>
              if layout.cframe then exists c: Word :: WordAt(tstate, layout.threadFrame, c) && WordAt(c, layout.cframeFrame, f)
              else WordAt(tstate, layout.threadFrame, f)
    {
      if layout.cframe && CurrentFrame(tstate) == Ok(f) {
        assert WordAt(tstate, layout.threadFrame, ReadWord(tstate, layout.threadFrame).value);
      }
    }

    lemma {:induction false} NoFirstFrame(tstate: nat, e: Error)
      ensures CurrentFrame(tstate) == Err(e) <==>
              NoWord(tstate, layout.threadFrame, e)
              || (layout.cframe && exists c: Word :: WordAt(tstate, layout.threadFrame, c) && NoWord(c, layout.cframeFrame, e))
    {
      if layout.cframe && CurrentFrame(tstate) == Err(e) && ReadWord(tstate, layout.threadFrame).Ok? {
        assert WordAt(tstate, layout.threadFrame, ReadWord(tstate, layout.threadFrame).value);
      }
    }

    /** A frame that is passed over: its link can be read, and its owner byte is one that the layout skips. */
    lemma {:induction false} SkippedFrame(f: Word)
      ensures Skipped(f) <==>
              exists previous: Word, owner: nat ::
                WordAt(f, layout.previous, previous) && ByteAt(f, layout.owner, owner) && SkipsOwner(owner)
    {
      if Skipped(f) {
        assert WordAt(f, layout.previous, ReadWord(f, layout.previous).value);
        assert ByteAt(f, layout.owner, ReadByte(f, layout.owner).value);
      }
    }

    /** What the frame at `f` says, word by word. */
    ghost predicate FrameAt(f: Word, previous: Word, owner: nat, tagged: Word, instr: Word) {
      && WordAt(f, layout.previous, previous) && ByteAt(f, layout.owner, owner)
      && WordAt(f, layout.executable, tagged) && WordAt(f, layout.instr, instr)
    }

    /** A Python frame: its owner is not skipped, and its executable, without the tag bits, has the type of code. */
    lemma {:induction false} PythonFrame(f: Word, code: nat, instr: nat)
      ensures Python(f) && Entry(f) == Frame(code, instr) <==>
              exists previous: Word, owner: nat, tagged: Word ::
                && instr < WORD && FrameAt(f, previous, owner, tagged, instr) && !SkipsOwner(owner)
                && code == BitAnd(tagged, layout.executableMask) != 0 && WordAt(code, layout.obType, codeType)
    {
      if Python(f) && Entry(f) == Frame(code, instr) {
        assert FrameAt(f, ReadWord(f, layout.previous).value, ReadByte(f, layout.owner).value,
                       ReadWord(f, layout.executable).value, instr);
      }
      if previous: Word, owner: nat, tagged: Word :|
        && instr < WORD && FrameAt(f, previous, owner, tagged, instr) && !SkipsOwner(owner)
        && code == BitAnd(tagged, layout.executableMask) != 0 && WordAt(code, layout.obType, codeType)
      {
        PythonWhen(f, previous, owner, tagged, code, instr);
      }
    }

    lemma {:induction false} PythonWhen(f: Word, previous: Word, owner: nat, tagged: Word, code: nat, instr: Word)
      requires FrameAt(f, previous, owner, tagged, instr) && !SkipsOwner(owner)
      requires code == BitAnd(tagged, layout.executableMask) != 0 && WordAt(code, layout.obType, codeType)
      ensures Python(f) && Entry(f) == Frame(code, instr)
    {
      assert ReadWord(f, layout.executable) == Ok(tagged) && Executable(f) == Ok(code);
      assert ReadWord(f, layout.previous) == Ok(previous) && ReadByte(f, layout.owner) == Ok(owner);
      assert ReadWord(f, layout.instr) == Ok(instr) && ReadWord(code, layout.obType) == Ok(codeType);
    }

    /** `p` links to `q`: the word that `previous` names. */
    lemma {:induction false} NextFrame(p: Word, q: Word)
      ensures ReadWord(p, layout.previous) == Ok(q) <==> WordAt(p, layout.previous, q)
    {
    }

    /**
     The first obstacle, in reading order: the link, the owner, the executable, the instruction; then an
     executable that is null, whose type cannot be read, or is not that of code.
     */
    lemma {:induction false} FirstObstacle(f: Word, e: Error)
      requires !Skipped(f) && !Python(f)
      ensures Obstacle(f) == e <==>
              || NoWord(f, layout.previous, e)
              || (exists previous: Word :: WordAt(f, layout.previous, previous) && NoByte(f, layout.owner, e))
              || (exists previous: Word, owner: nat :: WordAt(f, layout.previous, previous) && ByteAt(f, layout.owner, owner)
                    && NoWord(f, layout.executable, e))
              || (exists previous: Word, owner: nat, tagged: Word :: WordAt(f, layout.previous, previous) && ByteAt(f, layout.owner, owner)
                    && WordAt(f, layout.executable, tagged) && NoWord(f, layout.instr, e))
              || (exists previous: Word, owner: nat, tagged: Word, instr: Word :: FrameAt(f, previous, owner, tagged, instr)
                    && NotCode(BitAnd(tagged, layout.executableMask), e))
    {
      var previous, owner := ReadWord(f, layout.previous), ReadByte(f, layout.owner);
      var tagged, instr := ReadWord(f, layout.executable), ReadWord(f, layout.instr);
      if previous.Err? {
        assert previous.error == e <==> NoWord(f, layout.previous, e);
      } else if owner.Err? {
        assert WordAt(f, layout.previous, previous.value);
        assert owner.error == e <==> NoByte(f, layout.owner, e);
      } else if tagged.Err? {
        assert WordAt(f, layout.previous, previous.value) && ByteAt(f, layout.owner, owner.value);
        assert tagged.error == e <==> NoWord(f, layout.executable, e);
      } else if instr.Err? {
        assert WordAt(f, layout.previous, previous.value) && ByteAt(f, layout.owner, owner.value);
        assert WordAt(f, layout.executable, tagged.value);
        assert instr.error == e <==> NoWord(f, layout.instr, e);
      } else {
        assert FrameAt(f, previous.value, owner.value, tagged.value, instr.value);
        var code := BitAnd(tagged.value, layout.executableMask);
        assert Executable(f) == Ok(code);
        var kind := ReadWord(code, layout.obType);
        if code != 0 && kind.Ok? { assert WordAt(code, layout.obType, kind.value); }
        assert Obstacle(f) == e <==> NotCode(code, e);
      }
    }

    /** Why `code` is no code object. */
    ghost predicate NotCode(code: nat, e: Error) {
      if code == 0 then e == InvalidCodeType
      else NoWord(code, layout.obType, e)
           || (exists kind: Word :: WordAt(code, layout.obType, kind) && kind != codeType && e == InvalidCodeType)
    }

    // ---- Chains ----

    /** `nodes` are the non-null frames met when following `previous` from `first` until just before `last`. */
    ghost predicate Path(first: Word, nodes: seq<Word>, last: Word)
      decreases |nodes|
    {
      if nodes == [] then first == last
      else first != 0 && nodes[0] == first && ReadWord(first, layout.previous).Ok?
           && Path(ReadWord(first, layout.previous).value, nodes[1..], last)
    }

    ghost predicate Sound(nodes: seq<Word>) {
      forall f | f in nodes :: Skipped(f) || Python(f)
    }

    /** The Python frames among `nodes`, in order. */
    ghost function Kept(nodes: seq<Word>): seq<Frame>
      requires Sound(nodes)
    {
      if nodes == [] then [] else (if Python(nodes[0]) then [Entry(nodes[0])] else []) + Kept(nodes[1..])
    }

    /**
     The chain of `tstate` reaches null within `MAX_FRAMES` frames, every read it needs succeeds, every frame
     that is not skipped runs a code object, and there is room for all of those.
     */
    ghost predicate Completes(tstate: nat, nodes: seq<Word>, room: nat) {
      && CurrentFrame(tstate).Ok? && Path(CurrentFrame(tstate).value, nodes, 0)
      && |nodes| <= MAX_FRAMES && Sound(nodes) && |Kept(nodes)| <= room
    }

    /** Behind the sound frames `nodes` the walk meets `last`, which it cannot get past because of `error`. */
    ghost predicate Blocked(nodes: seq<Word>, last: Word, room: nat, error: Error)
      requires Sound(nodes)
    {
      && last != 0
      && if |nodes| == MAX_FRAMES then error == Truncated
         else if Skipped(last) then false
         else if Python(last) then |Kept(nodes)| == room && error == Truncated
         else error == Obstacle(last)
    }

    ghost predicate Fails(tstate: nat, nodes: seq<Word>, last: Word, room: nat, error: Error) {
      if tstate == 0 then error == NoThreadState
      else if CurrentFrame(tstate).Err? then error == CurrentFrame(tstate).error
      else
        && Path(CurrentFrame(tstate).value, nodes, last)
        && |nodes| <= MAX_FRAMES && Sound(nodes) && |Kept(nodes)| <= room
        && Blocked(nodes, last, room, error)
    }

    // ---- Chains are determined by their first frame ----

    lemma {:induction false} PathExtends(first: Word, nodes: seq<Word>, last: Word)
      requires Path(first, nodes, last) && last != 0 && ReadWord(last, layout.previous).Ok?
      ensures Path(first, nodes + [last], ReadWord(last, layout.previous).value)
      decreases |nodes|
    {
      if nodes == [] {
        assert [last][1..] == [];
      } else {
        PathExtends(ReadWord(first, layout.previous).value, nodes[1..], last);
        assert (nodes + [last])[1..] == nodes[1..] + [last];
      }
    }

    lemma {:induction false} PathsAgree(first: Word, a: seq<Word>, lastA: Word, b: seq<Word>, lastB: Word)
      requires Path(first, a, lastA) && Path(first, b, lastB) && |a| <= |b|
      ensures a == b[..|a|] && Path(lastA, b[|a|..], lastB)
      decreases |a|
    {
      if a != [] {
        PathsAgree(ReadWord(first, layout.previous).value, a[1..], lastA, b[1..], lastB);
        assert b[1..][|a[1..]|..] == b[|a|..];
        assert a == [a[0]] + a[1..] && b[..|a|] == [b[0]] + b[1..][..|a[1..]|];
      }
    }

    lemma {:induction false} KeptConcat(a: seq<Word>, b: seq<Word>)
      requires Sound(a + b)
      ensures Sound(a) && Sound(b) && Kept(a + b) == Kept(a) + Kept(b)
      decreases |a|
    {
      SoundParts(a, b);
      if a == [] {
        assert a + b == b;
      } else {
        assert (a + b)[1..] == a[1..] + b && (a + b)[0] == a[0];
        KeptConcat(a[1..], b);
      }
    }

    lemma SoundParts(a: seq<Word>, b: seq<Word>)
      requires Sound(a + b)
      ensures Sound(a) && Sound(b) && (a != [] ==> Sound(a[1..] + b))
    {
      forall f | f in a || f in b
        ensures Skipped(f) || Python(f)
      {
        assert f in a + b;
      }
    }

    /** At most one chain completes. */
    lemma {:induction false} CompletesOnce(tstate: nat, a: seq<Word>, b: seq<Word>, room: nat)
      requires Completes(tstate, a, room) && Completes(tstate, b, room)
      ensures a == b
    {
      if |a| <= |b| {
        PathsAgree(CurrentFrame(tstate).value, a, 0, b, 0);
      } else {
        PathsAgree(CurrentFrame(tstate).value, b, 0, a, 0);
      }
    }

    /** A chain that is blocked does not complete. */
    lemma {:induction false} CompletesOrFails(tstate: nat, a: seq<Word>, b: seq<Word>, last: Word, room: nat, error: Error)
      requires tstate != 0 && Completes(tstate, a, room)
      ensures !Fails(tstate, b, last, room, error)
    {
      if Fails(tstate, b, last, room, error) {
        var first := CurrentFrame(tstate).value;
        if |a| <= |b| {
          PathsAgree(first, a, 0, b, last);
        } else {
          PathsAgree(first, b, last, a, 0);
          assert a == b + a[|b|..];
          KeptConcat(b, a[|b|..]);
        }
        assert false;
      }
    }

    /** A chain is blocked for one reason only. */
    lemma {:induction false} FailsOnce(tstate: nat, a: seq<Word>, lastA: Word, ea: Error,
                                       b: seq<Word>, lastB: Word, eb: Error, room: nat)
      requires Fails(tstate, a, lastA, room, ea) && Fails(tstate, b, lastB, room, eb)
      ensures ea == eb
    {
      if tstate != 0 && CurrentFrame(tstate).Ok? {
        if |a| <= |b| {
          BlockedFirst(CurrentFrame(tstate).value, a, lastA, ea, b, lastB, eb, room);
        } else {
          BlockedFirst(CurrentFrame(tstate).value, b, lastB, eb, a, lastA, ea, room);
        }
      }
    }

    lemma {:induction false} BlockedFirst(first: Word, a: seq<Word>, lastA: Word, ea: Error,
                                          b: seq<Word>, lastB: Word, eb: Error, room: nat)
      requires Path(first, a, lastA) && Sound(a) && |a| <= MAX_FRAMES && |Kept(a)| <= room && Blocked(a, lastA, room, ea)
      requires Path(first, b, lastB) && Sound(b) && |b| <= MAX_FRAMES && |Kept(b)| <= room && Blocked(b, lastB, room, eb)
      requires |a| <= |b|
      ensures a == b && lastA == lastB && ea == eb
    {
      PathsAgree(first, a, lastA, b, lastB);
      if |a| == |b| {
        assert b[|a|..] == [];
      } else {
        assert b == a + b[|a|..];
        KeptConcat(a, b[|a|..]);
      }
    }
  }

  /** The drop counters: one reason per lost stack. */
  class Metrics {
    var contentions: nat
    var bufferDropped: nat
    var truncated: nat
    var invalid: nat
    var noThreadState: nat
    var invalidCodeType: nat
    var readErrors: nat
    var resolveError: nat

    constructor ()
      ensures Counts() == seq(8, _ => 0)
    {
      contentions, bufferDropped, truncated, invalid := 0, 0, 0, 0;
      noThreadState, invalidCodeType, readErrors, resolveError := 0, 0, 0, 0;
    }

    /** In the order the drop counts are reported in. */
    ghost function Counts(): (c: seq<nat>)
      reads this
      ensures |c| == 8
    {
      [contentions, bufferDropped, noThreadState, invalidCodeType, readErrors, truncated, invalid, resolveError]
    }

    /** Adds one to the counter of `error` and to no other. */
    method Count(error: Error)
      modifies this
      ensures Counts() == old(Counts())[ReasonOf(error) := old(Counts())[ReasonOf(error)] + 1]
      ensures contentions == old(contentions) && bufferDropped == old(bufferDropped) && resolveError == old(resolveError)
      ensures noThreadState == old(noThreadState) + if error == NoThreadState then 1 else 0
      ensures invalidCodeType == old(invalidCodeType) + if error == InvalidCodeType then 1 else 0
      ensures readErrors == old(readErrors) + if error == Read then 1 else 0
      ensures truncated == old(truncated) + if error == Truncated then 1 else 0
      ensures invalid == old(invalid) + if error == Invalid then 1 else 0
    {
      match error
      case NoThreadState => noThreadState := noThreadState + 1;
      case InvalidCodeType => invalidCodeType := invalidCodeType + 1;
      case Read => readErrors := readErrors + 1;
      case Truncated => truncated := truncated + 1;
      case Invalid => invalid := invalid + 1;
    }

    /** Swaps every counter with zero, one after the other. */
    method TakeDropCounts() returns (counts: seq<(string, nat)>)
      modifies this
      ensures Counts() == seq(8, _ => 0)
      ensures |counts| == 8 && forall i | 0 <= i < 8 :: counts[i] == (REASONS[i], old(Counts())[i])
      ensures contentions == bufferDropped == noThreadState == invalidCodeType == readErrors == truncated == invalid == resolveError == 0
      ensures counts == [("contentions", old(contentions)), ("buffer_dropped", old(bufferDropped)),
                         ("no_thread_state", old(noThreadState)), ("invalid_code_type", old(invalidCodeType)),
                         ("read_errors", old(readErrors)), ("truncated", old(truncated)), ("invalid", old(invalid)),
                         ("resolve_error", old(resolveError))]
    {
      counts := [];
      counts := counts + [(REASONS[0], contentions)];
      contentions := 0;
      counts := counts + [(REASONS[1], bufferDropped)];
      bufferDropped := 0;
      counts := counts + [(REASONS[2], noThreadState)];
      noThreadState := 0;
      counts := counts + [(REASONS[3], invalidCodeType)];
      invalidCodeType := 0;
      counts := counts + [(REASONS[4], readErrors)];
      readErrors := 0;
      counts := counts + [(REASONS[5], truncated)];
      truncated := 0;
      counts := counts + [(REASONS[6], invalid)];
      invalid := 0;
      counts := counts + [(REASONS[7], resolveError)];
      resolveError := 0;
    }
  }

  const REASONS: seq<string> := ["contentions", "buffer_dropped", "no_thread_state", "invalid_code_type",
                                 "read_errors", "truncated", "invalid", "resolve_error"]

  /** The index of an unwind error among the reasons. */
  function ReasonOf(error: Error): (i: nat)
    ensures i < 8
  {
    match error
    case NoThreadState => 2
    case InvalidCodeType => 3
    case Read => 4
    case Truncated => 5
    case Invalid => 6
  }

  /** The name under which each error is reported. */
  lemma ReasonNames(error: Error)
    ensures REASONS[ReasonOf(error)] == match error
                                        case NoThreadState => "no_thread_state"
                                        case InvalidCodeType => "invalid_code_type"
                                        case Read => "read_errors"
                                        case Truncated => "truncated"
                                        case Invalid => "invalid"
  {
  }

  /**
   Walks the chain of `tstate` into `frames`. It ends on every memory, cyclic ones included: it succeeds
   exactly on the chains that complete and then returns their Python frames, innermost first.
   */
  method Walk(p: Process, tstate: nat, frames: array<Frame>) returns (r: Result<nat>)
    modifies frames
    ensures r.Ok? <==> exists nodes :: p.Completes(tstate, nodes, frames.Length)
    ensures r.Ok? ==> r.value <= frames.Length
    ensures r.Ok? ==> forall nodes | p.Completes(tstate, nodes, frames.Length) :: frames[..r.value] == p.Kept(nodes)
    ensures tstate != 0 ==> (r.Err? <==> exists nodes, last, e :: p.Fails(tstate, nodes, last, frames.Length, e))
    ensures tstate != 0 && r.Err? ==> exists nodes, last :: p.Fails(tstate, nodes, last, frames.Length, r.error)
  {
    var start := p.CurrentFrame(tstate);
    if start.Err? {
      assert tstate != 0 ==> p.Fails(tstate, [], 0, frames.Length, start.error);
      return Err(start.error);
    }
    var frame: Word := start.value;
    var visited, pushed := 0, 0;
    ghost var nodes: seq<Word> := [];
    while frame != 0
      invariant visited == |nodes| <= MAX_FRAMES && p.Path(start.value, nodes, frame)
      invariant p.Sound(nodes) && pushed == |p.Kept(nodes)| <= frames.Length && frames[..pushed] == p.Kept(nodes)
      decreases MAX_FRAMES - visited
    {
      if visited == MAX_FRAMES {
        BlockedHere(p, tstate, nodes, frame, frames.Length, Truncated);
        return Err(Truncated);
      }
      visited := visited + 1;
      var look := Look(p, frame);
      if look.Err? {
        BlockedHere(p, tstate, nodes, frame, frames.Length, look.error);
        return Err(look.error);
      }
      if look.value.entry.Some? {
        if pushed >= frames.Length {
          BlockedHere(p, tstate, nodes, frame, frames.Length, Truncated);
          return Err(Truncated);
        }
        frames[pushed] := look.value.entry.value;
        pushed := pushed + 1;
      }
      p.PathExtends(start.value, nodes, frame);
      p.KeptConcat(nodes, [frame]);
      nodes := nodes + [frame];
      frame := look.value.previous;
    }
    assert p.Completes(tstate, nodes, frames.Length);
    CompleteHere(p, tstate, nodes, frames.Length);
    r := Ok(pushed);
  }

  datatype Seen = Seen(previous: Word, entry: Option<Frame>)

  /** One frame, read in the order the handler reads it. */
  function Look(p: Process, frame: Word): (r: Result<Seen>)
    ensures r.Ok? <==> p.Skipped(frame) || p.Python(frame)
    ensures r.Ok? ==> r.value.previous == p.ReadWord(frame, p.layout.previous).value
    ensures r.Ok? ==> r.value.entry == if p.Python(frame) then Some(p.Entry(frame)) else None
    ensures r.Err? ==> r.error == p.Obstacle(frame)
  {
    var previous :- p.ReadWord(frame, p.layout.previous);
    var owner :- p.ReadByte(frame, p.layout.owner);
    if p.SkipsOwner(owner) then Ok(Seen(previous, None))
    else
      var executable :- p.Executable(frame);
      var instr :- p.ReadWord(frame, p.layout.instr);
      if executable == 0 then Err(InvalidCodeType)
      else
        var kind :- p.ReadWord(executable, p.layout.obType);
        if kind != p.codeType then Err(InvalidCodeType)
        else Ok(Seen(previous, Some(Frame(executable, instr))))
  }

  lemma {:induction false} BlockedHere(p: Process, tstate: nat, nodes: seq<Word>, last: Word, room: nat, error: Error)
    requires p.CurrentFrame(tstate).Ok? && p.Path(p.CurrentFrame(tstate).value, nodes, last)
    requires |nodes| <= MAX_FRAMES && p.Sound(nodes) && |p.Kept(nodes)| <= room && p.Blocked(nodes, last, room, error)
    ensures !exists all :: p.Completes(tstate, all, room)
    ensures tstate != 0 ==> p.Fails(tstate, nodes, last, room, error)
  {
    forall all | p.Completes(tstate, all, room)
      ensures false
    {
      var first := p.CurrentFrame(tstate).value;
      if |all| <= |nodes| {
        p.PathsAgree(first, all, 0, nodes, last);
      } else {
        p.PathsAgree(first, nodes, last, all, 0);
        assert all == nodes + all[|nodes|..];
        p.KeptConcat(nodes, all[|nodes|..]);
      }
    }
  }

  lemma {:induction false} CompleteHere(p: Process, tstate: nat, nodes: seq<Word>, room: nat)
    requires p.Completes(tstate, nodes, room)
    ensures forall all | p.Completes(tstate, all, room) :: all == nodes
    ensures tstate != 0 ==> !exists some, last, e :: p.Fails(tstate, some, last, room, e)
  {
    forall all | p.Completes(tstate, all, room)
      ensures all == nodes
    {
      p.CompletesOnce(tstate, nodes, all, room);
    }
    if tstate != 0 {
      forall some, last, e
        ensures !p.Fails(tstate, some, last, room, e)
      {
        p.CompletesOrFails(tstate, nodes, some, last, room, e);
      }
    }
  }

  lemma AndDouble(x: nat, m: nat)
    ensures BitAnd(x, 2 * m) == 2 * BitAnd(x / 2, m)
  {
    assert (2 * m) % 2 == 0 && (2 * m) / 2 == m;
  }

  /** Clearing the two low bits leaves the multiple of four below. */
  lemma {:induction false} ClearsTag(x: Word)
    ensures BitAnd(x, WORD - 1 - 3) == x - x % 4
  {
    QuarterWord();
    ClearsLow(x, 62);
  }

  lemma QuarterWord()
    ensures WORD == 4 * Pow2(62)
  {
    WordIsPow2();
    Pow2Sum(62, 2);
    assert Pow2(2) == 4;
  }

  lemma {:induction false} ClearsLow(x: nat, k: nat)
    requires x < 4 * Pow2(k)
    ensures BitAnd(x, 4 * Pow2(k) - 4) == x - x % 4
  {
    var m := Pow2(k) - 1;
    AndDouble(x, 2 * m);
    AndDouble(x / 2, m);
    KeepsLow(x / 2 / 2, k);
    assert 4 * Pow2(k) - 4 == 2 * (2 * m);
    Quarter(x);
  }

  lemma Quarter(x: nat)
    ensures x - x % 4 == 4 * (x / 2 / 2)
  {
    DivModUnique(x, 4, x / 2 / 2, 2 * (x / 2 % 2) + x % 2);
  }

  lemma {:induction false} KeepsLow(x: nat, k: nat)
    requires x < Pow2(k)
    ensures BitAnd(x, Pow2(k) - 1) == x
  {
    AndMask(x, k);
    SmallMod(x, Pow2(k));
  }

  lemma SmallMod(x: nat, n: nat)
    requires x < n
    ensures x % n == x
  {
  }

  lemma {:induction false} KeepsWord(x: Word)
    ensures BitAnd(x, WORD - 1) == x
  {
    WordIsPow2();
    KeepsLow(x, 64);
  }

  /** Where the chain begins, number by number: on 3.12 through a word at the thread state's offset 56, later at 72. */
  lemma {:induction false} ChainStarts(p: Process, tstate: nat, f: Word)
    ensures p.layout == PY_3_12 ==> (p.CurrentFrame(tstate) == Ok(f) <==> exists c: Word :: p.WordAt(tstate, 56, c) && p.WordAt(c, 0, f))
    ensures p.layout in {PY_3_13, PY_3_14} ==> (p.CurrentFrame(tstate) == Ok(f) <==> p.WordAt(tstate, 72, f))
  {
    p.FirstFrame(tstate, f);
  }

  /** Of a frame, number by number: the link at 8, the owner at 70, the executable at 0, the instruction at 56. */
  lemma {:induction false} FramesBefore314(p: Process, f: Word, code: nat, instr: nat)
    requires p.layout in {PY_3_12, PY_3_13}
    ensures p.Python(f) && p.Entry(f) == Frame(code, instr) <==>
            exists previous: Word, owner: nat ::
              && p.WordAt(f, 8, previous) && p.ByteAt(f, 70, owner) && owner % 8 != 3
              && p.WordAt(f, 0, code) && p.WordAt(f, 56, instr)
              && code != 0 && p.WordAt(code, 8, p.codeType)
  {
    p.PythonFrame(f, code, instr);
    forall owner: nat
      ensures p.SkipsOwner(owner) <==> owner % 8 == 3
    {
      SkippedOwners(p, owner);
    }
    forall tagged: Word
      ensures BitAnd(tagged, p.layout.executableMask) == tagged
    {
      KeepsWord(tagged);
    }
    if previous: Word, owner: nat :|
      && p.WordAt(f, 8, previous) && p.ByteAt(f, 70, owner) && owner % 8 != 3
      && p.WordAt(f, 0, code) && p.WordAt(f, 56, instr) && code != 0 && p.WordAt(code, 8, p.codeType)
    {
      p.PythonWhen(f, previous, owner, code, code, instr);
    }
  }

  /** From 3.14 on the owner is at 74, and the executable carries two tag bits. */
  lemma {:induction false} FramesFrom314(p: Process, f: Word, code: nat, instr: nat)
    requires p.layout == PY_3_14
    ensures p.Python(f) && p.Entry(f) == Frame(code, instr) <==>
            exists previous: Word, owner: nat, tagged: Word ::
              && p.WordAt(f, 8, previous) && p.ByteAt(f, 74, owner) && owner % 8 != 3 && owner % 8 != 4
              && p.WordAt(f, 0, tagged) && p.WordAt(f, 56, instr)
              && code == tagged - tagged % 4 != 0 && p.WordAt(code, 8, p.codeType)
  {
    p.PythonFrame(f, code, instr);
    forall owner: nat
      ensures p.SkipsOwner(owner) <==> owner % 8 == 3 || owner % 8 == 4
    {
      SkippedOwners(p, owner);
    }
    forall tagged: Word
      ensures BitAnd(tagged, p.layout.executableMask) == tagged - tagged % 4
    {
      ClearsTag(tagged);
    }
    if previous: Word, owner: nat, tagged: Word :|
      && p.WordAt(f, 8, previous) && p.ByteAt(f, 74, owner) && owner % 8 != 3 && owner % 8 != 4
      && p.WordAt(f, 0, tagged) && p.WordAt(f, 56, instr)
      && code == tagged - tagged % 4 != 0 && p.WordAt(code, 8, p.codeType)
    {
      p.PythonWhen(f, previous, owner, tagged, code, instr);
    }
  }

  /** Which owner kinds each layout skips: C-stack frames, and from 3.14 on interpreter frames too. */
  lemma {:induction false} SkippedOwners(p: Process, owner: nat)
    ensures p.layout in {PY_3_12, PY_3_13} ==> (p.SkipsOwner(owner) <==> owner % 8 == 3)
    ensures p.layout == PY_3_14 ==> (p.SkipsOwner(owner) <==> owner % 8 == 3 || owner % 8 == 4)
  {
    assert Pow2(0) == 1 && Pow2(1) == 2 && Pow2(2) == 4 && Pow2(3) == 8;
    assert Pow2(4) == 16 && Pow2(5) == 32 && Pow2(6) == 64 && Pow2(7) == 128;
    assert BitAnd(8, 1) == 0 && BitAnd(8, 2) == 0 && BitAnd(8, 4) == 0 && BitAnd(8, 8) == 8;
    assert BitAnd(8, 16) == 0 && BitAnd(8, 32) == 0 && BitAnd(8, 64) == 0 && BitAnd(8, 128) == 0;
    assert BitAnd(24, 1) == 0 && BitAnd(24, 2) == 0 && BitAnd(24, 4) == 0 && BitAnd(24, 8) == 8;
    assert BitAnd(24, 16) == 16 && BitAnd(24, 32) == 0 && BitAnd(24, 64) == 0 && BitAnd(24, 128) == 0;
  }
}
