/**
 The lock-free record ring of `pyroscope-ringbuffer`: its memory, and one step of a producer or a consumer.

 A step makes at most one access to shared memory, so interleaving steps of many actors gives every
 sequentially consistent execution of the original code. `Local` is what an actor keeps on its own stack:
 the program point and the cached `head` and `tail`.
 */
module Ring {
  import opened Words
  import opened Options

  datatype Slot<T> = Uninit | Len(n: nat) | Value(v: T)

  datatype Shared<T> = Shared(slots: seq<Slot<T>>, head: nat, tail: nat,
                              producerLocked: bool, consumerLocked: bool)
  {
    /** `N - head.wrapping_sub(tail) > len`, with the cached cursors of a producer. */
    predicate Fits(head: nat, tail: nat, len: nat) {
      |slots| - WrapSub(head, tail) > len
    }

    function Slot(index: nat): Slot<T>
      requires |slots| > 0
    {
      slots[BitAnd(index, |slots| - 1)]
    }

    function Write(index: nat, slot: Slot<T>): Shared<T>
      requires |slots| > 0
    {
      this.(slots := slots[BitAnd(index, |slots| - 1) := slot])
    }
  }

  datatype Local<T> =
    | Idle
    // producer
    | PLocked
    | PHead(head: nat)
    | PReady(head: nat, tail: nat)
    | PReload(head: nat, tail: nat, values: seq<T>)
    | PWrite(head: nat, tail: nat, values: seq<T>, i: nat)
    | PPublish(head: nat, tail: nat, values: seq<T>)
    // consumer
    | CLocked
    | CHead(head: nat)
    | CReady(head: nat, tail: nat)
    | CReload(head: nat, tail: nat, room: nat)
    | CLen(head: nat, tail: nat, room: nat)
    | CRead(head: nat, tail: nat, len: nat, out: seq<T>)
    | CAdvance(head: nat, tail: nat, out: seq<T>)
  {
    predicate Producing() {
      PLocked? || PHead? || PReady? || PReload? || PWrite? || PPublish?
    }

    predicate Consuming() {
      CLocked? || CHead? || CReady? || CReload? || CLen? || CRead? || CAdvance?
    }
  }

  /** What an actor decides to do next; everything else an actor does is determined. */
  datatype Command<T> = Continue | LockProducer | LockConsumer | Push(values: seq<T>) | Pop(room: nat) | Drop

  /** What a step tells the caller. `Panic` is an `unreachable!` or an integer underflow of the original. */
  datatype Event<T> =
    | Silent
    | ProducerRefused
    | ConsumerRefused
    | Published(values: seq<T>)
    | Full(len: nat)
    | Popped(out: seq<T>)
    | Empty
    | TooSmall(needed: nat, room: nat)
    | Panic

  datatype Outcome<T> = Outcome(shared: Shared<T>, local: Local<T>, event: Event<T>)

  function Next<T>(s: Shared<T>, l: Local<T>, cmd: Command<T>): (o: Outcome<T>)
    requires |s.slots| > 0
    ensures |o.shared.slots| == |s.slots|
  {
    match l
    case Idle =>
      if cmd.LockProducer? then
        if s.producerLocked then Outcome(s, l, ProducerRefused)
        else Outcome(s.(producerLocked := true), PLocked, Silent)
      else if cmd.LockConsumer? then
        if s.consumerLocked then Outcome(s, l, ConsumerRefused)
        else Outcome(s.(consumerLocked := true), CLocked, Silent)
      else Outcome(s, l, Silent)

    case PLocked => Outcome(s, PHead(s.head), Silent)
    case PHead(head) => Outcome(s, PReady(head, s.tail), Silent)
    case PReady(head, tail) =>
      if cmd.Drop? then Outcome(s.(producerLocked := false), Idle, Silent)
      else if !cmd.Push? then Outcome(s, l, Silent)
      else if WrapSub(head, tail) > |s.slots| then Outcome(s, l, Panic)
      else if s.Fits(head, tail, |cmd.values|) then Outcome(s, PWrite(head, tail, cmd.values, 0), Silent)
      else Outcome(s, PReload(head, tail, cmd.values), Silent)
    case PReload(head, _, values) =>
      if WrapSub(head, s.tail) > |s.slots| then Outcome(s, l, Panic)
      else if s.Fits(head, s.tail, |values|) then Outcome(s, PWrite(head, s.tail, values, 0), Silent)
      else Outcome(s, PReady(head, s.tail), Full(|values|))
    case PWrite(head, tail, values, i) =>
      if i < |values| then
        Outcome(s.Write(WrapAdd(WrapAdd(head, 1), i), Value(values[i])), PWrite(head, tail, values, i + 1), Silent)
      else
        Outcome(s.Write(head, Len(|values|)), PPublish(head, tail, values), Silent)
    case PPublish(head, tail, values) =>
      var next := WrapAdd(WrapAdd(head, 1), |values|);
      Outcome(s.(head := next), PReady(next, tail), Published(values))

    case CLocked => Outcome(s, CHead(s.head), Silent)
    case CHead(head) => Outcome(s, CReady(head, s.tail), Silent)
    case CReady(head, tail) =>
      if cmd.Drop? then Outcome(s.(consumerLocked := false), Idle, Silent)
      else if !cmd.Pop? then Outcome(s, l, Silent)
      else if tail == head then Outcome(s, CReload(head, tail, cmd.room), Silent)
      else Outcome(s, CLen(head, tail, cmd.room), Silent)
    case CReload(_, tail, room) =>
      if tail == s.head then Outcome(s, CReady(s.head, tail), Empty)
      else Outcome(s, CLen(s.head, tail, room), Silent)
    case CLen(head, tail, room) =>
      (match s.Slot(tail)
       case Len(len) =>
         if len > room then Outcome(s, CReady(head, tail), TooSmall(len, room))
         else Outcome(s, CRead(head, tail, len, []), Silent)
       case _ => Outcome(s, l, Panic))
    case CRead(head, tail, len, out) =>
      if |out| < len then
        (match s.Slot(WrapAdd(WrapAdd(tail, 1), |out|))
         case Value(v) => Outcome(s, CRead(head, tail, len, out + [v]), Silent)
         case _ => Outcome(s, l, Panic))
      else
        Outcome(s, CAdvance(head, tail, out), Silent)
    case CAdvance(head, tail, out) =>
      var next := WrapAdd(WrapAdd(tail, 1), |out|);
      Outcome(s.(tail := next), CReady(head, next), Popped(out))
  }

  // ---- What the memory means ----

  /** The slot of an unbounded position. */
  function SlotOf(pos: nat, n: nat): (i: nat)
    requires n > 0
    ensures i < n
  {
    pos % n
  }

  /** Slots taken by a sequence of records: one for each length and one for each value. */
  function Span<T>(records: seq<seq<T>>): nat {
    if records == [] then 0 else 1 + |records[0]| + Span(records[1..])
  }

  /** `slots` hold `records` back to back from the unbounded position `pos`. */
  ghost predicate Laid<T>(slots: seq<Slot<T>>, pos: nat, records: seq<seq<T>>)
    requires |slots| > 0
    decreases |records|
  {
    records == [] || (
      && slots[SlotOf(pos, |slots|)] == Len(|records[0]|)
      && (forall j: nat | j < |records[0]| :: slots[SlotOf(pos + 1 + j, |slots|)] == Value(records[0][j]))
      && Laid(slots, pos + 1 + |records[0]|, records[1..]))
  }

  /** The values of `n` slots from `pos`, if all of them hold values. */
  function DecodeValues<T>(slots: seq<Slot<T>>, pos: nat, n: nat): Option<seq<T>>
    requires |slots| > 0
    decreases n
  {
    if n == 0 then Some([])
    else if !slots[SlotOf(pos, |slots|)].Value? then None
    else match DecodeValues(slots, pos + 1, n - 1)
      case None => None
      case Some(rest) => Some([slots[SlotOf(pos, |slots|)].v] + rest)
  }

  /** Reads the memory back: the records found in `span` slots from `pos`. */
  function Decode<T>(slots: seq<Slot<T>>, pos: nat, span: nat): Option<seq<seq<T>>>
    requires |slots| > 0
    decreases span
  {
    if span == 0 then Some([])
    else if !slots[SlotOf(pos, |slots|)].Len? then None
    else
      var n := slots[SlotOf(pos, |slots|)].n;
      if n + 1 > span then None
      else match DecodeValues(slots, pos + 1, n)
        case None => None
        case Some(record) =>
          match Decode(slots, pos + 1 + n, span - 1 - n)
          case None => None
          case Some(rest) => Some([record] + rest)
  }

  /** The queue a ring represents: what its slots say between `tail` and `head`. */
  function Queue<T>(s: Shared<T>): Option<seq<seq<T>>>
    requires |s.slots| > 0
  {
    Decode(s.slots, s.tail, WrapSub(s.head, s.tail))
  }

  /** `offset` slots after the first record of `records` another record, or the end, begins. */
  ghost predicate Boundary<T>(records: seq<seq<T>>, offset: nat)
    decreases |records|
  {
    offset == 0 || (records != [] && offset > |records[0]| && Boundary(records[1..], offset - 1 - |records[0]|))
  }

  ghost predicate SharedOk<T>(s: Shared<T>, pos: nat, queue: seq<seq<T>>) {
    && IsCapacity(|s.slots|)
    && |s.slots| > 0
    && s.tail == pos % WORD
    && s.head == (pos + Span(queue)) % WORD
    && Span(queue) <= |s.slots|
    && Laid(s.slots, pos, queue)
  }

  /** The cached cursors of a producer: `head` is current, `tail` may lag behind but never runs ahead. */
  ghost predicate ProducerCache<T>(s: Shared<T>, queue: seq<seq<T>>, head: nat, tail: nat) {
    head == s.head && Span(queue) <= WrapSub(head, tail) <= |s.slots|
  }

  /** The first `i` values of a record are in place behind the slot at the unbounded position `at`. */
  ghost predicate Written<T>(slots: seq<Slot<T>>, at: nat, values: seq<T>, i: nat)
    requires |slots| > 0
  {
    i <= |values| && forall j: nat | j < i :: slots[SlotOf(at + 1 + j, |slots|)] == Value(values[j])
  }

  ghost predicate ProducerOk<T>(s: Shared<T>, pos: nat, queue: seq<seq<T>>, l: Local<T>)
    requires |s.slots| > 0
  {
    match l
    case PHead(head) => head == s.head
    case PReady(head, tail) => ProducerCache(s, queue, head, tail)
    case PReload(head, tail, _) => ProducerCache(s, queue, head, tail)
    case PWrite(head, tail, values, i) =>
      && ProducerCache(s, queue, head, tail) && s.Fits(head, tail, |values|)
      && Written(s.slots, pos + Span(queue), values, i)
    case PPublish(head, tail, values) =>
      && ProducerCache(s, queue, head, tail) && s.Fits(head, tail, |values|)
      && Written(s.slots, pos + Span(queue), values, |values|)
      && s.slots[SlotOf(pos + Span(queue), |s.slots|)] == Len(|values|)
    case _ => true
  }

  /** The cached cursors of a consumer: `tail` is current, `head` may lag behind but stays on a record boundary. */
  ghost predicate ConsumerCache<T>(s: Shared<T>, queue: seq<seq<T>>, head: nat, tail: nat) {
    tail == s.tail && head < WORD && Boundary(queue, WrapSub(head, tail))
  }

  ghost predicate ConsumerOk<T>(s: Shared<T>, queue: seq<seq<T>>, l: Local<T>) {
    match l
    case CHead(head) => ConsumerCache(s, queue, head, s.tail)
    case CReady(head, tail) => ConsumerCache(s, queue, head, tail)
    case CReload(head, tail, _) => ConsumerCache(s, queue, head, tail)
    case CLen(head, tail, _) => ConsumerCache(s, queue, head, tail) && head != tail
    case CRead(head, tail, len, out) =>
      && ConsumerCache(s, queue, head, tail) && head != tail
      && queue != [] && len == |queue[0]| && out <= queue[0]
    case CAdvance(head, tail, out) =>
      && ConsumerCache(s, queue, head, tail) && head != tail
      && queue != [] && out == queue[0]
    case _ => true
  }
}
