/**
 Any number of producers and consumers on one ring, interleaved step by step. A signal handler nested in
 another one on the same thread is one more actor whose steps all come between two steps of the outer one,
 so every nesting is among the interleavings.
 */
module RingSystem {
  import opened Words
  import opened Options
  import opened Ring

  /** The ring, its actors, and what was published and popped so far, in order. */
  datatype System<T> = System(shared: Shared<T>, actors: map<nat, Local<T>>,
                              published: seq<seq<T>>, popped: seq<seq<T>>)
  {
    function Actor(a: nat): Local<T> {
      if a in actors then actors[a] else Idle
    }

    /** Actor `a` did the step `o`. */
    function After(a: nat, o: Outcome<T>): System<T> {
      System(o.shared, actors[a := o.local],
             if o.event.Published? then published + [o.event.values] else published,
             if o.event.Popped? then popped + [o.event.out] else popped)
    }

    function Step(a: nat, cmd: Command<T>): (c: System<T>)
      requires |shared.slots| > 0
      ensures |c.shared.slots| == |shared.slots|
    {
      After(a, Next(shared, Actor(a), cmd))
    }

    function EventOf(a: nat, cmd: Command<T>): Event<T>
      requires |shared.slots| > 0
    {
      Next(shared, Actor(a), cmd).event
    }

    ghost function Pending(): seq<seq<T>>
      requires |popped| <= |published|
    {
      published[|popped|..]
    }
  }

  datatype Action<T> = Action(actor: nat, cmd: Command<T>)

  /** A new ring of `n` slots. `start` is any cursor value to begin from; the original begins at 0. */
  ghost predicate Initial<T>(c: System<T>, start: nat) {
    && IsCapacity(|c.shared.slots|)
    && c.shared.head == c.shared.tail == start % WORD
    && !c.shared.producerLocked && !c.shared.consumerLocked
    && c.actors == map[] && c.published == [] && c.popped == []
  }

  ghost function Run<T>(c: System<T>, actions: seq<Action<T>>): System<T>
    requires |c.shared.slots| > 0
    ensures |Run(c, actions).shared.slots| == |c.shared.slots|
    decreases |actions|
  {
    if actions == [] then c
    else
      var last := |actions| - 1;
      Run(c, actions[..last]).Step(actions[last].actor, actions[last].cmd)
  }

  ghost predicate Exclusive<T>(c: System<T>) {
    && (forall a :: c.Actor(a).Producing() ==> c.shared.producerLocked)
    && (forall a :: c.Actor(a).Consuming() ==> c.shared.consumerLocked)
    && (forall a, b :: c.Actor(a).Producing() && c.Actor(b).Producing() ==> a == b)
    && (forall a, b :: c.Actor(a).Consuming() && c.Actor(b).Consuming() ==> a == b)
  }

  ghost predicate Inv<T>(c: System<T>, start: nat) {
    && c.popped <= c.published
    && SharedOk(c.shared, start + Span(c.popped), c.Pending())
    && Exclusive(c)
    && EveryoneOk(c, c.shared, start + Span(c.popped), c.Pending())
  }

  ghost predicate EveryoneOk<T>(c: System<T>, s: Shared<T>, pos: nat, queue: seq<seq<T>>)
    requires |s.slots| > 0
  {
    forall a :: ProducerOk(s, pos, queue, c.Actor(a)) && ConsumerOk(s, queue, c.Actor(a))
  }

  ghost predicate OthersConsume<T>(c: System<T>, a: nat, s: Shared<T>, queue: seq<seq<T>>)
    requires |s.slots| > 0
  {
    forall b | b != a :: ConsumerOk(s, queue, c.Actor(b))
  }

  ghost predicate OthersProduce<T>(c: System<T>, a: nat, s: Shared<T>, pos: nat, queue: seq<seq<T>>)
    requires |s.slots| > 0
  {
    forall b | b != a :: ProducerOk(s, pos, queue, c.Actor(b))
  }

  // ---- Sequences of records ----

  lemma {:induction false} SpanConcat<T>(a: seq<seq<T>>, b: seq<seq<T>>)
    ensures Span(a + b) == Span(a) + Span(b)
    decreases |a|
  {
    if a == [] {
      assert a + b == b;
    } else {
      assert (a + b)[1..] == a[1..] + b;
      SpanConcat(a[1..], b);
    }
  }

  lemma {:induction false} BoundaryEnd<T>(records: seq<seq<T>>)
    ensures Boundary(records, Span(records))
    decreases |records|
  {
    if records != [] {
      BoundaryEnd(records[1..]);
    }
  }

  lemma {:induction false} BoundaryAppend<T>(records: seq<seq<T>>, offset: nat, more: seq<seq<T>>)
    requires Boundary(records, offset)
    ensures Boundary(records + more, offset)
    decreases |records|
  {
    if offset != 0 {
      assert (records + more)[1..] == records[1..] + more;
      BoundaryAppend(records[1..], offset - 1 - |records[0]|, more);
    }
  }

  /** No earlier position of the same window shares a slot with `at`. */
  lemma SlotsApart(lo: nat, at: nat, n: nat)
    requires n > 0 && lo <= at < lo + n
    ensures forall p: nat | lo <= p < at :: SlotOf(p, n) != SlotOf(at, n)
  {
    forall p: nat | lo <= p < at
      ensures SlotOf(p, n) != SlotOf(at, n)
    {
      if SlotOf(p, n) == SlotOf(at, n) { ResidueUnique(p, at, n); }
    }
  }

  /** A write to a free slot leaves the records alone. */
  lemma {:induction false} LaidFrame<T>(slots: seq<Slot<T>>, pos: nat, records: seq<seq<T>>, at: nat, slot: Slot<T>)
    requires |slots| > 0 && Laid(slots, pos, records)
    requires pos + Span(records) <= at < pos + |slots|
    ensures Laid(slots[SlotOf(at, |slots|) := slot], pos, records)
    decreases |records|
  {
    if records != [] {
      SlotsApart(pos, at, |slots|);
      LaidFrame(slots, pos + 1 + |records[0]|, records[1..], at, slot);
    }
  }

  /** A finished record extends the queue it follows. */
  lemma {:induction false} LaidAppend<T>(slots: seq<Slot<T>>, pos: nat, records: seq<seq<T>>, values: seq<T>)
    requires |slots| > 0 && Laid(slots, pos, records)
    requires Written(slots, pos + Span(records), values, |values|)
    requires slots[SlotOf(pos + Span(records), |slots|)] == Len(|values|)
    ensures Laid(slots, pos, records + [values])
    decreases |records|
  {
    if records == [] {
      assert (records + [values])[1..] == [];
    } else {
      LaidAppend(slots, pos + 1 + |records[0]|, records[1..], values);
      assert (records + [values])[1..] == records[1..] + [values];
    }
  }

  // ---- One step ----

  lemma {:induction false} SlotAt<T>(s: Shared<T>, pos: nat)
    requires IsCapacity(|s.slots|)
    ensures BitAnd(pos % WORD, |s.slots| - 1) == SlotOf(pos, |s.slots|)
  {
    MaskOfWrapped(pos, |s.slots|);
  }

  ghost function QueueAfter<T>(queue: seq<seq<T>>, e: Event<T>): seq<seq<T>> {
    match e
    case Published(values) => queue + [values]
    case Popped(_) => if queue == [] then queue else queue[1..]
    case _ => queue
  }

  lemma CapacityBound(n: nat)
    requires IsCapacity(n)
    ensures 0 < n < WORD
  {
    MaskOfWrapped(0, n);
  }

  lemma {:induction false} SharedFacts<T>(s: Shared<T>, pos: nat, queue: seq<seq<T>>)
    requires SharedOk(s, pos, queue)
    ensures 0 < |s.slots| < WORD && WrapSub(s.head, s.tail) == Span(queue)
  {
    CapacityBound(|s.slots|);
    WrapSubPos(pos + Span(queue), pos);
  }

  lemma {:induction false} WrittenGrows<T>(slots: seq<Slot<T>>, at: nat, values: seq<T>, i: nat)
    requires i < |values| < |slots| && Written(slots, at, values, i)
    ensures Written(slots[SlotOf(at + 1 + i, |slots|) := Value(values[i])], at, values, i + 1)
  {
    SlotsApart(at, at + 1 + i, |slots|);
  }

  lemma {:induction false} WrittenKeepsLen<T>(slots: seq<Slot<T>>, at: nat, values: seq<T>, slot: Slot<T>)
    requires |values| < |slots| && Written(slots, at, values, |values|)
    ensures Written(slots[SlotOf(at, |slots|) := slot], at, values, |values|)
  {
    forall j: nat | j < |values|
      ensures slots[SlotOf(at, |slots|) := slot][SlotOf(at + 1 + j, |slots|)] == Value(values[j])
    {
      SlotsApart(at, at + 1 + j, |slots|);
    }
  }

  lemma {:induction false} WriteValue<T>(s: Shared<T>, pos: nat, queue: seq<seq<T>>, l: Local<T>, cmd: Command<T>)
    requires SharedOk(s, pos, queue) && l.PWrite? && ProducerOk(s, pos, queue, l) && l.i < |l.values|
    ensures var o := Next(s, l, cmd);
      SharedOk(o.shared, pos, queue) && ProducerOk(o.shared, pos, queue, o.local)
  {
    SharedFacts(s, pos, queue);
    var at := pos + Span(queue);
    WriteIndex(s, at, l.head, l.i);
    WrittenGrows(s.slots, at, l.values, l.i);
    LaidFrame(s.slots, pos, queue, at + 1 + l.i, Value(l.values[l.i]));
  }

  lemma {:induction false} WriteLen<T>(s: Shared<T>, pos: nat, queue: seq<seq<T>>, l: Local<T>, cmd: Command<T>)
    requires SharedOk(s, pos, queue) && l.PWrite? && ProducerOk(s, pos, queue, l) && l.i >= |l.values|
    ensures var o := Next(s, l, cmd);
      SharedOk(o.shared, pos, queue) && ProducerOk(o.shared, pos, queue, o.local)
  {
    SharedFacts(s, pos, queue);
    var at := pos + Span(queue);
    SlotAt(s, at);
    WrittenKeepsLen(s.slots, at, l.values, Len(|l.values|));
    LaidFrame(s.slots, pos, queue, at, Len(|l.values|));
  }

  /** Writing one value, then the length: the record grows in free slots. */
  lemma {:induction false} WriteStep<T>(s: Shared<T>, pos: nat, queue: seq<seq<T>>, l: Local<T>, cmd: Command<T>)
    requires SharedOk(s, pos, queue) && l.PWrite? && ProducerOk(s, pos, queue, l)
    ensures var o := Next(s, l, cmd);
      SharedOk(o.shared, pos, queue) && ProducerOk(o.shared, pos, queue, o.local)
  {
    if l.i < |l.values| { WriteValue(s, pos, queue, l, cmd); } else { WriteLen(s, pos, queue, l, cmd); }
  }

  lemma {:induction false} WriteIndex<T>(s: Shared<T>, at: nat, head: nat, i: nat)
    requires IsCapacity(|s.slots|) && head == at % WORD
    ensures BitAnd(WrapAdd(WrapAdd(head, 1), i), |s.slots| - 1) == SlotOf(at + 1 + i, |s.slots|)
  {
    WrapAddTwice(head, 1, i);
    WrapAddPos(at, 1 + i);
    SlotAt(s, at + 1 + i);
  }

  /** The store to `head` turns the written slots into the last record of the queue. */
  lemma {:induction false} PublishStep<T>(s: Shared<T>, pos: nat, queue: seq<seq<T>>, l: Local<T>, cmd: Command<T>)
    requires SharedOk(s, pos, queue) && l.PPublish? && ProducerOk(s, pos, queue, l)
    ensures var o := Next(s, l, cmd);
      SharedOk(o.shared, pos, queue + [l.values]) && ProducerOk(o.shared, pos, queue + [l.values], o.local)
  {
    SharedFacts(s, pos, queue);
    LaidAppend(s.slots, pos, queue, l.values);
    SpanConcat(queue, [l.values]);
    assert Span([l.values]) == 1 + |l.values|;
    WrapAddTwice(l.head, 1, |l.values|);
    WrapAddPos(pos + Span(queue), 1 + |l.values|);
    WrapSubGrow(l.head, l.tail, 1 + |l.values|);
  }

  ghost predicate ProducerMove<T>(s: Shared<T>, pos: nat, queue: seq<seq<T>>, o: Outcome<T>) {
    && !o.event.Panic? && !o.event.Popped? && !o.event.Empty? && !o.event.TooSmall?
    && !o.event.ProducerRefused? && !o.event.ConsumerRefused?
    && o.shared.tail == s.tail && o.shared.consumerLocked == s.consumerLocked
    && SharedOk(o.shared, pos, QueueAfter(queue, o.event))
    && ProducerOk(o.shared, pos, QueueAfter(queue, o.event), o.local)
    && (if o.local.Idle? then !o.shared.producerLocked
        else o.local.Producing() && o.shared.producerLocked == s.producerLocked)
    && (o.event.Full? ==> |s.slots| - Span(queue) < o.event.len + 1 && o.shared == s)
  }

  /** A producer step keeps the memory well formed, never panics, and reports `Full` only of a full ring. */
  lemma {:induction false} ProducerStep<T>(s: Shared<T>, pos: nat, queue: seq<seq<T>>, l: Local<T>, cmd: Command<T>)
    requires SharedOk(s, pos, queue) && l.Producing() && ProducerOk(s, pos, queue, l)
    ensures ProducerMove(s, pos, queue, Next(s, l, cmd))
  {
    SharedFacts(s, pos, queue);
    if l.PWrite? {
      WriteStep(s, pos, queue, l, cmd);
    } else if l.PPublish? {
      PublishStep(s, pos, queue, l, cmd);
    }
  }

  /** What a consumer relies on survives every producer step. */
  lemma {:induction false} ProducerKeepsConsumer<T>(s: Shared<T>, pos: nat, queue: seq<seq<T>>, l: Local<T>,
                                                    cmd: Command<T>, other: Local<T>)
    requires SharedOk(s, pos, queue) && l.Producing() && ProducerOk(s, pos, queue, l)
    requires ConsumerOk(s, queue, other)
    ensures var o := Next(s, l, cmd);
      ConsumerOk(o.shared, QueueAfter(queue, o.event), other)
  {
    ProducerStep(s, pos, queue, l, cmd);
    if l.PPublish? {
      match other {
        case CHead(head) => BoundaryAppend(queue, WrapSub(head, s.tail), [l.values]);
        case CReady(head, tail) => BoundaryAppend(queue, WrapSub(head, tail), [l.values]);
        case CReload(head, tail, _) => BoundaryAppend(queue, WrapSub(head, tail), [l.values]);
        case CLen(head, tail, _) => BoundaryAppend(queue, WrapSub(head, tail), [l.values]);
        case CRead(head, tail, _, _) => BoundaryAppend(queue, WrapSub(head, tail), [l.values]);
        case CAdvance(head, tail, _) => BoundaryAppend(queue, WrapSub(head, tail), [l.values]);
        case _ =>
      }
    }
  }

  /** A cached head that differs from the tail proves a record is there. */
  lemma {:induction false} RecordThere<T>(s: Shared<T>, queue: seq<seq<T>>, head: nat, tail: nat)
    requires ConsumerCache(s, queue, head, tail) && head != tail && tail < WORD
    ensures queue != [] && WrapSub(head, tail) >= 1 + |queue[0]|
  {
  }

  /** The slot at the tail holds the length of the first record. */
  lemma {:induction false} LengthThere<T>(s: Shared<T>, pos: nat, queue: seq<seq<T>>, head: nat, tail: nat)
    requires SharedOk(s, pos, queue) && ConsumerCache(s, queue, head, tail) && head != tail
    ensures queue != [] && s.Slot(tail) == Len(|queue[0]|)
  {
    RecordThere(s, queue, head, tail);
    SlotAt(s, pos);
  }

  /** The slots behind it hold its values, in order. */
  lemma {:induction false} ValueThere<T>(s: Shared<T>, pos: nat, queue: seq<seq<T>>, tail: nat, i: nat)
    requires SharedOk(s, pos, queue) && tail == s.tail && queue != [] && i < |queue[0]|
    ensures s.Slot(WrapAdd(WrapAdd(tail, 1), i)) == Value(queue[0][i])
  {
    WriteIndex(s, pos, tail, i);
    assert s.slots[SlotOf(pos + 1 + i, |s.slots|)] == Value(queue[0][i]);
  }

  lemma {:induction false} LenStep<T>(s: Shared<T>, pos: nat, queue: seq<seq<T>>, l: Local<T>, cmd: Command<T>)
    requires SharedOk(s, pos, queue) && l.CLen? && ConsumerOk(s, queue, l)
    ensures var o := Next(s, l, cmd);
      && o.shared == s && ConsumerOk(s, queue, o.local) && o.local.Consuming() && queue != []
      && (if |queue[0]| > l.room then o.event == TooSmall(|queue[0]|, l.room) && o.local == CReady(l.head, l.tail)
          else o.event == Silent)
  {
    LengthThere(s, pos, queue, l.head, l.tail);
  }

  lemma {:induction false} ReadStep<T>(s: Shared<T>, pos: nat, queue: seq<seq<T>>, l: Local<T>, cmd: Command<T>)
    requires SharedOk(s, pos, queue) && l.CRead? && ConsumerOk(s, queue, l)
    ensures var o := Next(s, l, cmd);
      o.shared == s && ConsumerOk(s, queue, o.local) && o.local.Consuming() && o.event == Silent
  {
    if |l.out| < l.len {
      ValueThere(s, pos, queue, l.tail, |l.out|);
    }
  }

  /** The store to `tail` removes exactly the record that was copied out. */
  lemma {:induction false} AdvanceStep<T>(s: Shared<T>, pos: nat, queue: seq<seq<T>>, l: Local<T>, cmd: Command<T>)
    requires SharedOk(s, pos, queue) && l.CAdvance? && ConsumerOk(s, queue, l)
    ensures var o := Next(s, l, cmd);
      && queue != [] && o.event == Popped(queue[0])
      && SharedOk(o.shared, pos + 1 + |queue[0]|, queue[1..])
      && ConsumerOk(o.shared, queue[1..], o.local)
  {
    RecordThere(s, queue, l.head, l.tail);
    var k := 1 + |queue[0]|;
    WrapAddTwice(l.tail, 1, |l.out|);
    WrapAddPos(pos, k);
    WrapSubShrink(l.head, l.tail, k);
  }

  ghost function PosAfter<T>(pos: nat, e: Event<T>): nat {
    if e.Popped? then pos + 1 + |e.out| else pos
  }

  ghost predicate ConsumerMove<T>(s: Shared<T>, pos: nat, queue: seq<seq<T>>, o: Outcome<T>) {
    && !o.event.Panic? && !o.event.Published? && !o.event.Full?
    && !o.event.ProducerRefused? && !o.event.ConsumerRefused?
    && o.shared.head == s.head && o.shared.slots == s.slots && o.shared.producerLocked == s.producerLocked
    && SharedOk(o.shared, PosAfter(pos, o.event), QueueAfter(queue, o.event))
    && ConsumerOk(o.shared, QueueAfter(queue, o.event), o.local)
    && (if o.local.Idle? then !o.shared.consumerLocked
        else o.local.Consuming() && o.shared.consumerLocked == s.consumerLocked)
    && (o.event.Popped? ==> queue != [] && o.event.out == queue[0])
    && (o.event.Empty? ==> queue == [] && o.shared == s)
    && (o.event.TooSmall? ==> queue != [] && o.shared == s && o.event.needed == |queue[0]| > o.event.room)
  }

  /** A freshly loaded head is a record boundary, and equals the tail exactly when the ring is empty. */
  lemma {:induction false} FreshHead<T>(s: Shared<T>, pos: nat, queue: seq<seq<T>>)
    requires SharedOk(s, pos, queue)
    ensures ConsumerCache(s, queue, s.head, s.tail)
    ensures s.head == s.tail <==> queue == []
  {
    SharedFacts(s, pos, queue);
    BoundaryEnd(queue);
  }

  lemma {:induction false} CursorStep<T>(s: Shared<T>, pos: nat, queue: seq<seq<T>>, l: Local<T>, cmd: Command<T>)
    requires SharedOk(s, pos, queue) && (l.CLocked? || l.CHead? || l.CReady? || l.CReload?) && ConsumerOk(s, queue, l)
    ensures ConsumerMove(s, pos, queue, Next(s, l, cmd))
  {
    FreshHead(s, pos, queue);
    var o := Next(s, l, cmd);
    assert o.shared.(consumerLocked := s.consumerLocked) == s;
    assert ConsumerOk(o.shared, queue, o.local);
  }

  /** A consumer step never panics, pops the first record, and reports `Empty` only of an empty ring. */
  lemma {:induction false} ConsumerStep<T>(s: Shared<T>, pos: nat, queue: seq<seq<T>>, l: Local<T>, cmd: Command<T>)
    requires SharedOk(s, pos, queue) && l.Consuming() && ConsumerOk(s, queue, l)
    ensures ConsumerMove(s, pos, queue, Next(s, l, cmd))
  {
    if l.CLen? {
      LenStep(s, pos, queue, l, cmd);
    } else if l.CRead? {
      ReadStep(s, pos, queue, l, cmd);
    } else if l.CAdvance? {
      AdvanceStep(s, pos, queue, l, cmd);
    } else {
      CursorStep(s, pos, queue, l, cmd);
    }
  }

  /** What a producer relies on survives every consumer step. */
  lemma {:induction false} ConsumerKeepsProducer<T>(s: Shared<T>, pos: nat, queue: seq<seq<T>>, l: Local<T>,
                                                    cmd: Command<T>, other: Local<T>)
    requires SharedOk(s, pos, queue) && l.Consuming() && ConsumerOk(s, queue, l)
    requires ProducerOk(s, pos, queue, other)
    ensures var o := Next(s, l, cmd);
      ProducerOk(o.shared, PosAfter(pos, o.event), QueueAfter(queue, o.event), other)
  {
    ConsumerFrame(s, l, cmd);
    if l.CAdvance? {
      AdvanceStep(s, pos, queue, l, cmd);
      ProducerAfterPop(s, Next(s, l, cmd).shared, pos, queue, other);
    } else {
      ProducerUndisturbed(s, Next(s, l, cmd).shared, pos, queue, other);
    }
  }

  /** A consumer writes neither slots nor the head, and moves the tail only where it advances. */
  lemma {:induction false} ConsumerFrame<T>(s: Shared<T>, l: Local<T>, cmd: Command<T>)
    requires |s.slots| > 0 && l.Consuming()
    ensures var o := Next(s, l, cmd);
      && o.shared.slots == s.slots && o.shared.head == s.head && !o.event.Published?
      && (!l.CAdvance? ==> !o.event.Popped?)
  {
  }

  lemma {:induction false} ProducerUndisturbed<T>(s: Shared<T>, w: Shared<T>, pos: nat, queue: seq<seq<T>>, other: Local<T>)
    requires |s.slots| > 0 && w.slots == s.slots && w.head == s.head && ProducerOk(s, pos, queue, other)
    ensures ProducerOk(w, pos, queue, other)
  {
  }

  /** What a producer relies on lies behind the head; a pop moves only the tail. */
  lemma {:induction false} ProducerAfterPop<T>(s: Shared<T>, w: Shared<T>, pos: nat, queue: seq<seq<T>>, other: Local<T>)
    requires |s.slots| > 0 && queue != [] && w.slots == s.slots && w.head == s.head && ProducerOk(s, pos, queue, other)
    ensures ProducerOk(w, pos + 1 + |queue[0]|, queue[1..], other)
  {
  }

  // ---- Reading the memory back ----

  lemma {:induction false} DecodesValues<T>(slots: seq<Slot<T>>, pos: nat, at: nat, values: seq<T>)
    requires |slots| > 0 && SlotOf(pos, |slots|) == SlotOf(at, |slots|)
    requires forall j: nat | j < |values| :: slots[SlotOf(at + j, |slots|)] == Value(values[j])
    ensures DecodeValues(slots, pos, |values|) == Some(values)
    decreases |values|
  {
    if values != [] {
      ModShift(pos, at, 1, |slots|);
      assert slots[SlotOf(at + 0, |slots|)] == Value(values[0]);
      forall j: nat | j < |values[1..]|
        ensures slots[SlotOf(at + 1 + j, |slots|)] == Value(values[1..][j])
      {
        assert slots[SlotOf(at + (1 + j), |slots|)] == Value(values[1 + j]);
      }
      DecodesValues(slots, pos + 1, at + 1, values[1..]);
      assert [values[0]] + values[1..] == values;
    }
  }

  lemma {:induction false} Decodes<T>(slots: seq<Slot<T>>, pos: nat, at: nat, records: seq<seq<T>>)
    requires |slots| > 0 && Laid(slots, at, records) && SlotOf(pos, |slots|) == SlotOf(at, |slots|)
    ensures Decode(slots, pos, Span(records)) == Some(records)
    decreases |records|
  {
    if records != [] {
      ModShift(pos, at, 1, |slots|);
      ModShift(pos, at, 1 + |records[0]|, |slots|);
      var k := |records[0]|;
      DecodesValues(slots, pos + 1, at + 1, records[0]);
      Decodes(slots, pos + 1 + k, at + 1 + k, records[1..]);
      DecodeUnfolds(slots, pos, k, records[0], Span(records[1..]), records[1..]);
      assert [records[0]] + records[1..] == records;
    }
  }

  lemma {:induction false} DecodeUnfolds<T>(slots: seq<Slot<T>>, pos: nat, k: nat, record: seq<T>, span: nat, rest: seq<seq<T>>)
    requires |slots| > 0 && slots[SlotOf(pos, |slots|)] == Len(k)
    requires DecodeValues(slots, pos + 1, k) == Some(record)
    requires Decode(slots, pos + 1 + k, span) == Some(rest)
    ensures Decode(slots, pos, 1 + k + span) == Some([record] + rest)
  {
  }

  lemma {:induction false} QueueIs<T>(s: Shared<T>, pos: nat, queue: seq<seq<T>>)
    requires SharedOk(s, pos, queue)
    ensures Queue(s) == Some(queue)
  {
    SharedFacts(s, pos, queue);
    TailSlot(pos, |s.slots|);
    Decodes(s.slots, s.tail, pos, queue);
  }

  lemma TailSlot(pos: nat, n: nat)
    requires IsCapacity(n)
    ensures n > 0 && SlotOf(pos % WORD, n) == SlotOf(pos, n)
  {
    MaskOfWrapped(pos, n);
  }

  // ---- All interleavings ----

  lemma {:induction false} SpanOfPrefix<T>(popped: seq<seq<T>>, r: seq<T>)
    ensures Span(popped + [r]) == Span(popped) + 1 + |r|
  {
    SpanConcat(popped, [r]);
    assert Span([r]) == 1 + |r|;
  }

  lemma {:induction false} AfterExclusive<T>(c: System<T>, a: nat, o: Outcome<T>)
    requires Exclusive(c)
    requires c.Actor(a).Producing() || c.Actor(a).Consuming()
    requires c.Actor(a).Producing() ==>
      && o.shared.consumerLocked == c.shared.consumerLocked
      && if o.local.Idle? then !o.shared.producerLocked
         else o.local.Producing() && o.shared.producerLocked == c.shared.producerLocked
    requires c.Actor(a).Consuming() ==>
      && o.shared.producerLocked == c.shared.producerLocked
      && if o.local.Idle? then !o.shared.consumerLocked
         else o.local.Consuming() && o.shared.consumerLocked == c.shared.consumerLocked
    ensures Exclusive(c.After(a, o))
  {
    var d := c.After(a, o);
    assert forall b | b != a :: d.Actor(b) == c.Actor(b);
    assert d.Actor(a) == o.local;
  }

  lemma {:induction false} AfterProducer<T>(c: System<T>, start: nat, a: nat, o: Outcome<T>)
    requires Inv(c, start) && c.Actor(a).Producing()
    requires ProducerMove(c.shared, start + Span(c.popped), c.Pending(), o)
    requires OthersConsume(c, a, o.shared, QueueAfter(c.Pending(), o.event))
    ensures Inv(c.After(a, o), start)
    ensures c.After(a, o).Pending() == QueueAfter(c.Pending(), o.event)
  {
    var d := c.After(a, o);
    AfterExclusive(c, a, o);
    assert d.popped == c.popped <= d.published;
    assert d.Pending() == QueueAfter(c.Pending(), o.event);
    AfterActors(c, a, o, start + Span(c.popped), QueueAfter(c.Pending(), o.event));
  }

  lemma {:induction false} AfterActors<T>(c: System<T>, a: nat, o: Outcome<T>, pos: nat, queue: seq<seq<T>>)
    requires |o.shared.slots| > 0 && Exclusive(c) && c.Actor(a).Producing()
    requires ProducerOk(o.shared, pos, queue, o.local) && (o.local.Idle? || o.local.Producing())
    requires OthersConsume(c, a, o.shared, queue)
    ensures EveryoneOk(c.After(a, o), o.shared, pos, queue)
  {
    forall b
      ensures ProducerOk(o.shared, pos, queue, c.After(a, o).Actor(b)) && ConsumerOk(o.shared, queue, c.After(a, o).Actor(b))
    {
      assert c.After(a, o).Actor(b) == if b == a then o.local else c.Actor(b);
      assert b != a ==> !c.Actor(b).Producing();
    }
  }

  /** One more popped record is the first one that was pending. */
  lemma PopOne<T>(published: seq<T>, popped: seq<T>, out: T)
    requires popped <= published && |popped| < |published| && published[|popped|] == out
    ensures popped + [out] <= published && published[|popped + [out]|..] == published[|popped|..][1..]
  {
  }

  lemma {:induction false} AfterPop<T>(c: System<T>, start: nat, a: nat, o: Outcome<T>)
    requires c.popped <= c.published && ConsumerMove(c.shared, start + Span(c.popped), c.Pending(), o)
    ensures var d := c.After(a, o);
      && d.popped <= d.published && d.Pending() == QueueAfter(c.Pending(), o.event)
      && start + Span(d.popped) == PosAfter(start + Span(c.popped), o.event)
  {
    if o.event.Popped? {
      PopOne(c.published, c.popped, o.event.out);
      SpanOfPrefix(c.popped, o.event.out);
    }
  }

  lemma {:induction false} AfterConsumerActors<T>(c: System<T>, a: nat, o: Outcome<T>, pos: nat, queue: seq<seq<T>>)
    requires |o.shared.slots| > 0 && Exclusive(c) && c.Actor(a).Consuming()
    requires ConsumerOk(o.shared, queue, o.local) && (o.local.Idle? || o.local.Consuming())
    requires OthersProduce(c, a, o.shared, pos, queue)
    ensures EveryoneOk(c.After(a, o), o.shared, pos, queue)
  {
    forall b
      ensures ProducerOk(o.shared, pos, queue, c.After(a, o).Actor(b)) && ConsumerOk(o.shared, queue, c.After(a, o).Actor(b))
    {
      assert c.After(a, o).Actor(b) == if b == a then o.local else c.Actor(b);
      assert b != a ==> !c.Actor(b).Consuming();
    }
  }

  lemma {:induction false} AfterConsumer<T>(c: System<T>, start: nat, a: nat, o: Outcome<T>)
    requires Inv(c, start) && c.Actor(a).Consuming()
    requires ConsumerMove(c.shared, start + Span(c.popped), c.Pending(), o)
    requires OthersProduce(c, a, o.shared, PosAfter(start + Span(c.popped), o.event), QueueAfter(c.Pending(), o.event))
    ensures Inv(c.After(a, o), start)
    ensures c.After(a, o).Pending() == QueueAfter(c.Pending(), o.event)
  {
    AfterPop(c, start, a, o);
    AfterExclusive(c, a, o);
    AfterConsumerActors(c, a, o, PosAfter(start + Span(c.popped), o.event), QueueAfter(c.Pending(), o.event));
  }

  /** An idle actor takes a free lock, or is refused, and touches nothing else. */
  lemma {:induction false} IdleOutcome<T>(s: Shared<T>, cmd: Command<T>)
    requires |s.slots| > 0
    ensures var o := Next(s, Idle, cmd);
      && !o.event.Published? && !o.event.Popped?
      && o.shared == s.(producerLocked := o.shared.producerLocked, consumerLocked := o.shared.consumerLocked)
      && (if o.local.PLocked? then !s.producerLocked && o.shared == s.(producerLocked := true)
          else if o.local.CLocked? then !s.consumerLocked && o.shared == s.(consumerLocked := true)
          else o.local.Idle? && o.shared == s)
  {
  }

  lemma {:induction false} IdleExclusive<T>(c: System<T>, a: nat, o: Outcome<T>)
    requires Exclusive(c) && c.Actor(a).Idle?
    requires if o.local.PLocked? then !c.shared.producerLocked && o.shared == c.shared.(producerLocked := true)
             else if o.local.CLocked? then !c.shared.consumerLocked && o.shared == c.shared.(consumerLocked := true)
             else o.local.Idle? && o.shared == c.shared
    ensures Exclusive(c.After(a, o))
  {
    var d := c.After(a, o);
    assert d.Actor(a) == o.local;
    assert forall b | b != a :: d.Actor(b) == c.Actor(b);
  }

  lemma {:induction false} IdleStepKeepsInv<T>(c: System<T>, start: nat, a: nat, cmd: Command<T>)
    requires Inv(c, start) && c.Actor(a).Idle?
    ensures Inv(c.Step(a, cmd), start)
    ensures c.Step(a, cmd).Pending() == QueueAfter(c.Pending(), c.EventOf(a, cmd))
  {
    var o := Next(c.shared, Idle, cmd);
    var d := c.After(a, o);
    IdleOutcome(c.shared, cmd);
    IdleExclusive(c, a, o);
    assert d.Pending() == c.Pending();
    assert d.Actor(a) == o.local;
    assert forall b | b != a :: d.Actor(b) == c.Actor(b);
  }

  lemma {:induction false} StepKeepsInv<T>(c: System<T>, start: nat, a: nat, cmd: Command<T>)
    requires Inv(c, start)
    ensures Inv(c.Step(a, cmd), start)
    ensures c.Step(a, cmd).Pending() == QueueAfter(c.Pending(), c.EventOf(a, cmd))
  {
    var pos, queue, l := start + Span(c.popped), c.Pending(), c.Actor(a);
    if l.Idle? {
      IdleStepKeepsInv(c, start, a, cmd);
    } else if l.Producing() {
      ProducerStep(c.shared, pos, queue, l, cmd);
      forall b | b != a
        ensures ConsumerOk(Next(c.shared, l, cmd).shared, QueueAfter(queue, Next(c.shared, l, cmd).event), c.Actor(b))
      {
        ProducerKeepsConsumer(c.shared, pos, queue, l, cmd, c.Actor(b));
      }
      AfterProducer(c, start, a, Next(c.shared, l, cmd));
    } else {
      ConsumerStep(c.shared, pos, queue, l, cmd);
      forall b | b != a
        ensures ProducerOk(Next(c.shared, l, cmd).shared, PosAfter(pos, Next(c.shared, l, cmd).event),
                           QueueAfter(queue, Next(c.shared, l, cmd).event), c.Actor(b))
      {
        ConsumerKeepsProducer(c.shared, pos, queue, l, cmd, c.Actor(b));
      }
      AfterConsumer(c, start, a, Next(c.shared, l, cmd));
    }
  }

  lemma {:induction false} RunKeepsInv<T>(c: System<T>, start: nat, actions: seq<Action<T>>)
    requires Initial(c, start) && |c.shared.slots| > 0
    ensures Inv(Run(c, actions), start)
    decreases |actions|
  {
    if actions != [] {
      var last := |actions| - 1;
      RunKeepsInv(c, start, actions[..last]);
      StepKeepsInv(Run(c, actions[..last]), start, actions[last].actor, actions[last].cmd);
    }
  }

  /**
   The ring is an atomic FIFO of whole records, whatever the interleaving and the cursor it started from:
   what was popped is a prefix of what was published, record for record and value for value, and the memory
   reads back as exactly the rest.
   */
  lemma {:induction false} RingIsFifo<T>(c: System<T>, start: nat, actions: seq<Action<T>>)
    requires Initial(c, start) && |c.shared.slots| > 0
    ensures var d := Run(c, actions);
      && d.popped <= d.published
      && Queue(d.shared) == Some(d.published[|d.popped|..])
  {
    RunKeepsInv(c, start, actions);
    var d := Run(c, actions);
    QueueIs(d.shared, start + Span(d.popped), d.Pending());
  }

  /**
   Every answer is true at the step that gives it. Nothing panics. `Full`: fewer than `len + 1` slots are
   free. `Empty`: the queue is empty. `TooSmall`: the first record is longer than the room, and stays.
   A try-lock is refused only while another actor holds it. Only `Published` and `Popped` change the queue.
   */
  lemma {:induction false} AnswersAreTrue<T>(c: System<T>, start: nat, actions: seq<Action<T>>, a: nat, cmd: Command<T>)
    requires Initial(c, start) && |c.shared.slots| > 0
    ensures var d := Run(c, actions); var e := d.Step(a, cmd);
      && Queue(d.shared).Some? && Queue(e.shared).Some?
      && TrueAnswer(d.shared, d.EventOf(a, cmd), e.shared, Queue(d.shared).value, Queue(e.shared).value)
  {
    RunKeepsInv(c, start, actions);
    AnswerIsTrue(Run(c, actions), start, a, cmd);
  }

  ghost predicate TrueAnswer<T>(s: Shared<T>, e: Event<T>, after: Shared<T>, queue: seq<seq<T>>, rest: seq<seq<T>>) {
    match e
    case Panic => false
    case Published(values) => rest == queue + [values]
    case Popped(out) => queue == [out] + rest
    case Full(len) => |s.slots| - Span(queue) < len + 1 && rest == queue
    case Empty => queue == [] && rest == queue
    case TooSmall(needed, room) => queue != [] && needed == |queue[0]| > room && after == s
    case ProducerRefused => s.producerLocked && rest == queue
    case ConsumerRefused => s.consumerLocked && rest == queue
    case Silent => rest == queue
  }

  lemma ProducerAnswer<T>(s: Shared<T>, pos: nat, queue: seq<seq<T>>, o: Outcome<T>)
    requires ProducerMove(s, pos, queue, o)
    ensures TrueAnswer(s, o.event, o.shared, queue, QueueAfter(queue, o.event))
  {
  }

  lemma ConsumerAnswer<T>(s: Shared<T>, pos: nat, queue: seq<seq<T>>, o: Outcome<T>)
    requires ConsumerMove(s, pos, queue, o)
    ensures TrueAnswer(s, o.event, o.shared, queue, QueueAfter(queue, o.event))
  {
  }

  lemma {:induction false} ProducerAnswers<T>(s: Shared<T>, pos: nat, queue: seq<seq<T>>, l: Local<T>, cmd: Command<T>)
    requires SharedOk(s, pos, queue) && l.Producing() && ProducerOk(s, pos, queue, l)
    ensures Answers(s, queue, Next(s, l, cmd))
  {
    var o := Next(s, l, cmd);
    ProducerStep(s, pos, queue, l, cmd);
    ProducerAnswer(s, pos, queue, o);
    QueueIs(o.shared, pos, QueueAfter(queue, o.event));
  }

  lemma {:induction false} ConsumerAnswers<T>(s: Shared<T>, pos: nat, queue: seq<seq<T>>, l: Local<T>, cmd: Command<T>)
    requires SharedOk(s, pos, queue) && l.Consuming() && ConsumerOk(s, queue, l)
    ensures Answers(s, queue, Next(s, l, cmd))
  {
    var o := Next(s, l, cmd);
    ConsumerStep(s, pos, queue, l, cmd);
    ConsumerAnswer(s, pos, queue, o);
    QueueIs(o.shared, PosAfter(pos, o.event), QueueAfter(queue, o.event));
  }

  lemma {:induction false} IdleAnswers<T>(s: Shared<T>, pos: nat, queue: seq<seq<T>>, cmd: Command<T>)
    requires SharedOk(s, pos, queue)
    ensures Answers(s, queue, Next(s, Idle, cmd))
  {
    QueueIs(Next(s, Idle, cmd).shared, pos, queue);
  }

  /** The answer is true of the queue, which is what the memory reads back as afterwards. */
  ghost predicate Answers<T>(s: Shared<T>, queue: seq<seq<T>>, o: Outcome<T>)
    requires |s.slots| > 0 && |o.shared.slots| > 0
  {
    && Queue(o.shared) == Some(QueueAfter(queue, o.event))
    && TrueAnswer(s, o.event, o.shared, queue, QueueAfter(queue, o.event))
  }

  lemma {:induction false} AnswerIsTrue<T>(d: System<T>, start: nat, a: nat, cmd: Command<T>)
    requires Inv(d, start)
    ensures Queue(d.shared) == Some(d.Pending()) && Answers(d.shared, d.Pending(), Next(d.shared, d.Actor(a), cmd))
  {
    var pos, l := start + Span(d.popped), d.Actor(a);
    QueueIs(d.shared, pos, d.Pending());
    if l.Producing() {
      ProducerAnswers(d.shared, pos, d.Pending(), l, cmd);
    } else if l.Consuming() {
      ConsumerAnswers(d.shared, pos, d.Pending(), l, cmd);
    } else {
      IdleAnswers(d.shared, pos, d.Pending(), cmd);
    }
  }

  /** A lock that is set after a step belongs to the actor that moved, or to the one that held it before. */
  lemma LockAfterStep<T>(s: Shared<T>, l: Local<T>, cmd: Command<T>)
    requires |s.slots| > 0
    ensures var o := Next(s, l, cmd);
      && (o.shared.producerLocked ==> o.local.Producing() || (s.producerLocked && !l.Producing()))
      && (o.shared.consumerLocked ==> o.local.Consuming() || (s.consumerLocked && !l.Consuming()))
  {
  }

  /** A set lock flag always has a holder, so a try-lock is refused only while another actor is active. */
  lemma {:induction false} LockHasHolder<T>(c: System<T>, start: nat, actions: seq<Action<T>>)
    requires Initial(c, start) && |c.shared.slots| > 0
    ensures var d := Run(c, actions);
      && (d.shared.producerLocked <==> exists a :: d.Actor(a).Producing())
      && (d.shared.consumerLocked <==> exists a :: d.Actor(a).Consuming())
    decreases |actions|
  {
    RunKeepsInv(c, start, actions);
    if actions != [] {
      var last := actions[|actions| - 1];
      var d := Run(c, actions[..|actions| - 1]);
      LockHasHolder(c, start, actions[..|actions| - 1]);
      LockAfterStep(d.shared, d.Actor(last.actor), last.cmd);
      HolderStays(d, last.actor, Next(d.shared, d.Actor(last.actor), last.cmd));
    }
  }

  lemma {:induction false} HolderStays<T>(d: System<T>, a: nat, o: Outcome<T>)
    requires d.shared.producerLocked ==> exists b :: d.Actor(b).Producing()
    requires d.shared.consumerLocked ==> exists b :: d.Actor(b).Consuming()
    requires o.shared.producerLocked ==> o.local.Producing() || (d.shared.producerLocked && !d.Actor(a).Producing())
    requires o.shared.consumerLocked ==> o.local.Consuming() || (d.shared.consumerLocked && !d.Actor(a).Consuming())
    ensures var e := d.After(a, o);
      && (e.shared.producerLocked ==> exists b :: e.Actor(b).Producing())
      && (e.shared.consumerLocked ==> exists b :: e.Actor(b).Consuming())
  {
    var e := d.After(a, o);
    assert e.Actor(a) == o.local;
    assert forall b | b != a :: e.Actor(b) == d.Actor(b);
  }

  // ---- Slot ownership ----

  /** The slots an active push may write, as the code computes them: the length slot and every value slot. */
  ghost function PushSlots<T>(s: Shared<T>, l: Local<T>): set<nat>
    requires |s.slots| > 0
  {
    if l.PWrite? || l.PPublish? then
      set j: nat | j <= |l.values| :: BitAnd(WrapAdd(l.head, j), |s.slots| - 1)
    else {}
  }

  /** The slots an active pop may read. */
  ghost function PopSlots<T>(s: Shared<T>, l: Local<T>): set<nat>
    requires |s.slots| > 0
  {
    if l.CLen? then {BitAnd(l.tail, |s.slots| - 1)}
    else if l.CRead? then set j: nat | j <= l.len :: BitAnd(WrapAdd(l.tail, j), |s.slots| - 1)
    else {}
  }

  /** A slot is never written by one actor while another may read it, and at most one actor writes. */
  lemma {:induction false} SlotsHaveOneOwner<T>(c: System<T>, start: nat, actions: seq<Action<T>>, a: nat, b: nat)
    requires Initial(c, start) && |c.shared.slots| > 0
    ensures var d := Run(c, actions);
      && PushSlots(d.shared, d.Actor(a)) !! PopSlots(d.shared, d.Actor(b))
      && (a != b ==> PushSlots(d.shared, d.Actor(a)) == {} || PushSlots(d.shared, d.Actor(b)) == {})
      && (a != b ==> PopSlots(d.shared, d.Actor(a)) == {} || PopSlots(d.shared, d.Actor(b)) == {})
  {
    RunKeepsInv(c, start, actions);
    var d := Run(c, actions);
    var s, p, r := d.shared, d.Actor(a), d.Actor(b);
    var pos, queue := start + Span(d.popped), d.Pending();
    OwnersApart(s, pos, queue, p, r);
  }

  lemma {:induction false} OwnersApart<T>(s: Shared<T>, pos: nat, queue: seq<seq<T>>, p: Local<T>, r: Local<T>)
    requires SharedOk(s, pos, queue) && ProducerOk(s, pos, queue, p) && ConsumerOk(s, queue, r)
    ensures PushSlots(s, p) !! PopSlots(s, r)
  {
    if slot: nat :| slot in PushSlots(s, p) && slot in PopSlots(s, r) {
      var i: nat :| i <= |p.values| && slot == BitAnd(WrapAdd(p.head, i), |s.slots| - 1);
      var j: nat := 0;
      if r.CLen? {
        WrapAddPos(pos, 0);
      } else {
        j :| j <= r.len && slot == BitAnd(WrapAdd(r.tail, j), |s.slots| - 1);
      }
      PushAndPopApart(s, pos, queue, p, r, i, j);
      assert false;
    }
  }

  lemma {:induction false} PushAndPopApart<T>(s: Shared<T>, pos: nat, queue: seq<seq<T>>, p: Local<T>, r: Local<T>, i: nat, j: nat)
    requires SharedOk(s, pos, queue)
    requires ProducerOk(s, pos, queue, p) && (p.PWrite? || p.PPublish?) && i <= |p.values|
    requires ConsumerOk(s, queue, r) && ((r.CLen? && j == 0) || (r.CRead? && j <= r.len))
    ensures BitAnd(WrapAdd(p.head, i), |s.slots| - 1) != BitAnd(WrapAdd(r.tail, j), |s.slots| - 1)
  {
    SharedFacts(s, pos, queue);
    RecordThere(s, queue, r.head, r.tail);
    var at := pos + Span(queue);
    WrapAddPos(at, i);
    WrapAddPos(pos, j);
    SlotAt(s, at + i);
    SlotAt(s, pos + j);
    SlotsApart(pos, at + i, |s.slots|);
  }
}
