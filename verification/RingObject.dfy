/**
 The ring buffer object with its `Producer` and `Consumer` handles, as the original lays them out: slots
 written in place, cursors and lock flags updated field by field. Each method is undisturbed here, but the
 handles may hold stale cached cursors, as they do after other actors moved. `RingSystem` covers the
 interleavings; the loops below take exactly the steps of `Ring.Next`.
 */
module RingObject {
  import opened Words
  import opened Ring
  import opened RingSystem

  class RingBuffer<T> {
    const slots: array<Slot<T>>
    var head: nat
    var tail: nat
    var producerLocked: bool
    var consumerLocked: bool
    ghost var pos: nat             // the unbounded position of the tail
    ghost var queue: seq<seq<T>>   // the records in the ring, oldest first

    ghost function View(): Shared<T>
      reads this, slots
    {
      Shared(slots[..], head, tail, producerLocked, consumerLocked)
    }

    ghost predicate Valid()
      reads this, slots
    {
      SharedOk(View(), pos, queue)
    }

    constructor (n: nat)
      requires IsCapacity(n)
      ensures Valid() && queue == [] && fresh(slots) && slots.Length == n
      ensures head == 0 && tail == 0 && !producerLocked && !consumerLocked
    {
      CapacityBound(n);
      slots := new Slot<T>[n](_ => Uninit);
      head, tail, producerLocked, consumerLocked := 0, 0, false, false;
      pos, queue := 0, [];
    }

    /** `None` if another producer is active; otherwise a handle with freshly loaded cursors. */
    method TryProducer() returns (p: Producer?<T>)
      requires Valid()
      modifies `producerLocked
      ensures Valid() && producerLocked
      ensures p == null <==> old(producerLocked)
      ensures p != null ==> fresh(p) && p.rb == this && p.Valid() && p.head == head && p.tail == tail
    {
      if producerLocked {
        return null;
      }
      producerLocked := true;
      SharedFacts(View(), pos, queue);
      p := new Producer(this, head, tail);
    }

    method TryConsumer() returns (c: Consumer?<T>)
      requires Valid()
      modifies `consumerLocked
      ensures Valid() && consumerLocked
      ensures c == null <==> old(consumerLocked)
      ensures c != null ==> fresh(c) && c.rb == this && c.Valid() && c.head == head && c.tail == tail
    {
      if consumerLocked {
        return null;
      }
      consumerLocked := true;
      SharedFacts(View(), pos, queue);
      BoundaryEnd(queue);
      c := new Consumer(this, head, tail);
    }
  }

  class Producer<T> {
    const rb: RingBuffer<T>
    var head: nat
    var tail: nat

    ghost predicate Valid()
      reads this, rb, rb.slots
    {
      rb.Valid() && ProducerCache(rb.View(), rb.queue, head, tail)
    }

    constructor (rb: RingBuffer<T>, head: nat, tail: nat)
      ensures this.rb == rb && this.head == head && this.tail == tail
    {
      this.rb, this.head, this.tail := rb, head, tail;
    }

    method Fits(len: nat) returns (b: bool)
      requires Valid()
      ensures b == rb.View().Fits(head, tail, len)
    {
      b := rb.slots.Length - WrapSub(head, tail) > len;
    }

    /** Publishes `values` as one record, or changes nothing in the ring because it has no room for it. */
    method PushSlice(values: seq<T>) returns (ok: bool)
      requires Valid()
      modifies this, rb, rb.slots
      ensures Valid()
      ensures rb.pos == old(rb.pos) && rb.tail == old(rb.tail)
      ensures rb.producerLocked == old(rb.producerLocked) && rb.consumerLocked == old(rb.consumerLocked)
      ensures rb.queue == if ok then old(rb.queue) + [values] else old(rb.queue)
      ensures ok <==> Span(old(rb.queue)) + 1 + |values| <= rb.slots.Length
      ensures !ok ==> rb.View() == old(rb.View())
    {
      SharedFacts(rb.View(), rb.pos, rb.queue);
      var fits := Fits(|values|);
      if !fits {
        tail := rb.tail;
        fits := Fits(|values|);
        if !fits {
          return false;
        }
      }
      WriteRecord(values);
      Publish(values);
      ok := true;
    }

    /** Fills the free slots behind the head: the values first, the length last. */
    method WriteRecord(values: seq<T>)
      requires Valid() && rb.View().Fits(head, tail, |values|)
      modifies rb.slots
      ensures rb.Valid() && ProducerOk(rb.View(), rb.pos, rb.queue, PPublish(head, tail, values))
    {
      var i := 0;
      while i < |values|
        invariant i <= |values|
        invariant rb.Valid() && ProducerOk(rb.View(), rb.pos, rb.queue, PWrite(head, tail, values, i))
      {
        WriteStep(rb.View(), rb.pos, rb.queue, PWrite(head, tail, values, i), Continue);
        ghost var after := Next(rb.View(), PWrite(head, tail, values, i), Continue).shared;
        SetSlot(WrapAdd(WrapAdd(head, 1), i), Value(values[i]));
        assert rb.View() == after;
        i := i + 1;
      }
      WriteStep(rb.View(), rb.pos, rb.queue, PWrite(head, tail, values, i), Continue);
      ghost var after := Next(rb.View(), PWrite(head, tail, values, i), Continue).shared;
      SetSlot(head, Len(|values|));
      assert rb.View() == after;
    }

    /** Moves the head past the record just written, which is the moment it joins the queue. */
    method Publish(values: seq<T>)
      requires rb.Valid() && ProducerOk(rb.View(), rb.pos, rb.queue, PPublish(head, tail, values))
      modifies this`head, rb`head, rb`queue
      ensures Valid() && rb.queue == old(rb.queue) + [values]
    {
      PublishStep(rb.View(), rb.pos, rb.queue, PPublish(head, tail, values), Continue);
      head := WrapAdd(WrapAdd(head, 1), |values|);
      rb.head := head;
      rb.queue := rb.queue + [values];
    }

    method SetSlot(index: nat, slot: Slot<T>)
      requires rb.slots.Length > 0
      modifies rb.slots
      ensures rb.slots[..] == old(rb.View().Write(index, slot).slots)
    {
      rb.slots[BitAnd(index, rb.slots.Length - 1)] := slot;
    }

    /** Releases the producer lock. */
    method Drop()
      requires Valid()
      modifies rb`producerLocked
      ensures Valid() && !rb.producerLocked
    {
      rb.producerLocked := false;
    }
  }

  datatype PopResult = Ok(len: nat) | Empty | TooSmall(needed: nat)

  class Consumer<T> {
    const rb: RingBuffer<T>
    var head: nat
    var tail: nat

    ghost predicate Valid()
      reads this, rb, rb.slots
    {
      rb.Valid() && ConsumerCache(rb.View(), rb.queue, head, tail)
    }

    constructor (rb: RingBuffer<T>, head: nat, tail: nat)
      ensures this.rb == rb && this.head == head && this.tail == tail
    {
      this.rb, this.head, this.tail := rb, head, tail;
    }

    /** Copies the oldest record into the start of `out` and removes it, if it is there and fits. */
    method PopSlice(out: array<T>) returns (r: PopResult)
      requires Valid()
      requires out as object != rb.slots
      modifies this, rb, out
      ensures Valid()
      ensures rb.head == old(rb.head) && rb.slots[..] == old(rb.slots[..])
      ensures rb.producerLocked == old(rb.producerLocked) && rb.consumerLocked == old(rb.consumerLocked)
      ensures r.Empty? <==> old(rb.queue) == []
      ensures r.TooSmall? <==> old(rb.queue) != [] && |old(rb.queue)[0]| > out.Length
      ensures r.TooSmall? ==> r.needed == |old(rb.queue)[0]|
      ensures !r.Ok? ==> rb.queue == old(rb.queue) && rb.View() == old(rb.View()) && out[..] == old(out[..])
      ensures r.Ok? ==>
        && r.len == |old(rb.queue)[0]| && rb.queue == old(rb.queue)[1..]
        && out[..] == old(rb.queue)[0] + old(out[..])[r.len..]
    {
      FreshHead(rb.View(), rb.pos, rb.queue);
      if tail == head {
        head := rb.head;
        if tail == head {
          return PopResult.Empty;
        }
      }
      LengthThere(rb.View(), rb.pos, rb.queue, head, tail);
      var len := rb.slots[BitAnd(tail, rb.slots.Length - 1)].n;
      if len > out.Length {
        return PopResult.TooSmall(len);
      }
      CopyOut(out, len);
      Advance(len);
      r := Ok(len);
    }

    /** Copies the values of the oldest record into the start of `out`. */
    method CopyOut(out: array<T>, len: nat)
      requires rb.Valid() && tail == rb.tail && rb.queue != [] && len == |rb.queue[0]| <= out.Length
      requires out as object != rb.slots
      modifies out
      ensures out[..] == rb.queue[0] + old(out[..])[len..]
    {
      var start := WrapAdd(tail, 1);
      var i := 0;
      while i < len
        invariant i <= len
        invariant rb.View() == old(rb.View())
        invariant forall j | 0 <= j < i :: out[j] == rb.queue[0][j]
        invariant forall j | i <= j < out.Length :: out[j] == old(out[j])
      {
        ValueThere(rb.View(), rb.pos, rb.queue, tail, i);
        out[i] := rb.slots[BitAnd(WrapAdd(start, i), rb.slots.Length - 1)].v;
        i := i + 1;
      }
    }

    /** Gives the slots of the oldest record back to the producer. */
    method Advance(len: nat)
      requires Valid() && head != tail && rb.queue != [] && len == |rb.queue[0]|
      modifies this`tail, rb`tail, rb`pos, rb`queue
      ensures Valid() && rb.queue == old(rb.queue)[1..]
    {
      AdvanceStep(rb.View(), rb.pos, rb.queue, CAdvance(head, tail, rb.queue[0]), Continue);
      tail := WrapAdd(WrapAdd(tail, 1), len);
      rb.tail := tail;
      rb.pos, rb.queue := rb.pos + 1 + len, rb.queue[1..];
    }

    /** Releases the consumer lock. */
    method Drop()
      requires Valid()
      modifies rb`consumerLocked
      ensures Valid() && !rb.consumerLocked
    {
      rb.consumerLocked := false;
    }
  }
}
