/** The body of the `SIGPROF` handler: unwind, then publish the stack, and count the stack if either fails. */
module Handler {
  import opened Ring
  import opened RingObject
  import opened Unwind
  import opened Sums

  /** An unwind error is counted under its own reason; a success is not counted. */
  method UnwindThread(p: Process, tstate: nat, frames: array<Frame>, metrics: Metrics) returns (r: Result<nat>)
    modifies frames, metrics
    ensures r.Ok? <==> tstate != 0 && exists nodes :: p.Completes(tstate, nodes, frames.Length)
    ensures r.Ok? ==> r.value <= frames.Length && metrics.Counts() == old(metrics.Counts())
    ensures r.Ok? ==> forall nodes | p.Completes(tstate, nodes, frames.Length) :: frames[..r.value] == p.Kept(nodes)
    ensures r.Err? ==> exists nodes, last :: p.Fails(tstate, nodes, last, frames.Length, r.error)
    ensures r.Err? ==> metrics.Counts() == old(metrics.Counts()[ReasonOf(r.error) := metrics.Counts()[ReasonOf(r.error)] + 1])
  {
    if tstate == 0 {
      r := Err(NoThreadState);
      assert p.Fails(tstate, [], 0, frames.Length, NoThreadState);
    } else {
      r := Walk(p, tstate, frames);
    }
    if r.Err? {
      metrics.Count(r.error);
    }
  }

  /** How one run of the handler ends. */
  datatype Fate = Published(stack: seq<Frame>) | Dropped(reason: nat)

  const CONTENTIONS := 0
  const BUFFER_DROPPED := 1

  /** What the handler does with the stack of `tstate` on a ring that is `locked` or not and holds `used` slots of `n`. */
  ghost predicate Settles(p: Process, tstate: nat, locked: bool, used: nat, n: nat, fate: Fate) {
    if tstate != 0 && exists nodes :: p.Completes(tstate, nodes, MAX_FRAMES) then
      exists nodes :: p.Completes(tstate, nodes, MAX_FRAMES)
        && fate == if locked then Dropped(CONTENTIONS)
                   else if used + 1 + |p.Kept(nodes)| > n then Dropped(BUFFER_DROPPED)
                   else Fate.Published(p.Kept(nodes))
    else
      exists nodes, last, e :: p.Fails(tstate, nodes, last, MAX_FRAMES, e) && fate == Dropped(ReasonOf(e))
  }

  /** A stack has one fate: the chain, the lock and the free slots decide it. */
  lemma {:induction false} OneFate(p: Process, tstate: nat, locked: bool, used: nat, n: nat, a: Fate, b: Fate)
    requires Settles(p, tstate, locked, used, n, a) && Settles(p, tstate, locked, used, n, b)
    ensures a == b
  {
    if tstate != 0 && exists nodes :: p.Completes(tstate, nodes, MAX_FRAMES) {
      forall x, y | p.Completes(tstate, x, MAX_FRAMES) && p.Completes(tstate, y, MAX_FRAMES)
        ensures x == y
      {
        p.CompletesOnce(tstate, x, y, MAX_FRAMES);
      }
    } else {
      var x, lx, ex :| p.Fails(tstate, x, lx, MAX_FRAMES, ex) && a == Dropped(ReasonOf(ex));
      var y, ly, ey :| p.Fails(tstate, y, ly, MAX_FRAMES, ey) && b == Dropped(ReasonOf(ey));
      p.FailsOnce(tstate, x, lx, ex, y, ly, ey, MAX_FRAMES);
    }
  }

  /** Publishes a complete stack, or counts it as a contention or as dropped by a full ring. */
  method Publish(stack: seq<Frame>, rb: RingBuffer<Frame>, metrics: Metrics) returns (ghost fate: Fate)
    requires rb.Valid()
    modifies rb, rb.slots, metrics
    ensures rb.Valid() && rb.producerLocked == old(rb.producerLocked)
    ensures fate == if old(rb.producerLocked) then Dropped(CONTENTIONS)
                    else if old(Span(rb.queue)) + 1 + |stack| > rb.slots.Length then Dropped(BUFFER_DROPPED)
                    else Fate.Published(stack)
    ensures fate.Published? ==> rb.queue == old(rb.queue) + [stack] && metrics.Counts() == old(metrics.Counts())
    ensures fate.Dropped? ==> rb.queue == old(rb.queue)
    ensures fate.Dropped? ==> metrics.Counts() == old(metrics.Counts()[fate.reason := metrics.Counts()[fate.reason] + 1])
  {
    var producer := rb.TryProducer();
    if producer == null {
      metrics.contentions := metrics.contentions + 1;
      return Dropped(CONTENTIONS);
    }
    var ok := producer.PushSlice(stack);
    producer.Drop();
    if ok {
      fate := Fate.Published(stack);
    } else {
      metrics.bufferDropped := metrics.bufferDropped + 1;
      fate := Dropped(BUFFER_DROPPED);
    }
  }

  /**
   Settles the fate of one stack: either the whole stack becomes the newest record, or exactly one drop
   counter rises by one and the ring keeps its records. The producer lock is as it was.
   */
  method RunHandler(p: Process, tstate: nat, rb: RingBuffer<Frame>, metrics: Metrics) returns (ghost fate: Fate)
    requires rb.Valid()
    modifies rb, rb.slots, metrics
    ensures rb.Valid() && rb.producerLocked == old(rb.producerLocked)
    ensures Settles(p, tstate, old(rb.producerLocked), old(Span(rb.queue)), rb.slots.Length, fate)
    ensures fate.Published? ==> rb.queue == old(rb.queue) + [fate.stack] && metrics.Counts() == old(metrics.Counts())
    ensures fate.Dropped? ==> rb.queue == old(rb.queue) && fate.reason < 8
    ensures fate.Dropped? ==> metrics.Counts() == old(metrics.Counts()[fate.reason := metrics.Counts()[fate.reason] + 1])
    ensures |rb.queue| + SeqSum(metrics.Counts()) == old(|rb.queue| + SeqSum(metrics.Counts())) + 1
  {
    var frames := new Frame[MAX_FRAMES](_ => Frame(0, 0));
    var r := UnwindThread(p, tstate, frames, metrics);
    if r.Err? {
      fate := Dropped(ReasonOf(r.error));
    } else {
      fate := Publish(frames[..r.value], rb, metrics);
    }
    if fate.Dropped? {
      SeqSumOfUpdate(old(metrics.Counts()), fate.reason, old(metrics.Counts())[fate.reason] + 1);
    }
  }
}
