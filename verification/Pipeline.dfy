/**
 A signal-sampling session end to end: handlers that unwind and publish, the sampler thread that drains,
 resolves and buffers, and the reporter that turns the buffer and the drop counters into pprof weight. Every
 step below is one shared access of the original; the ring's own steps are those of `Ring.Next`.
 */
module Pipeline {
  import opened Ints
  import Ring
  import RS = RingSystem
  import opened Unwind
  import opened Handler
  import opened Sums
  import opened Options
  import opened Pprof
  import opened Backend
  import opened Encode

  /** The actor of the sampler thread on the ring; handlers are the others. */
  const SAMPLER: nat := 0
  const MAX_DRAIN_STACKS := 64
  const RESOLVE_ERROR := 7

  datatype Phase =
    | Unwinding
    | Locking(stack: seq<Frame>)
    | Pushing(stack: seq<Frame>)
    | Counting(reason: nat, holding: bool)
    | Leaving(holding: bool)

  datatype Sampler =
    | Sleeping
    | Draining(n: nat, traces: seq<StackTrace>)
    | Resolving(n: nat, frames: seq<Frame>, traces: seq<StackTrace>)
    | Unresolved(n: nat, traces: seq<StackTrace>)
    | Releasing(traces: seq<StackTrace>)
    | Recording(traces: seq<StackTrace>)
    | Crashed
  {
    /** Stacks that left the ring and are not in the buffer or a counter yet. */
    function InHand(): nat {
      match this
      case Draining(_, traces) => |traces|
      case Resolving(_, _, traces) => |traces| + 1
      case Unresolved(_, traces) => |traces| + 1
      case Releasing(traces) => |traces|
      case Recording(traces) => |traces|
      case _ => 0
    }
  }

  datatype Reporter =
    | Waiting
    | Swapping(report: Counts, counts: seq<nat>)
    | Adding(report: Counts, counts: seq<nat>, reason: nat)   // the first of the counts that are left is that of `reason`
  {
    ghost function InHand(): nat {
      match this
      case Waiting => 0
      case Swapping(report, counts) => Total(report) + SeqSum(counts)
      case Adding(report, counts, _) => Total(report) + SeqSum(counts)
    }
  }

  /** How a run of the handler ended: what it unwound, what the ring told it, and what became of the stack. */
  datatype Settlement = Settlement(unwound: Result<seq<Frame>>, answer: Option<Ring.Event<Frame>>, fate: Fate)

  /** A popped stack and the names it was resolved to, if it was. */
  datatype Resolution = Resolution(frames: seq<Frame>, trace: Option<StackTrace>)

  /** A report that was encoded, and its profile. */
  datatype Sent = Sent(report: Counts, profile: Profile)

  /** What happened so far. */
  datatype Past = Past(
    got: map<nat, Result<seq<Frame>>>,        // what each handler unwound
    told: map<nat, Ring.Event<Frame>>,        // the last answer of the ring to each handler
    settled: seq<Settlement>,
    resolutions: seq<Resolution>,
    turned: seq<nat>,                         // drop counts that became stacks, by reason
    sent: seq<Sent>)
  {
    function Got(a: nat): Result<seq<Frame>> {
      if a in got then got[a] else Err(NoThreadState)
    }

    function Told(a: nat): Option<Ring.Event<Frame>> {
      if a in told then Some(told[a]) else None
    }

    /** The ring told handler `a` something. */
    function Hears(a: nat, e: Ring.Event<Frame>): Past {
      if e.Silent? then this else this.(told := told[a := e])
    }

    /** What became of the stack of `a`. */
    function Settles(a: nat, fate: Fate): Past {
      this.(settled := settled + [Settlement(Got(a), Told(a), fate)])
    }
  }

  datatype Session = Session(
    ring: RS.System<Frame>,
    handlers: map<nat, Phase>,
    limbo: set<nat>,        // handlers whose stack is settled but which have not returned
    completed: nat,         // handler runs that have returned
    counters: seq<nat>,
    sampler: Sampler,
    buffer: Counts,
    reporter: Reporter,
    weight: int,            // summed over every emitted sample
    pid: nat,
    tags: seq<Tag>,         // what the configuration adds to every trace of its own
    past: Past)

  /** The stack that stands for the stacks dropped for one reason. */
  function DroppedTrace(pid: nat, tags: seq<Tag>, reason: nat): StackTrace
    requires reason < 8
  {
    StackTrace(Some(pid), None, None, [StackFrame("[dropped: " + REASONS[reason] + "]", "", 0)], Metadata(tags))
  }

  // ---- The steps ----

  datatype Action =
    | Begin(a: nat)
    | Unwound(a: nat, r: Result<seq<Frame>>)
    | Handle(a: nat)
    | Sample(resolved: Option<StackTrace>)
    | Report(profile: Profile)

  function Handled(s: Session, a: nat, ring: RS.System<Frame>, phase: Phase): Session {
    s.(ring := ring, handlers := s.handlers[a := phase])
  }

  /** The push of handler `a` got the answer `e`. */
  function Pushed(s: Session, a: nat, stack: seq<Frame>, ring: RS.System<Frame>, e: Ring.Event<Frame>): Session {
    var next := if e.Published? then Leaving(true) else if e.Full? then Counting(BUFFER_DROPPED, true) else Pushing(stack);
    var heard := s.past.Hears(a, e);
    Handled(s, a, ring, next).(limbo := if e.Published? then s.limbo + {a} else s.limbo,
                               past := if e.Published? then heard.Settles(a, Fate.Published(e.values)) else heard)
  }

  /** The pop of the sampler got the answer `e`. */
  function PoppedTo(s: Session, n: nat, traces: seq<StackTrace>, ring: RS.System<Frame>, e: Ring.Event<Frame>): Session {
    var next := if e.Popped? then Resolving(n, e.out, traces)
                else if e.Empty? then Releasing(traces)
                else if e.TooSmall? then Crashed
                else Draining(n, traces);
    s.(ring := ring, sampler := next)
  }

  /** The next shared access of handler `a` after its stack was unwound. */
  function HandleStep(s: Session, a: nat): (t: Session)
    requires |s.ring.shared.slots| > 0 && a in s.handlers
    ensures |t.ring.shared.slots| == |s.ring.shared.slots|
  {
    match s.handlers[a]
    case Unwinding => s
    case Locking(stack) =>
      var e := s.ring.EventOf(a, Ring.LockProducer);
      if e.ProducerRefused? then Handled(s, a, s.ring, Counting(CONTENTIONS, false)).(past := s.past.Hears(a, e))
      else Handled(s, a, s.ring.Step(a, Ring.LockProducer), Pushing(stack))
    case Pushing(stack) =>
      var cmd := if s.ring.Actor(a).PReady? then Ring.Push(stack) else Ring.Continue;
      Pushed(s, a, stack, s.ring.Step(a, cmd), s.ring.EventOf(a, cmd))
    case Counting(reason, holding) =>
      if reason >= |s.counters| then s
      else Handled(s, a, s.ring, Leaving(holding)).(counters := s.counters[reason := s.counters[reason] + 1],
                                                    limbo := s.limbo + {a}, past := s.past.Settles(a, Dropped(reason)))
    case Leaving(holding) =>
      var ring := if holding then s.ring.Step(a, Ring.Drop) else s.ring;
      s.(ring := ring, handlers := s.handlers - {a}, limbo := s.limbo - {a}, completed := s.completed + 1)
  }

  function SampleStep(s: Session, resolved: Option<StackTrace>): (t: Session)
    requires |s.ring.shared.slots| > 0
    ensures |t.ring.shared.slots| == |s.ring.shared.slots|
  {
    match s.sampler
    case Sleeping =>
      if s.ring.EventOf(SAMPLER, Ring.LockConsumer).ConsumerRefused? then s.(sampler := Recording([]))
      else s.(ring := s.ring.Step(SAMPLER, Ring.LockConsumer), sampler := Draining(0, []))
    case Draining(n, traces) =>
      if n == MAX_DRAIN_STACKS then s.(sampler := Releasing(traces))
      else
        var cmd := if s.ring.Actor(SAMPLER).CReady? then Ring.Pop(MAX_FRAMES) else Ring.Continue;
        PoppedTo(s, n, traces, s.ring.Step(SAMPLER, cmd), s.ring.EventOf(SAMPLER, cmd))
    case Resolving(n, frames, traces) =>
      var next := if resolved.Some? then Draining(n + 1, traces + [resolved.value]) else Unresolved(n, traces);
      s.(sampler := next, past := s.past.(resolutions := s.past.resolutions + [Resolution(frames, resolved)]))
    case Unresolved(n, traces) =>
      if RESOLVE_ERROR >= |s.counters| then s
      else s.(counters := s.counters[RESOLVE_ERROR := s.counters[RESOLVE_ERROR] + 1], sampler := Draining(n + 1, traces))
    case Releasing(traces) =>
      s.(ring := s.ring.Step(SAMPLER, Ring.Drop), sampler := Recording(traces))
    case Recording(traces) =>
      if traces == [] then s.(sampler := Sleeping)
      else s.(buffer := Recorded(s.buffer, traces[0], 1), sampler := Recording(traces[1..]))
    case Crashed => s
  }

  /** Sample values of the profile, summed. */
  ghost function ProfileWeight(p: Profile): int {
    var rows := DecodeSamples(TablesOf(p), p.samples);
    if rows.None? then 0 else RowSum(rows.value)
  }

  /**
   The reporter takes the buffer while the sampler does not hold its lock, swaps the counters with zero one by
   one, adds one weighted stack for each reason that has a count, and encodes what it has.
   */
  ghost function ReportStep(s: Session, profile: Profile, period: nat): Session {
    match s.reporter
    case Waiting => TakeStep(s)
    case Swapping(report, counts) => SwapStep(s, report, counts)
    case Adding(report, counts, reason) =>
      if counts != [] then AddStep(s, report, counts, reason) else EmitStep(s, report, profile, period)
  }

  /** Takes the buffer, unless the sampler has its lock. */
  function TakeStep(s: Session): Session {
    if s.sampler.Recording? then s else s.(buffer := map[], reporter := Swapping(s.buffer, []))
  }

  /** Swaps the next counter with zero. */
  function SwapStep(s: Session, report: Counts, counts: seq<nat>): Session {
    if |counts| >= |s.counters| then s.(reporter := Adding(report, counts, 0))
    else s.(counters := s.counters[|counts| := 0], reporter := Swapping(report, counts + [s.counters[|counts|]]))
  }

  /** Adds one weighted stack for a reason that has a count. */
  function AddStep(s: Session, report: Counts, counts: seq<nat>, reason: nat): Session
    requires counts != []
  {
    if reason >= 8 || reason >= |s.past.turned| then s
    else
      var more := if counts[0] == 0 then report else Recorded(report, DroppedTrace(s.pid, s.tags, reason), counts[0]);
      s.(reporter := Adding(more, counts[1..], reason + 1),
         past := s.past.(turned := s.past.turned[reason := s.past.turned[reason] + counts[0]]))
  }

  /** Emits a report that is not empty, once its profile is there. */
  ghost function EmitStep(s: Session, report: Counts, profile: Profile, period: nat): Session {
    if report == map[] then s.(reporter := Waiting)
    else if Encodes(profile, ItemsOf(report), period) && Total(report) * period <= I64_MAX then
      s.(reporter := Waiting, weight := s.weight + ProfileWeight(profile), past := s.past.(sent := s.past.sent + [Sent(report, profile)]))
    else s
  }

  ghost function Do(s: Session, action: Action, period: nat): (t: Session)
    requires |s.ring.shared.slots| > 0
    ensures |t.ring.shared.slots| == |s.ring.shared.slots|
  {
    match action
    case Begin(a) =>
      if a == SAMPLER || a in s.handlers then s
      else s.(handlers := s.handlers[a := Unwinding], past := s.past.(got := s.past.got - {a}, told := s.past.told - {a}))
    case Unwound(a, r) =>
      if a !in s.handlers || s.handlers[a] != Unwinding then s
      else if r.Err? then s.(handlers := s.handlers[a := Counting(ReasonOf(r.error), false)], past := s.past.(got := s.past.got[a := r]))
      else if |r.value| > MAX_FRAMES then s
      else s.(handlers := s.handlers[a := Locking(r.value)], past := s.past.(got := s.past.got[a := r]))
    case Handle(a) => if a !in s.handlers then s else HandleStep(s, a)
    case Sample(resolved) => SampleStep(s, resolved)
    case Report(profile) => ReportStep(s, profile, period)
  }

  ghost function Run(s: Session, actions: seq<Action>, period: nat): Session
    requires |s.ring.shared.slots| > 0
    ensures |Run(s, actions, period).ring.shared.slots| > 0
    decreases |actions|
  {
    if actions == [] then s
    else Do(Run(s, actions[..|actions| - 1], period), actions[|actions| - 1], period)
  }

  // ---- What every step keeps ----

  ghost predicate ActorOk(l: Ring.Local<Frame>, phase: Phase) {
    match phase
    case Unwinding => l.Idle?
    case Locking(stack) => l.Idle? && |stack| <= MAX_FRAMES
    case Pushing(stack) =>
      && l.Producing() && |stack| <= MAX_FRAMES
      && (l.PReload? || l.PWrite? || l.PPublish? ==> l.values == stack)
    case Counting(reason, holding) => reason < 8 && if holding then l.PReady? else l.Idle?
    case Leaving(holding) => if holding then l.PReady? else l.Idle?
  }

  ghost predicate SamplerOk(l: Ring.Local<Frame>, sampler: Sampler) {
    match sampler
    case Draining(n, _) =>
      n <= MAX_DRAIN_STACKS && (if n == MAX_DRAIN_STACKS then l.CReady? else l.Consuming()) && (l.CReload? || l.CLen? ==> l.room == MAX_FRAMES)
    case Resolving(n, _, _) => n < MAX_DRAIN_STACKS && l.CReady?
    case Unresolved(n, _) => n < MAX_DRAIN_STACKS && l.CReady?
    case Releasing(_) => l.CReady?
    case Crashed => false
    case _ => l.Idle?
  }

  ghost predicate Bounded(records: seq<seq<Frame>>) {
    forall r | r in records :: |r| <= MAX_FRAMES
  }

  predicate Sees(ring: RS.System<Frame>) {
    true
  }

  /** The ring's own invariant, closed: only `RingMove` looks into it. */
  ghost predicate RingOk(ring: RS.System<Frame>, start: nat) {
    && |ring.popped| <= |ring.published| && |ring.shared.slots| > 0
    && forall r {:trigger Sees(r)} | r == ring && Sees(r) :: RS.Inv(r, start)
  }

  /** Each handler is where its actor is, and those whose stack is settled are the ones about to leave. */
  ghost predicate HandlersOk(ring: RS.System<Frame>, handlers: map<nat, Phase>, limbo: set<nat>) {
    && SAMPLER !in handlers
    && (forall a | a in handlers :: ActorOk(ring.Actor(a), handlers[a]))
    && (forall a | a !in handlers && a != SAMPLER :: ring.Actor(a).Idle?)
    && (forall a | a in limbo :: a in handlers && handlers[a].Leaving?)
    && (forall a | a in handlers :: handlers[a].Leaving? ==> a in limbo)
  }

  ghost predicate ReporterOk(reporter: Reporter, turned: seq<nat>) {
    && (reporter.Swapping? ==> |reporter.counts| <= 8)
    && (reporter.Adding? ==> reporter.reason + |reporter.counts| == 8)
    && |turned| == 8
  }

  ghost predicate Shape(s: Session, start: nat) {
    && RingOk(s.ring, start) && Bounded(s.ring.Pending())
    && HandlersOk(s.ring, s.handlers, s.limbo)
    && SamplerOk(s.ring.Actor(SAMPLER), s.sampler)
    && |s.counters| == 8 && ReporterOk(s.reporter, s.past.turned)
  }

  /** Stacks that are neither lost nor emitted yet: in the ring, in hand, buffered, or counted. */
  ghost function InFlight(s: Session): nat
    requires |s.ring.popped| <= |s.ring.published|
  {
    |s.ring.Pending()| + s.sampler.InHand() + Total(s.buffer) + SeqSum(s.counters) + s.reporter.InHand()
  }

  /** Stacks that were there at the start or that a handler has settled since. */
  ghost function Settled(s: Session, base: nat): nat {
    base + s.completed + |s.limbo|
  }

  ghost predicate Balance(s: Session, base: nat, period: nat)
    requires |s.ring.popped| <= |s.ring.published|
  {
    InFlight(s) <= Settled(s, base) && s.weight == (Settled(s, base) - InFlight(s)) * period
  }

  ghost predicate Initial(s: Session, start: nat, base: nat) {
    && RS.Inv(s.ring, start) && (forall a :: s.ring.Actor(a).Idle?)
    && Bounded(s.ring.Pending()) && |s.ring.Pending()| == base
    && s.handlers == map[] && s.limbo == {} && s.completed == 0
    && s.counters == seq(8, _ => 0) && s.sampler == Sleeping && s.buffer == map[] && s.reporter == Waiting && s.weight == 0
    && s.past == Past(map[], map[], [], [], seq(8, _ => 0), [])
  }

  // ---- Ring steps taken by this session ----

  lemma {:induction false} RingMove(ring: RS.System<Frame>, start: nat, a: nat, cmd: Ring.Command<Frame>)
    requires RingOk(ring, start)
    ensures var next := ring.Step(a, cmd); var e := ring.EventOf(a, cmd);
      && RingOk(next, start)
      && next.Actor(a) == Ring.Next(ring.shared, ring.Actor(a), cmd).local
      && (forall b | b != a :: next.Actor(b) == ring.Actor(b))
      && !e.Panic? && Answered(ring, next, e)
  {
    assert Sees(ring);
    RS.StepKeepsInv(ring, start, a, cmd);
    RS.AnswerIsTrue(ring, start, a, cmd);
    assert ring.Step(a, cmd).Pending() == RS.QueueAfter(ring.Pending(), ring.EventOf(a, cmd));
  }

  /** Producers never pop, consumers never publish, and each keeps to the program of its kind. */
  lemma PushMove(s: Ring.Shared<Frame>, l: Ring.Local<Frame>, stack: seq<Frame>)
    requires |s.slots| > 0 && ActorOk(l, Pushing(stack))
    ensures var cmd := if l.PReady? then Ring.Push(stack) else Ring.Continue; var o := Ring.Next(s, l, cmd);
      && !o.event.Popped?
      && (o.event.Published? ==> o.event.values == stack && o.local.PReady?)
      && (o.event.Full? ==> o.local.PReady?)
      && ActorOk(o.local, Pushing(stack))
  {
  }

  lemma PopMove(s: Ring.Shared<Frame>, l: Ring.Local<Frame>, n: nat, traces: seq<StackTrace>)
    requires |s.slots| > 0 && SamplerOk(l, Draining(n, traces)) && n < MAX_DRAIN_STACKS
    ensures var cmd := if l.CReady? then Ring.Pop(MAX_FRAMES) else Ring.Continue; var o := Ring.Next(s, l, cmd);
      && !o.event.Published?
      && (o.event.Popped? || o.event.Empty? ==> o.local.CReady?)
      && (o.event.TooSmall? ==> o.event.room == MAX_FRAMES)
      && SamplerOk(o.local, Draining(n, traces))
  {
  }

  // ---- Handlers ----

  /** Handler `a` moved to `phase`, on a ring where only its own actor moved. */
  lemma {:induction false} HandlerMoved(s: Session, start: nat, a: nat, ring: RS.System<Frame>, t: Session)
    requires Shape(s, start) && a != SAMPLER && RingOk(ring, start) && Bounded(ring.Pending())
    requires forall b | b != a :: ring.Actor(b) == s.ring.Actor(b)
    requires t.ring == ring && |t.counters| == 8 && t.past.turned == s.past.turned && t.sampler == s.sampler && t.reporter == s.reporter
    requires forall b | b != a :: (b in t.handlers <==> b in s.handlers) && (b in s.handlers ==> t.handlers[b] == s.handlers[b])
    requires if a in t.handlers then ActorOk(ring.Actor(a), t.handlers[a]) && (a in t.limbo <==> t.handlers[a].Leaving?)
             else ring.Actor(a).Idle? && a !in t.limbo
    requires forall b | b != a :: b in t.limbo <==> b in s.limbo
    ensures Shape(t, start)
  {
  }

  /** Nothing was lost, made up, or emitted between `s` and `t`. */
  ghost predicate Conserves(s: Session, t: Session)
    requires |s.ring.popped| <= |s.ring.published|
  {
    && |t.ring.popped| <= |t.ring.published|
    && t.weight == s.weight && InFlight(t) + Settled(s, 0) == InFlight(s) + Settled(t, 0)
  }

  lemma {:induction false} BeginKeeps(s: Session, start: nat, period: nat, a: nat)
    requires Shape(s, start)
    ensures var t := Do(s, Begin(a), period); Shape(t, start) && Conserves(s, t)
  {
    var t := Do(s, Begin(a), period);
    if t != s {
      assert a !in s.limbo;
      HandlerMoved(s, start, a, s.ring, t);
    }
  }

  lemma {:induction false} UnwoundKeeps(s: Session, start: nat, period: nat, a: nat, r: Result<seq<Frame>>)
    requires Shape(s, start)
    ensures var t := Do(s, Unwound(a, r), period); Shape(t, start) && Conserves(s, t)
  {
    var t := Do(s, Unwound(a, r), period);
    if t != s {
      HandlerMoved(s, start, a, s.ring, t);
    }
  }

  lemma {:induction false} LockKeeps(s: Session, start: nat, a: nat)
    requires Shape(s, start) && a in s.handlers && s.handlers[a].Locking?
    ensures var t := HandleStep(s, a); Shape(t, start) && Conserves(s, t)
  {
    RingMove(s.ring, start, a, Ring.LockProducer);
    var t := HandleStep(s, a);
    HandlerMoved(s, start, a, t.ring, t);
  }

  /** What an answer of the ring says about its records. */
  ghost predicate Answered(ring: RS.System<Frame>, next: RS.System<Frame>, e: Ring.Event<Frame>)
    requires |ring.popped| <= |ring.published|
  {
    && |next.popped| <= |next.published|
    && (if e.Published? then next.Pending() == ring.Pending() + [e.values]
        else if e.Popped? then ring.Pending() == [e.out] + next.Pending()
        else next.Pending() == ring.Pending())
    && (e.TooSmall? ==> ring.Pending() != [] && |ring.Pending()[0]| == e.needed > e.room)
  }

  lemma {:induction false} PushedKeeps(s: Session, start: nat, a: nat, stack: seq<Frame>, ring: RS.System<Frame>, e: Ring.Event<Frame>)
    requires Shape(s, start) && a in s.handlers && s.handlers[a] == Pushing(stack)
    requires RingOk(ring, start) && Answered(s.ring, ring, e) && forall b | b != a :: ring.Actor(b) == s.ring.Actor(b)
    requires !e.Popped? && (e.Published? ==> e.values == stack)
    requires ActorOk(ring.Actor(a), Pushing(stack)) && (e.Published? || e.Full? ==> ring.Actor(a).PReady?)
    ensures var t := Pushed(s, a, stack, ring, e); Shape(t, start) && Conserves(s, t)
  {
    var t := Pushed(s, a, stack, ring, e);
    HandlerMoved(s, start, a, ring, t);
  }

  lemma {:induction false} PushKeeps(s: Session, start: nat, a: nat)
    requires Shape(s, start) && a in s.handlers && s.handlers[a].Pushing?
    ensures var t := HandleStep(s, a); Shape(t, start) && Conserves(s, t)
  {
    var stack := s.handlers[a].stack;
    var cmd := if s.ring.Actor(a).PReady? then Ring.Push(stack) else Ring.Continue;
    RingMove(s.ring, start, a, cmd);
    PushMove(s.ring.shared, s.ring.Actor(a), stack);
    PushedKeeps(s, start, a, stack, s.ring.Step(a, cmd), s.ring.EventOf(a, cmd));
  }

  lemma {:induction false} CountKeeps(s: Session, start: nat, a: nat)
    requires Shape(s, start) && a in s.handlers && s.handlers[a].Counting?
    ensures var t := HandleStep(s, a); Shape(t, start) && Conserves(s, t)
  {
    var t := HandleStep(s, a);
    var reason := s.handlers[a].reason;
    assert SeqSum(t.counters) == SeqSum(s.counters) + 1 by {
      SeqSumOfUpdate(s.counters, reason, s.counters[reason] + 1);
    }
    assert a !in s.limbo && |t.limbo| == |s.limbo| + 1;
    HandlerMoved(s, start, a, t.ring, t);
  }

  lemma {:induction false} LeaveKeeps(s: Session, start: nat, a: nat)
    requires Shape(s, start) && a in s.handlers && s.handlers[a].Leaving?
    ensures var t := HandleStep(s, a); Shape(t, start) && Conserves(s, t)
  {
    RingMove(s.ring, start, a, Ring.Drop);
    var t := HandleStep(s, a);
    assert |s.limbo| == |s.limbo - {a}| + 1;
    HandlerMoved(s, start, a, t.ring, t);
  }

  // ---- The sampler ----

  lemma {:induction false} SamplerMoved(s: Session, start: nat, t: Session)
    requires Shape(s, start) && RingOk(t.ring, start) && Bounded(t.ring.Pending())
    requires forall b | b != SAMPLER :: t.ring.Actor(b) == s.ring.Actor(b)
    requires SamplerOk(t.ring.Actor(SAMPLER), t.sampler)
    requires t.handlers == s.handlers && t.limbo == s.limbo && |t.counters| == 8 && t.past.turned == s.past.turned && t.reporter == s.reporter
    ensures Shape(t, start)
  {
  }

  lemma {:induction false} PoppedKeeps(s: Session, start: nat, ring: RS.System<Frame>, e: Ring.Event<Frame>)
    requires Shape(s, start) && s.sampler.Draining? && s.sampler.n < MAX_DRAIN_STACKS
    requires RingOk(ring, start) && Answered(s.ring, ring, e) && forall b | b != SAMPLER :: ring.Actor(b) == s.ring.Actor(b)
    requires !e.Published? && (e.TooSmall? ==> e.room == MAX_FRAMES)
    requires SamplerOk(ring.Actor(SAMPLER), s.sampler) && (e.Popped? || e.Empty? ==> ring.Actor(SAMPLER).CReady?)
    ensures var t := PoppedTo(s, s.sampler.n, s.sampler.traces, ring, e); Shape(t, start) && Conserves(s, t)
  {
    assert forall r | r in ring.Pending() :: r in s.ring.Pending();
    assert s.ring.Pending() != [] ==> s.ring.Pending()[0] in s.ring.Pending();
    SamplerMoved(s, start, PoppedTo(s, s.sampler.n, s.sampler.traces, ring, e));
  }

  lemma {:induction false} DrainKeeps(s: Session, start: nat, resolved: Option<StackTrace>)
    requires Shape(s, start) && s.sampler.Draining?
    ensures var t := SampleStep(s, resolved); Shape(t, start) && Conserves(s, t)
  {
    if s.sampler.n == MAX_DRAIN_STACKS {
      SamplerMoved(s, start, SampleStep(s, resolved));
    } else {
      var cmd := if s.ring.Actor(SAMPLER).CReady? then Ring.Pop(MAX_FRAMES) else Ring.Continue;
      RingMove(s.ring, start, SAMPLER, cmd);
      PopMove(s.ring.shared, s.ring.Actor(SAMPLER), s.sampler.n, s.sampler.traces);
      PoppedKeeps(s, start, s.ring.Step(SAMPLER, cmd), s.ring.EventOf(SAMPLER, cmd));
    }
  }

  lemma {:induction false} CursorKeeps(s: Session, start: nat, resolved: Option<StackTrace>)
    requires Shape(s, start) && (s.sampler.Sleeping? || s.sampler.Releasing?)
    ensures var t := SampleStep(s, resolved); Shape(t, start) && Conserves(s, t)
  {
    if s.sampler.Sleeping? {
      RingMove(s.ring, start, SAMPLER, Ring.LockConsumer);
    } else {
      RingMove(s.ring, start, SAMPLER, Ring.Drop);
    }
    SamplerMoved(s, start, SampleStep(s, resolved));
  }

  lemma {:induction false} ResolveKeeps(s: Session, start: nat, resolved: Option<StackTrace>)
    requires Shape(s, start) && (s.sampler.Resolving? || s.sampler.Unresolved? || s.sampler.Recording?)
    ensures var t := SampleStep(s, resolved); Shape(t, start) && Conserves(s, t)
  {
    if s.sampler.Unresolved? {
      SeqSumOfUpdate(s.counters, RESOLVE_ERROR, s.counters[RESOLVE_ERROR] + 1);
    } else if s.sampler.Recording? && s.sampler.traces != [] {
      TotalRecorded(s.buffer, s.sampler.traces[0], 1);
    }
    SamplerMoved(s, start, SampleStep(s, resolved));
  }

  // ---- The reporter ----

  lemma {:induction false} TakeKeeps(s: Session, start: nat, profile: Profile, period: nat)
    requires Shape(s, start) && !s.reporter.Adding?
    ensures var t := ReportStep(s, profile, period); Shape(t, start) && Conserves(s, t)
  {
    if s.reporter.Waiting? { TakeBufferKeeps(s, start, profile, period); } else { SwapKeeps(s, start, profile, period); }
  }

  lemma {:induction false} TakeBufferKeeps(s: Session, start: nat, profile: Profile, period: nat)
    requires Shape(s, start) && s.reporter.Waiting?
    ensures var t := ReportStep(s, profile, period); Shape(t, start) && Conserves(s, t)
  {
    assert Total(map[]) == 0 && SeqSum([]) == 0;
  }

  lemma {:induction false} SwapKeeps(s: Session, start: nat, profile: Profile, period: nat)
    requires Shape(s, start) && s.reporter.Swapping?
    ensures var t := ReportStep(s, profile, period); Shape(t, start) && Conserves(s, t)
  {
    if |s.reporter.counts| < |s.counters| {
      var i := |s.reporter.counts|;
      SeqSumOfUpdate(s.counters, i, 0);
      SeqSumOfAppend(s.reporter.counts, s.counters[i]);
    }
  }

  lemma {:induction false} AddKeeps(s: Session, start: nat, profile: Profile, period: nat)
    requires Shape(s, start) && s.reporter.Adding? && (s.reporter.counts != [] || s.reporter.report == map[])
    ensures var t := ReportStep(s, profile, period); Shape(t, start) && Conserves(s, t)
  {
    if s.reporter.counts != [] {
      TotalRecorded(s.reporter.report, DroppedTrace(s.pid, s.tags, s.reporter.reason), s.reporter.counts[0]);
    }
  }

  lemma EmitShape(s: Session, start: nat, profile: Profile, period: nat)
    requires Shape(s, start) && s.reporter.Adding?
    ensures Shape(ReportStep(s, profile, period), start)
  {
  }

  lemma {:induction false} EmitAmount(s: Session, base: nat, profile: Profile, period: nat)
    requires |s.ring.popped| <= |s.ring.published|
    requires s.reporter.Adding? && s.reporter.counts == [] && s.reporter.report != map[]
    ensures var t := ReportStep(s, profile, period); var n := Total(s.reporter.report);
      t == s || (t.weight == s.weight + n * period && InFlight(t) + n == InFlight(s) && Settled(t, base) == Settled(s, base))
  {
    if ReportStep(s, profile, period) != s {
      WeightIsConserved(profile, s.reporter.report, period);
    }
  }

  /** Emitting a report turns its samples into weight at the rate of one period each. */
  lemma {:induction false} EmitKeeps(s: Session, start: nat, base: nat, profile: Profile, period: nat)
    requires Shape(s, start) && Balance(s, base, period)
    requires s.reporter.Adding? && s.reporter.counts == [] && s.reporter.report != map[]
    ensures var t := ReportStep(s, profile, period); Shape(t, start) && Balance(t, base, period)
  {
    EmitShape(s, start, profile, period);
    EmitAmount(s, base, profile, period);
    MoreWeight(Settled(s, base) - InFlight(s), Total(s.reporter.report), period);
  }

  lemma MoreWeight(x: int, n: nat, period: nat)
    ensures (x + n) * period == x * period + n * period
  {
  }

  // ---- Every run ----

  lemma ConservingBalances(s: Session, t: Session, base: nat, period: nat)
    requires |s.ring.popped| <= |s.ring.published| && Conserves(s, t) && Balance(s, base, period)
    ensures Balance(t, base, period)
  {
    assert Settled(t, base) - InFlight(t) == Settled(s, base) - InFlight(s);
  }

  lemma {:induction false} HandleKeeps(s: Session, start: nat, a: nat)
    requires Shape(s, start) && a in s.handlers
    ensures var t := HandleStep(s, a); Shape(t, start) && Conserves(s, t)
  {
    match s.handlers[a]
    case Unwinding =>
    case Locking(_) => LockKeeps(s, start, a);
    case Pushing(_) => PushKeeps(s, start, a);
    case Counting(_, _) => CountKeeps(s, start, a);
    case Leaving(_) => LeaveKeeps(s, start, a);
  }

  lemma {:induction false} SampleKeeps(s: Session, start: nat, resolved: Option<StackTrace>)
    requires Shape(s, start)
    ensures var t := SampleStep(s, resolved); Shape(t, start) && Conserves(s, t)
  {
    match s.sampler
    case Draining(_, _) => DrainKeeps(s, start, resolved);
    case Sleeping => CursorKeeps(s, start, resolved);
    case Releasing(_) => CursorKeeps(s, start, resolved);
    case _ => ResolveKeeps(s, start, resolved);
  }

  lemma {:induction false} StepKeeps(s: Session, start: nat, base: nat, period: nat, action: Action)
    requires Shape(s, start) && Balance(s, base, period)
    ensures var t := Do(s, action, period); Shape(t, start) && Balance(t, base, period)
  {
    var t := Do(s, action, period);
    match action {
      case Begin(a) =>
        BeginKeeps(s, start, period, a);
        ConservingBalances(s, t, base, period);
      case Unwound(a, r) =>
        UnwoundKeeps(s, start, period, a, r);
        ConservingBalances(s, t, base, period);
      case Handle(a) =>
        if a in s.handlers {
          HandleKeeps(s, start, a);
          ConservingBalances(s, t, base, period);
        }
      case Sample(resolved) =>
        SampleKeeps(s, start, resolved);
        ConservingBalances(s, t, base, period);
      case Report(profile) =>
        ReportKeeps(s, start, base, profile, period);
    }
  }

  lemma {:induction false} ReportKeeps(s: Session, start: nat, base: nat, profile: Profile, period: nat)
    requires Shape(s, start) && Balance(s, base, period)
    ensures var t := ReportStep(s, profile, period); Shape(t, start) && Balance(t, base, period)
  {
    var t := ReportStep(s, profile, period);
    if !s.reporter.Adding? {
      TakeKeeps(s, start, profile, period);
      ConservingBalances(s, t, base, period);
    } else if s.reporter.counts != [] || s.reporter.report == map[] {
      AddKeeps(s, start, profile, period);
      ConservingBalances(s, t, base, period);
    } else {
      EmitKeeps(s, start, base, profile, period);
    }
  }

  lemma {:induction false} StartIsFine(s: Session, start: nat, base: nat, period: nat)
    requires Initial(s, start, base)
    ensures Shape(s, start) && Balance(s, base, period)
  {
    SeqSumOfZeros(8);
    assert s.counters == seq(8, _ => 0);
  }

  lemma {:induction false} RunKeeps(s: Session, start: nat, base: nat, period: nat, actions: seq<Action>)
    requires Initial(s, start, base)
    ensures var t := Run(s, actions, period); Shape(t, start) && Balance(t, base, period)
    decreases |actions|
  {
    if actions == [] {
      StartIsFine(s, start, base, period);
    } else {
      RunKeeps(s, start, base, period, actions[..|actions| - 1]);
      StepKeeps(Run(s, actions[..|actions| - 1], period), start, base, period, actions[|actions| - 1]);
    }
  }

  /**
   No sample is lost or counted twice, at any moment of any interleaving: what the handlers settled, plus the
   records found at the start, is what is still in flight plus the emitted weight divided by the period. A
   handler that is under way has settled its stack or not; one that has returned has. The sampler never meets
   a record that does not fit its buffer.
   */
  lemma {:induction false} SamplesAreConserved(s: Session, start: nat, base: nat, period: nat, actions: seq<Action>, t: Session)
    requires Initial(s, start, base) && t == Run(s, actions, period)
    ensures |t.ring.popped| <= |t.ring.published|
    ensures t.weight == (base + t.completed + |t.limbo| - InFlight(t)) * period
    ensures t.limbo <= t.handlers.Keys && t.sampler != Crashed
  {
    RunShape(s, start, base, period, actions);
    RunBalances(s, start, base, period, actions);
    WeightIs(t, base, period);
  }

  lemma {:induction false} RunShape(s: Session, start: nat, base: nat, period: nat, actions: seq<Action>)
    requires Initial(s, start, base)
    ensures var t := Run(s, actions, period);
      |t.ring.popped| <= |t.ring.published| && t.limbo <= t.handlers.Keys && t.sampler != Crashed
  {
    RunKeeps(s, start, base, period, actions);
  }

  lemma {:induction false} RunBalances(s: Session, start: nat, base: nat, period: nat, actions: seq<Action>)
    requires Initial(s, start, base)
    ensures Balanced(Run(s, actions, period), base, period)
  {
    RunKeeps(s, start, base, period, actions);
  }

  predicate Watch(s: Session) {
    true
  }

  /** The balance, closed. */
  ghost predicate Balanced(s: Session, base: nat, period: nat) {
    forall t {:trigger Watch(t)} | t == s && Watch(t) :: |t.ring.popped| <= |t.ring.published| && Balance(t, base, period)
  }

  lemma WeightIs(s: Session, base: nat, period: nat)
    requires Balanced(s, base, period)
    ensures |s.ring.popped| <= |s.ring.published|
    ensures s.weight == (base + s.completed + |s.limbo| - InFlight(s)) * period
  {
    assert Watch(s);
  }
}
