/**
 What becomes of each single stack on its way through the pipeline, over any run: every handler run is settled as its
 walk and the ring decide, stacks leave the ring in order, each resolved trace is counted under itself, each reason
 under its own name, and nothing else is.
 */
module PipelineLaws {
  import Basics
  import Ints
  import Ring
  import RS = RingSystem
  import opened Unwind
  import opened Handler
  import opened Options
  import opened Pprof
  import opened Backend
  import opened Encode
  import opened Pipeline

  // ---- Handlers ----

  /** An error is counted under its own reason; a stack is published, or dropped for what the ring answered. */
  ghost predicate Fair(x: Settlement) {
    match x.unwound
    case Err(e) => x.fate == Dropped(ReasonOf(e))
    case Ok(stack) =>
      || (x.fate == Fate.Published(stack) && x.answer == Some(Ring.Event.Published(stack)))
      || (x.fate == Dropped(CONTENTIONS) && x.answer == Some(Ring.ProducerRefused))
      || (x.fate == Dropped(BUFFER_DROPPED) && x.answer == Some(Ring.Full(|stack|)))
  }

  /** Where handler `a` is, and what led there. */
  ghost predicate StoryOk(past: Past, a: nat, phase: Phase) {
    match phase
    case Unwinding => past.Told(a) == None
    case Locking(stack) => past.Got(a) == Ok(stack) && past.Told(a) == None
    case Pushing(stack) => past.Got(a) == Ok(stack) && past.Told(a) == None
    case Counting(reason, _) => Fair(Settlement(past.Got(a), past.Told(a), Dropped(reason)))
    case Leaving(_) => true
  }

  /** The stacks that were published, in order. */
  ghost function StacksOf(settled: seq<Settlement>): seq<seq<Frame>> {
    if settled == [] then []
    else
      var front, last := StacksOf(settled[..|settled| - 1]), settled[|settled| - 1];
      if last.fate.Published? then front + [last.fate.stack] else front
  }

  ghost predicate HandlersLaw(s: Session, published: seq<seq<Frame>>) {
    && (forall x | x in s.past.settled :: Fair(x))
    && (forall a | a in s.handlers :: StoryOk(s.past, a, s.handlers[a]))
    && s.ring.published == published + StacksOf(s.past.settled)
    && |s.past.settled| == s.completed + |s.limbo|
  }

  lemma {:induction false} Settled1(settled: seq<Settlement>, x: Settlement)
    ensures StacksOf(settled + [x]) == StacksOf(settled) + if x.fate.Published? then [x.fate.stack] else []
    ensures forall i :: DropsOf(settled + [x], i) == DropsOf(settled, i) + if x.fate == Dropped(i) then 1 else 0
  {
    assert (settled + [x])[..|settled|] == settled;
  }

  /** Handler `a` moved, and the stories of all others are as they were. */
  lemma {:induction false} StoriesStay(s: Session, t: Session, a: nat)
    requires forall b | b in s.handlers :: StoryOk(s.past, b, s.handlers[b])
    requires forall b | b != a :: (b in t.handlers <==> b in s.handlers) && (b in s.handlers ==> t.handlers[b] == s.handlers[b])
    requires forall b | b != a :: t.past.Got(b) == s.past.Got(b) && t.past.Told(b) == s.past.Told(b)
    requires a in t.handlers ==> StoryOk(t.past, a, t.handlers[a])
    ensures forall b | b in t.handlers :: StoryOk(t.past, b, t.handlers[b])
  {
    forall b | b in t.handlers
      ensures StoryOk(t.past, b, t.handlers[b])
    {
      if b != a { assert StoryOk(s.past, b, s.handlers[b]); }
    }
  }

  lemma {:induction false} BeginLaw(s: Session, start: nat, period: nat, published: seq<seq<Frame>>, a: nat)
    requires Shape(s, start) && HandlersLaw(s, published)
    ensures HandlersLaw(Do(s, Begin(a), period), published)
  {
    var t := Do(s, Begin(a), period);
    if t != s { StoriesStay(s, t, a); }
  }

  lemma {:induction false} UnwoundLaw(s: Session, start: nat, period: nat, published: seq<seq<Frame>>, a: nat, r: Result<seq<Frame>>)
    requires Shape(s, start) && HandlersLaw(s, published)
    ensures HandlersLaw(Do(s, Unwound(a, r), period), published)
  {
    var t := Do(s, Unwound(a, r), period);
    if t != s {
      assert StoryOk(s.past, a, s.handlers[a]);
      StoriesStay(s, t, a);
    }
  }

  lemma {:induction false} LockLaw(s: Session, start: nat, published: seq<seq<Frame>>, a: nat)
    requires Shape(s, start) && HandlersLaw(s, published) && a in s.handlers && s.handlers[a].Locking?
    ensures HandlersLaw(HandleStep(s, a), published)
  {
    var t := HandleStep(s, a);
    assert ActorOk(s.ring.Actor(a), s.handlers[a]) && StoryOk(s.past, a, s.handlers[a]);
    LockEvents(s.ring.shared);
    StoriesStay(s, t, a);
  }

  lemma LockEvents(s: Ring.Shared<Frame>)
    requires |s.slots| > 0
    ensures var e := Ring.Next(s, Ring.Idle, Ring.LockProducer).event; e.ProducerRefused? || e.Silent?
  {
  }

  lemma PushEvents(s: Ring.Shared<Frame>, l: Ring.Local<Frame>, stack: seq<Frame>)
    requires |s.slots| > 0 && ActorOk(l, Pushing(stack))
    ensures var e := Ring.Next(s, l, if l.PReady? then Ring.Push(stack) else Ring.Continue).event;
      e.Silent? || e.Panic? || e == Ring.Event.Published(stack) || e == Ring.Full(|stack|)
  {
  }

  lemma {:induction false} PushedLaw(s: Session, published: seq<seq<Frame>>, a: nat, stack: seq<Frame>, ring: RS.System<Frame>, e: Ring.Event<Frame>)
    requires HandlersLaw(s, published) && a in s.handlers && s.handlers[a] == Pushing(stack) && a !in s.limbo
    requires e.Silent? || e == Ring.Event.Published(stack) || e == Ring.Full(|stack|)
    requires ring.published == if e.Published? then s.ring.published + [e.values] else s.ring.published
    ensures HandlersLaw(Pushed(s, a, stack, ring, e), published)
  {
    assert StoryOk(s.past, a, s.handlers[a]);
    if e.Published? { PublishedLaw(s, published, a, stack, ring, e); }
    StoriesStay(s, Pushed(s, a, stack, ring, e), a);
  }

  lemma {:induction false} PublishedLaw(s: Session, published: seq<seq<Frame>>, a: nat, stack: seq<Frame>, ring: RS.System<Frame>, e: Ring.Event<Frame>)
    requires HandlersLaw(s, published) && s.past.Got(a) == Ok(stack) && a !in s.limbo && e == Ring.Event.Published(stack)
    requires ring.published == s.ring.published + [stack]
    ensures var t := Pushed(s, a, stack, ring, e);
      && (forall x | x in t.past.settled :: Fair(x))
      && t.ring.published == published + StacksOf(t.past.settled)
      && |t.past.settled| == t.completed + |t.limbo|
  {
    var x := Settlement(Ok(stack), Some(e), Fate.Published(stack));
    Settled1(s.past.settled, x);
    assert Pushed(s, a, stack, ring, e).past.settled == s.past.settled + [x];
  }

  lemma {:induction false} PushLaw(s: Session, start: nat, published: seq<seq<Frame>>, a: nat)
    requires Shape(s, start) && HandlersLaw(s, published) && a in s.handlers && s.handlers[a].Pushing?
    ensures HandlersLaw(HandleStep(s, a), published)
  {
    var stack := s.handlers[a].stack;
    var cmd := if s.ring.Actor(a).PReady? then Ring.Push(stack) else Ring.Continue;
    RingMove(s.ring, start, a, cmd);
    PushEvents(s.ring.shared, s.ring.Actor(a), stack);
    PushedLaw(s, published, a, stack, s.ring.Step(a, cmd), s.ring.EventOf(a, cmd));
  }

  lemma {:induction false} CountLaw(s: Session, start: nat, published: seq<seq<Frame>>, a: nat)
    requires Shape(s, start) && HandlersLaw(s, published) && a in s.handlers && s.handlers[a].Counting?
    ensures HandlersLaw(HandleStep(s, a), published)
  {
    var t := HandleStep(s, a);
    assert ActorOk(s.ring.Actor(a), s.handlers[a]) && StoryOk(s.past, a, s.handlers[a]) && a !in s.limbo;
    Settled1(s.past.settled, Settlement(s.past.Got(a), s.past.Told(a), Dropped(s.handlers[a].reason)));
    StoriesStay(s, t, a);
  }

  lemma {:induction false} LeaveLaw(s: Session, start: nat, published: seq<seq<Frame>>, a: nat)
    requires Shape(s, start) && HandlersLaw(s, published) && a in s.handlers && s.handlers[a].Leaving?
    ensures HandlersLaw(HandleStep(s, a), published)
  {
    var t := HandleStep(s, a);
    assert ActorOk(s.ring.Actor(a), s.handlers[a]);
    if s.handlers[a].holding { DropEvents(s.ring.shared, s.ring.Actor(a)); }
    assert |s.limbo| == |s.limbo - {a}| + 1;
    StoriesStay(s, t, a);
  }

  lemma DropEvents(s: Ring.Shared<Frame>, l: Ring.Local<Frame>)
    requires |s.slots| > 0 && (l.PReady? || l.CReady?)
    ensures Ring.Next(s, l, Ring.Drop).event.Silent?
  {
  }

  lemma {:induction false} HandleLaw(s: Session, start: nat, published: seq<seq<Frame>>, a: nat)
    requires Shape(s, start) && HandlersLaw(s, published) && a in s.handlers
    ensures HandlersLaw(HandleStep(s, a), published)
  {
    match s.handlers[a]
    case Unwinding =>
    case Locking(_) => LockLaw(s, start, published, a);
    case Pushing(_) => PushLaw(s, start, published, a);
    case Counting(_, _) => CountLaw(s, start, published, a);
    case Leaving(_) => LeaveLaw(s, start, published, a);
  }

  /** The sampler publishes nothing, and leaves handlers and their histories alone. */
  lemma {:induction false} SampleFrame(s: Session, start: nat, resolved: Option<StackTrace>)
    requires Shape(s, start)
    ensures var t := SampleStep(s, resolved);
      && t.ring.published == s.ring.published && t.handlers == s.handlers && t.limbo == s.limbo && t.completed == s.completed
      && t.past == s.past.(resolutions := t.past.resolutions)
  {
    if s.sampler.Draining? && s.sampler.n < MAX_DRAIN_STACKS {
      PopMove(s.ring.shared, s.ring.Actor(SAMPLER), s.sampler.n, s.sampler.traces);
    } else if s.sampler.Releasing? {
      DropEvents(s.ring.shared, s.ring.Actor(SAMPLER));
    }
  }

  lemma {:induction false} SampleLaw(s: Session, start: nat, published: seq<seq<Frame>>, resolved: Option<StackTrace>)
    requires Shape(s, start) && HandlersLaw(s, published)
    ensures HandlersLaw(SampleStep(s, resolved), published)
  {
    SampleFrame(s, start, resolved);
    SameStories(s, SampleStep(s, resolved), published);
  }

  lemma {:induction false} SameStories(s: Session, t: Session, published: seq<seq<Frame>>)
    requires HandlersLaw(s, published) && t.ring.published == s.ring.published && t.handlers == s.handlers && t.limbo == s.limbo
    requires t.completed == s.completed && t.past.got == s.past.got && t.past.told == s.past.told && t.past.settled == s.past.settled
    ensures HandlersLaw(t, published)
  {
    forall a | a in t.handlers
      ensures StoryOk(t.past, a, t.handlers[a])
    {
      assert StoryOk(s.past, a, s.handlers[a]);
    }
  }

  lemma {:induction false} ReportFrame(s: Session, profile: Profile, period: nat)
    ensures var t := ReportStep(s, profile, period);
      && t.ring == s.ring && t.handlers == s.handlers && t.limbo == s.limbo && t.completed == s.completed
      && t.sampler == s.sampler && t.pid == s.pid && t.tags == s.tags
      && t.past == s.past.(turned := t.past.turned, sent := t.past.sent)
  {
  }

  // ---- The sampler ----

  /** The stacks that were resolved or given up, in order. */
  ghost function FramesOf(resolutions: seq<Resolution>): seq<seq<Frame>> {
    if resolutions == [] then []
    else FramesOf(resolutions[..|resolutions| - 1]) + [resolutions[|resolutions| - 1].frames]
  }

  ghost function InHand(sampler: Sampler): seq<seq<Frame>> {
    if sampler.Resolving? then [sampler.frames] else []
  }

  /** What left the ring was taken up in the order in which it left. */
  ghost predicate SamplerLaw(s: Session, popped: seq<seq<Frame>>) {
    s.ring.popped == popped + FramesOf(s.past.resolutions) + InHand(s.sampler)
  }

  lemma {:induction false} Resolved1(resolutions: seq<Resolution>, r: Resolution)
    ensures FramesOf(resolutions + [r]) == FramesOf(resolutions) + [r.frames]
    ensures FailedOf(resolutions + [r]) == FailedOf(resolutions) + if r.trace.None? then 1 else 0
    ensures forall x :: Times(resolutions + [r], x) == Times(resolutions, x) + if r.trace == Some(x) then 1 else 0
  {
    assert (resolutions + [r])[..|resolutions|] == resolutions;
  }

  lemma {:induction false} SampleInOrder(s: Session, start: nat, popped: seq<seq<Frame>>, resolved: Option<StackTrace>)
    requires Shape(s, start) && SamplerLaw(s, popped)
    ensures SamplerLaw(SampleStep(s, resolved), popped)
  {
    if s.sampler.Resolving? {
      Resolved1(s.past.resolutions, Resolution(s.sampler.frames, resolved));
      Basics.Associative(popped, FramesOf(s.past.resolutions), [s.sampler.frames]);
    } else if s.sampler.Draining? && s.sampler.n < MAX_DRAIN_STACKS {
      DrainInOrder(s, start, popped, resolved);
    } else {
      OtherwiseStill(s, start, resolved);
    }
  }

  /** Outside a drain nothing is popped and nothing resolved. */
  lemma {:induction false} OtherwiseStill(s: Session, start: nat, resolved: Option<StackTrace>)
    requires Shape(s, start) && !s.sampler.Resolving? && !(s.sampler.Draining? && s.sampler.n < MAX_DRAIN_STACKS)
    ensures var t := SampleStep(s, resolved);
      t.ring.popped == s.ring.popped && t.past.resolutions == s.past.resolutions && InHand(t.sampler) == InHand(s.sampler) == []
  {
    if s.sampler.Releasing? { DropEvents(s.ring.shared, s.ring.Actor(SAMPLER)); }
  }

  lemma {:induction false} DrainInOrder(s: Session, start: nat, popped: seq<seq<Frame>>, resolved: Option<StackTrace>)
    requires Shape(s, start) && SamplerLaw(s, popped) && s.sampler.Draining? && s.sampler.n < MAX_DRAIN_STACKS
    ensures SamplerLaw(SampleStep(s, resolved), popped)
  {
    var cmd := if s.ring.Actor(SAMPLER).CReady? then Ring.Pop(MAX_FRAMES) else Ring.Continue;
    var e := s.ring.EventOf(SAMPLER, cmd);
    PopMove(s.ring.shared, s.ring.Actor(SAMPLER), s.sampler.n, s.sampler.traces);
    assert InHand(s.sampler) == [];
    if e.Popped? { assert s.ring.Step(SAMPLER, cmd).popped == popped + FramesOf(s.past.resolutions) + [e.out]; }
  }

  /** No handler pops. */
  lemma {:induction false} HandleFrame(s: Session, start: nat, a: nat)
    requires Shape(s, start) && a in s.handlers
    ensures var t := HandleStep(s, a);
      && t.ring.popped == s.ring.popped && t.sampler == s.sampler && t.buffer == s.buffer && t.reporter == s.reporter
      && t.weight == s.weight && t.pid == s.pid && t.tags == s.tags
      && t.past.resolutions == s.past.resolutions && t.past.turned == s.past.turned && t.past.sent == s.past.sent
  {
    assert ActorOk(s.ring.Actor(a), s.handlers[a]);
    if s.handlers[a].Pushing? {
      PushMove(s.ring.shared, s.ring.Actor(a), s.handlers[a].stack);
    } else if s.handlers[a].Leaving? && s.handlers[a].holding {
      DropEvents(s.ring.shared, s.ring.Actor(a));
    }
  }

  // ---- Reasons ----

  /** Runs of the handler that dropped their stack for this reason. */
  ghost function DropsOf(settled: seq<Settlement>, reason: nat): nat {
    if settled == [] then 0
    else DropsOf(settled[..|settled| - 1], reason) + if settled[|settled| - 1].fate == Dropped(reason) then 1 else 0
  }

  /** Stacks that could not be resolved. */
  ghost function FailedOf(resolutions: seq<Resolution>): nat {
    if resolutions == [] then 0
    else FailedOf(resolutions[..|resolutions| - 1]) + if resolutions[|resolutions| - 1].trace.None? then 1 else 0
  }

  /** The stack of each reason: one frame that names it, under the process id and what the configuration adds. */
  lemma DroppedByName(pid: nat, tags: seq<Tag>, reason: nat)
    requires reason < 8
    ensures var x := DroppedTrace(pid, tags, reason);
      && x.pid == Some(pid) && x.threadId.None? && x.threadName.None? && x.metadata.tags == tags
      && |x.frames| == 1 && x.frames[0].filename == "" && x.frames[0].line == 0
      && x.frames[0].name == "[dropped: " + ReasonName(reason) + "]"
  {
  }

  function ReasonName(reason: nat): string {
    match reason
    case 0 => "contentions"
    case 1 => "buffer_dropped"
    case 2 => "no_thread_state"
    case 3 => "invalid_code_type"
    case 4 => "read_errors"
    case 5 => "truncated"
    case 6 => "invalid"
    case _ => "resolve_error"
  }

  /** What the reporter has taken from the counter of this reason. */
  ghost function Taken(reporter: Reporter, reason: nat): nat {
    match reporter
    case Waiting => 0
    case Swapping(_, counts) => if reason < |counts| then counts[reason] else 0
    case Adding(_, counts, first) => if first <= reason < first + |counts| then counts[reason - first] else 0
  }

  /** Everything that was dropped for a reason is in its counter, with the reporter, or became a stack of this reason. */
  ghost predicate ReasonLaw(s: Session, reason: nat)
    requires reason < 8 && |s.counters| == 8 && |s.past.turned| == 8
  {
    DropsOf(s.past.settled, reason) + (if reason == RESOLVE_ERROR then FailedOf(s.past.resolutions) else 0)
    == s.counters[reason] + (if reason == RESOLVE_ERROR && s.sampler.Unresolved? then 1 else 0)
       + Taken(s.reporter, reason) + s.past.turned[reason]
  }

  lemma {:induction false} HandleReasons(s: Session, start: nat, a: nat, reason: nat)
    requires Shape(s, start) && a in s.handlers && reason < 8 && ReasonLaw(s, reason)
    ensures Shape(HandleStep(s, a), start) && ReasonLaw(HandleStep(s, a), reason)
  {
    HandleKeeps(s, start, a);
    HandleFrame(s, start, a);
    SettlesOnce(s, start, a, reason);
  }

  /** A handler settles its stack in the step that counts it, or that publishes it. */
  lemma {:induction false} SettlesOnce(s: Session, start: nat, a: nat, reason: nat)
    requires Shape(s, start) && a in s.handlers && reason < 8
    ensures var t := HandleStep(s, a);
      && |t.counters| == 8 && t.counters[reason] + DropsOf(s.past.settled, reason) == s.counters[reason] + DropsOf(t.past.settled, reason)
  {
    assert ActorOk(s.ring.Actor(a), s.handlers[a]);
    match s.handlers[a]
    case Pushing(stack) =>
      var cmd := if s.ring.Actor(a).PReady? then Ring.Push(stack) else Ring.Continue;
      var e := s.ring.EventOf(a, cmd);
      var heard := s.past.Hears(a, e);
      if e.Published? { Settled1(s.past.settled, Settlement(heard.Got(a), heard.Told(a), Fate.Published(e.values))); }
    case Counting(r, _) => Settled1(s.past.settled, Settlement(s.past.Got(a), s.past.Told(a), Dropped(r)));
    case _ =>
  }

  lemma {:induction false} SampleReasons(s: Session, start: nat, resolved: Option<StackTrace>, reason: nat)
    requires Shape(s, start) && reason < 8 && ReasonLaw(s, reason)
    ensures Shape(SampleStep(s, resolved), start) && ReasonLaw(SampleStep(s, resolved), reason)
  {
    SampleKeeps(s, start, resolved);
    if s.sampler.Resolving? {
      ResolveReasons(s, resolved, reason);
    } else {
      SampleFrame(s, start, resolved);
      OtherReasons(s, resolved, reason);
    }
  }

  lemma {:induction false} ResolveReasons(s: Session, resolved: Option<StackTrace>, reason: nat)
    requires |s.ring.shared.slots| > 0 && reason < 8 && |s.counters| == 8 && |s.past.turned| == 8 && ReasonLaw(s, reason) && s.sampler.Resolving?
    ensures var t := SampleStep(s, resolved); |t.counters| == 8 && |t.past.turned| == 8 && ReasonLaw(t, reason)
  {
    Resolved1(s.past.resolutions, Resolution(s.sampler.frames, resolved));
  }

  lemma {:induction false} OtherReasons(s: Session, resolved: Option<StackTrace>, reason: nat)
    requires |s.ring.shared.slots| > 0 && reason < 8 && |s.counters| == 8 && |s.past.turned| == 8 && ReasonLaw(s, reason) && !s.sampler.Resolving?
    ensures var t := SampleStep(s, resolved); |t.counters| == 8 && |t.past.turned| == 8 && ReasonLaw(t, reason)
  {
    if s.sampler.Unresolved? { UnresolvedStep(s, resolved); } else { StillCounters(s, resolved); }
  }

  lemma {:induction false} UnresolvedStep(s: Session, resolved: Option<StackTrace>)
    requires |s.ring.shared.slots| > 0 && |s.counters| == 8 && s.sampler.Unresolved?
    ensures var t := SampleStep(s, resolved);
      t.counters == s.counters[7 := s.counters[7] + 1] && t.past == s.past && t.reporter == s.reporter && !t.sampler.Unresolved?
  {
  }

  lemma {:induction false} StillCounters(s: Session, resolved: Option<StackTrace>)
    requires |s.ring.shared.slots| > 0 && !s.sampler.Unresolved? && !s.sampler.Resolving?
    ensures var t := SampleStep(s, resolved);
      t.counters == s.counters && t.past == s.past && t.reporter == s.reporter && !t.sampler.Unresolved?
  {
  }

  lemma {:induction false} ReportReasons(s: Session, start: nat, profile: Profile, period: nat, reason: nat)
    requires Shape(s, start) && reason < 8 && ReasonLaw(s, reason)
    ensures var t := ReportStep(s, profile, period); |t.counters| == 8 && |t.past.turned| == 8 && ReasonLaw(t, reason)
  {
    match s.reporter
    case Waiting => TakeReasons(s, reason);
    case Swapping(report, counts) => SwapReasons(s, report, counts, reason);
    case Adding(report, counts, first) =>
      if counts != [] { AddReasons(s, report, counts, first, reason); } else { EmitFrame(s, report, profile, period); }
  }

  lemma {:induction false} TakeReasons(s: Session, reason: nat)
    requires reason < 8 && |s.counters| == 8 && |s.past.turned| == 8 && ReasonLaw(s, reason) && s.reporter.Waiting?
    ensures var t := TakeStep(s); |t.counters| == 8 && |t.past.turned| == 8 && ReasonLaw(t, reason)
  {
  }

  lemma {:induction false} SwapReasons(s: Session, report: Counts, counts: seq<nat>, reason: nat)
    requires reason < 8 && |s.counters| == 8 && |s.past.turned| == 8 && ReasonLaw(s, reason)
    requires s.reporter == Swapping(report, counts) && |counts| <= 8
    ensures var t := SwapStep(s, report, counts); |t.counters| == 8 && |t.past.turned| == 8 && ReasonLaw(t, reason)
  {
  }

  lemma {:induction false} AddReasons(s: Session, report: Counts, counts: seq<nat>, first: nat, reason: nat)
    requires reason < 8 && |s.counters| == 8 && |s.past.turned| == 8 && ReasonLaw(s, reason)
    requires s.reporter == Adding(report, counts, first) && counts != [] && first + |counts| == 8
    ensures var t := AddStep(s, report, counts, first); |t.counters| == 8 && |t.past.turned| == 8 && ReasonLaw(t, reason)
  {
  }

  lemma {:induction false} EmitFrame(s: Session, report: Counts, profile: Profile, period: nat)
    ensures var t := EmitStep(s, report, profile, period);
      t == s || (t == s.(reporter := Waiting) && report == map[])
      || (&& t == s.(reporter := Waiting, weight := t.weight, past := t.past)
          && t.past == s.past.(sent := s.past.sent + [Sent(report, profile)]) && t.weight == s.weight + ProfileWeight(profile)
          && Encodes(profile, ItemsOf(report), period) && Total(report) * period <= Ints.I64_MAX)
  {
  }

  // ---- Traces ----

  /** How often a popped stack was resolved to `x`. */
  ghost function Times(resolutions: seq<Resolution>, x: StackTrace): nat {
    if resolutions == [] then 0
    else Times(resolutions[..|resolutions| - 1], x) + if resolutions[|resolutions| - 1].trace == Some(x) then 1 else 0
  }

  /** The drop counts of the first `n` reasons that were turned into `x`. */
  ghost function TurnedInto(pid: nat, tags: seq<Tag>, turned: seq<nat>, x: StackTrace, n: nat): nat
    requires n <= 8 && n <= |turned|
  {
    if n == 0 then 0
    else TurnedInto(pid, tags, turned, x, n - 1) + if DroppedTrace(pid, tags, n - 1) == x then turned[n - 1] else 0
  }

  ghost function TracesOf(sampler: Sampler): seq<StackTrace> {
    match sampler
    case Draining(_, traces) => traces
    case Resolving(_, _, traces) => traces
    case Unresolved(_, traces) => traces
    case Releasing(traces) => traces
    case Recording(traces) => traces
    case _ => []
  }

  ghost function InReport(reporter: Reporter, x: StackTrace): nat {
    match reporter
    case Waiting => 0
    case Swapping(report, _) => CountOf(report, x)
    case Adding(report, _, _) => CountOf(report, x)
  }

  ghost function InSent(sent: seq<Sent>, x: StackTrace): nat {
    if sent == [] then 0 else InSent(sent[..|sent| - 1], x) + CountOf(sent[|sent| - 1].report, x)
  }

  /** What was resolved to `x`, or dropped under its name, is in hand, buffered, in a report, or was emitted as `x`. */
  ghost predicate TraceLaw(s: Session, x: StackTrace)
    requires |s.past.turned| == 8
  {
    Times(s.past.resolutions, x) + TurnedInto(s.pid, s.tags, s.past.turned, x, 8)
    == multiset(TracesOf(s.sampler))[x] + CountOf(s.buffer, x) + InReport(s.reporter, x) + InSent(s.past.sent, x)
  }

  lemma {:induction false} TakeFirst<T>(s: seq<T>, x: T)
    requires s != []
    ensures multiset(s)[x] == multiset(s[1..])[x] + if s[0] == x then 1 else 0
  {
    assert s == [s[0]] + s[1..];
  }

  lemma {:induction false} SampleTraces(s: Session, start: nat, resolved: Option<StackTrace>, x: StackTrace)
    requires Shape(s, start) && TraceLaw(s, x)
    ensures |SampleStep(s, resolved).past.turned| == 8 && TraceLaw(SampleStep(s, resolved), x)
  {
    if s.sampler.Resolving? {
      ResolveTraces(s, resolved, x);
    } else if s.sampler.Recording? && s.sampler.traces != [] {
      RecordTraces(s, resolved, x);
    } else {
      SampleFrame(s, start, resolved);
      NeverCrashes(s, start, resolved);
      SameTraces(s, resolved);
    }
  }

  lemma {:induction false} NeverCrashes(s: Session, start: nat, resolved: Option<StackTrace>)
    requires Shape(s, start)
    ensures SampleStep(s, resolved).sampler != Crashed && s.sampler != Crashed
  {
    SampleKeeps(s, start, resolved);
  }

  lemma {:induction false} ResolveTraces(s: Session, resolved: Option<StackTrace>, x: StackTrace)
    requires |s.ring.shared.slots| > 0 && |s.past.turned| == 8 && TraceLaw(s, x) && s.sampler.Resolving?
    ensures |SampleStep(s, resolved).past.turned| == 8 && TraceLaw(SampleStep(s, resolved), x)
  {
    Resolved1(s.past.resolutions, Resolution(s.sampler.frames, resolved));
  }

  lemma {:induction false} RecordTraces(s: Session, resolved: Option<StackTrace>, x: StackTrace)
    requires |s.ring.shared.slots| > 0 && |s.past.turned| == 8 && TraceLaw(s, x) && s.sampler.Recording? && s.sampler.traces != []
    ensures |SampleStep(s, resolved).past.turned| == 8 && TraceLaw(SampleStep(s, resolved), x)
  {
    TakeFirst(s.sampler.traces, x);
  }

  lemma {:induction false} SameTraces(s: Session, resolved: Option<StackTrace>)
    requires |s.ring.shared.slots| > 0 && !s.sampler.Resolving? && !(s.sampler.Recording? && s.sampler.traces != []) && s.sampler != Crashed
    ensures var t := SampleStep(s, resolved);
      && t.past.resolutions == s.past.resolutions && t.buffer == s.buffer && t.reporter == s.reporter && t.pid == s.pid && t.tags == s.tags
      && (t.sampler == Crashed || TracesOf(t.sampler) == TracesOf(s.sampler))
  {
  }

  lemma {:induction false} TurnedMore(pid: nat, tags: seq<Tag>, turned: seq<nat>, reason: nat, n: nat, x: StackTrace, upto: nat)
    requires upto <= 8 && reason < 8 == |turned|
    ensures TurnedInto(pid, tags, turned[reason := turned[reason] + n], x, upto)
         == TurnedInto(pid, tags, turned, x, upto) + if reason < upto && DroppedTrace(pid, tags, reason) == x then n else 0
    decreases upto
  {
    if upto > 0 { TurnedMore(pid, tags, turned, reason, n, x, upto - 1); }
  }

  lemma {:induction false} ReportTraces(s: Session, start: nat, profile: Profile, period: nat, x: StackTrace)
    requires Shape(s, start) && TraceLaw(s, x)
    ensures |ReportStep(s, profile, period).past.turned| == 8 && TraceLaw(ReportStep(s, profile, period), x)
  {
    match s.reporter
    case Waiting => TakeTraces(s, x);
    case Swapping(report, counts) => SwapTraces(s, report, counts, x);
    case Adding(report, counts, first) =>
      if counts != [] { AddTraces(s, report, counts, first, x); } else { EmitTraces(s, report, profile, period, x); }
  }

  lemma {:induction false} TakeTraces(s: Session, x: StackTrace)
    requires |s.past.turned| == 8 && TraceLaw(s, x) && s.reporter.Waiting?
    ensures |TakeStep(s).past.turned| == 8 && TraceLaw(TakeStep(s), x)
  {
  }

  lemma {:induction false} SwapTraces(s: Session, report: Counts, counts: seq<nat>, x: StackTrace)
    requires |s.past.turned| == 8 && TraceLaw(s, x) && s.reporter == Swapping(report, counts)
    ensures |SwapStep(s, report, counts).past.turned| == 8 && TraceLaw(SwapStep(s, report, counts), x)
  {
  }

  lemma {:induction false} AddTraces(s: Session, report: Counts, counts: seq<nat>, first: nat, x: StackTrace)
    requires |s.past.turned| == 8 && TraceLaw(s, x) && s.reporter == Adding(report, counts, first) && counts != [] && first < 8
    ensures |AddStep(s, report, counts, first).past.turned| == 8 && TraceLaw(AddStep(s, report, counts, first), x)
  {
    TurnedMore(s.pid, s.tags, s.past.turned, first, counts[0], x, 8);
  }

  lemma {:induction false} EmitTraces(s: Session, report: Counts, profile: Profile, period: nat, x: StackTrace)
    requires |s.past.turned| == 8 && TraceLaw(s, x) && s.reporter.Adding? && s.reporter.report == report
    ensures |EmitStep(s, report, profile, period).past.turned| == 8 && TraceLaw(EmitStep(s, report, profile, period), x)
  {
    EmitFrame(s, report, profile, period);
    SentMore(s.past.sent, Sent(report, profile), x);
  }

  lemma {:induction false} SentMore(sent: seq<Sent>, e: Sent, x: StackTrace)
    ensures InSent(sent + [e], x) == InSent(sent, x) + CountOf(e.report, x)
    ensures SentWeight(sent + [e]) == SentWeight(sent) + ProfileWeight(e.profile)
  {
    assert (sent + [e])[..|sent|] == sent;
  }

  // ---- What was emitted ----

  ghost function SentWeight(sent: seq<Sent>): int {
    if sent == [] then 0 else SentWeight(sent[..|sent| - 1]) + ProfileWeight(sent[|sent| - 1].profile)
  }

  /** Every emitted profile says exactly what its report counted. */
  ghost predicate SentLaw(s: Session, period: nat) {
    && (forall e | e in s.past.sent :: Encodes(e.profile, ItemsOf(e.report), period) && Total(e.report) * period <= Ints.I64_MAX)
    && s.weight == SentWeight(s.past.sent)
  }

  lemma {:induction false} ReportSends(s: Session, profile: Profile, period: nat)
    requires SentLaw(s, period)
    ensures SentLaw(ReportStep(s, profile, period), period)
  {
    if s.reporter.Adding? && s.reporter.counts == [] { EmitSends(s, s.reporter.report, profile, period); }
  }

  lemma {:induction false} EmitSends(s: Session, report: Counts, profile: Profile, period: nat)
    requires SentLaw(s, period)
    ensures SentLaw(EmitStep(s, report, profile, period), period)
  {
    EmitFrame(s, report, profile, period);
    SentMore(s.past.sent, Sent(report, profile), DroppedTrace(0, [], 0));
  }

  // ---- Every run ----

  /** What starting or unwinding leaves alone. */
  lemma {:induction false} EarlyFrame(s: Session, period: nat, action: Action)
    requires |s.ring.shared.slots| > 0 && (action.Begin? || action.Unwound?)
    ensures var t := Do(s, action, period);
      && t.ring == s.ring && t.counters == s.counters && t.sampler == s.sampler && t.buffer == s.buffer && t.reporter == s.reporter
      && t.weight == s.weight && t.pid == s.pid && t.tags == s.tags
      && t.past == s.past.(got := t.past.got, told := t.past.told)
  {
  }

  lemma {:induction false} HandlersStep(s: Session, start: nat, period: nat, published: seq<seq<Frame>>, action: Action)
    requires Shape(s, start) && HandlersLaw(s, published)
    ensures HandlersLaw(Do(s, action, period), published)
  {
    match action
    case Begin(a) => BeginLaw(s, start, period, published, a);
    case Unwound(a, r) => UnwoundLaw(s, start, period, published, a, r);
    case Handle(a) => if a in s.handlers { HandleLaw(s, start, published, a); }
    case Sample(resolved) => SampleLaw(s, start, published, resolved);
    case Report(profile) =>
      ReportFrame(s, profile, period);
      SameStories(s, ReportStep(s, profile, period), published);
  }

  lemma {:induction false} SamplerStep(s: Session, start: nat, period: nat, popped: seq<seq<Frame>>, action: Action)
    requires Shape(s, start) && SamplerLaw(s, popped)
    ensures SamplerLaw(Do(s, action, period), popped)
  {
    match action
    case Handle(a) => if a in s.handlers { HandleFrame(s, start, a); }
    case Sample(resolved) => SampleInOrder(s, start, popped, resolved);
    case Report(profile) => ReportFrame(s, profile, period);
    case _ => EarlyFrame(s, period, action);
  }

  lemma {:induction false} ReasonStep(s: Session, start: nat, period: nat, reason: nat, action: Action)
    requires Shape(s, start) && reason < 8 && ReasonLaw(s, reason)
    ensures var t := Do(s, action, period); |t.counters| == 8 && |t.past.turned| == 8 && ReasonLaw(t, reason)
  {
    match action
    case Handle(a) => if a in s.handlers { HandleReasons(s, start, a, reason); }
    case Sample(resolved) => SampleReasons(s, start, resolved, reason);
    case Report(profile) => ReportReasons(s, start, profile, period, reason);
    case _ => EarlyFrame(s, period, action);
  }

  lemma {:induction false} TraceStep(s: Session, start: nat, period: nat, x: StackTrace, action: Action)
    requires Shape(s, start) && TraceLaw(s, x)
    ensures |Do(s, action, period).past.turned| == 8 && TraceLaw(Do(s, action, period), x)
  {
    match action
    case Handle(a) => if a in s.handlers { HandleFrame(s, start, a); }
    case Sample(resolved) => SampleTraces(s, start, resolved, x);
    case Report(profile) => ReportTraces(s, start, profile, period, x);
    case _ => EarlyFrame(s, period, action);
  }

  lemma {:induction false} SentStep(s: Session, start: nat, period: nat, action: Action)
    requires Shape(s, start) && SentLaw(s, period)
    ensures SentLaw(Do(s, action, period), period)
  {
    match action
    case Handle(a) => if a in s.handlers { HandleFrame(s, start, a); }
    case Sample(resolved) => SampleFrame(s, start, resolved); SampleWeight(s, resolved);
    case Report(profile) => ReportSends(s, profile, period);
    case _ => EarlyFrame(s, period, action);
  }

  lemma SampleWeight(s: Session, resolved: Option<StackTrace>)
    requires |s.ring.shared.slots| > 0
    ensures SampleStep(s, resolved).weight == s.weight
  {
  }

  /**
   Every run of the handler that has settled its stack did so fairly: an unwind error is counted under its own reason, a
   stack that the ring took is the stack that was unwound, and one that was dropped is counted for what the ring
   answered. What was published is, in order, what these runs published.
   */
  lemma {:induction false} HandlersSettleFairly(s: Session, start: nat, base: nat, period: nat, actions: seq<Action>, t: Session)
    requires Initial(s, start, base) && t == Run(s, actions, period)
    ensures forall x | x in t.past.settled :: Fair(x)
    ensures t.ring.published == s.ring.published + StacksOf(t.past.settled)
    ensures |t.past.settled| == t.completed + |t.limbo|
  {
    HandlersRun(s, start, base, period, actions);
  }

  lemma {:induction false} HandlersRun(s: Session, start: nat, base: nat, period: nat, actions: seq<Action>)
    requires Initial(s, start, base)
    ensures HandlersLaw(Run(s, actions, period), s.ring.published)
    decreases |actions|
  {
    if actions != [] {
      var n := |actions| - 1;
      HandlersRun(s, start, base, period, actions[..n]);
      RunKeeps(s, start, base, period, actions[..n]);
      HandlersStep(Run(s, actions[..n], period), start, period, s.ring.published, actions[n]);
    }
  }

  /** The stacks that left the ring were resolved or given up in the order in which they left it, each once. */
  lemma {:induction false} StacksInOrder(s: Session, start: nat, base: nat, period: nat, actions: seq<Action>, t: Session)
    requires Initial(s, start, base) && t == Run(s, actions, period)
    ensures t.ring.popped == s.ring.popped + FramesOf(t.past.resolutions) + InHand(t.sampler)
  {
    SamplerRun(s, start, base, period, actions);
  }

  lemma {:induction false} SamplerRun(s: Session, start: nat, base: nat, period: nat, actions: seq<Action>)
    requires Initial(s, start, base)
    ensures SamplerLaw(Run(s, actions, period), s.ring.popped)
    decreases |actions|
  {
    if actions == [] {
      assert s.ring.popped + [] + [] == s.ring.popped;
    } else {
      var n := |actions| - 1;
      SamplerRun(s, start, base, period, actions[..n]);
      RunKeeps(s, start, base, period, actions[..n]);
      SamplerStep(Run(s, actions[..n], period), start, period, s.ring.popped, actions[n]);
    }
  }

  /**
   Reason by reason, what was dropped, or could not be resolved, is in the counter of that reason, with the reporter, or
   became a stack named after it.
   */
  lemma {:induction false} ReasonsAreConserved(s: Session, start: nat, base: nat, period: nat, actions: seq<Action>, reason: nat)
    requires Initial(s, start, base) && reason < 8
    ensures var t := Run(s, actions, period); |t.counters| == 8 && |t.past.turned| == 8 && ReasonLaw(t, reason)
    decreases |actions|
  {
    if actions != [] {
      var n := |actions| - 1;
      ReasonsAreConserved(s, start, base, period, actions[..n], reason);
      RunKeeps(s, start, base, period, actions[..n]);
      ReasonStep(Run(s, actions[..n], period), start, period, reason, actions[n]);
    }
  }

  /**
   Trace by trace, the stacks resolved to it, and the drop counts turned into it, are in hand, in the buffer, in the
   report under way, or in a report that was emitted: none is counted as another.
   */
  lemma {:induction false} TracesAreConserved(s: Session, start: nat, base: nat, period: nat, actions: seq<Action>, x: StackTrace)
    requires Initial(s, start, base)
    ensures |Run(s, actions, period).past.turned| == 8 && TraceLaw(Run(s, actions, period), x)
    decreases |actions|
  {
    if actions == [] {
      NothingTurned(s.pid, s.tags, x, 8);
    } else {
      var n := |actions| - 1;
      TracesAreConserved(s, start, base, period, actions[..n], x);
      RunKeeps(s, start, base, period, actions[..n]);
      TraceStep(Run(s, actions[..n], period), start, period, x, actions[n]);
    }
  }

  lemma {:induction false} NothingTurned(pid: nat, tags: seq<Tag>, x: StackTrace, n: nat)
    requires n <= 8
    ensures TurnedInto(pid, tags, seq(8, _ => 0), x, n) == 0
  {
    if n > 0 { NothingTurned(pid, tags, x, n - 1); }
  }

  /** Every profile that was emitted decodes to exactly its report, count for count, at one period each. */
  lemma {:induction false} ProfilesSayTheirReports(s: Session, start: nat, base: nat, period: nat, actions: seq<Action>)
    requires Initial(s, start, base)
    ensures SentLaw(Run(s, actions, period), period)
    decreases |actions|
  {
    if actions != [] {
      var n := |actions| - 1;
      ProfilesSayTheirReports(s, start, base, period, actions[..n]);
      RunKeeps(s, start, base, period, actions[..n]);
      SentStep(Run(s, actions[..n], period), start, period, actions[n]);
    }
  }
}
