/**
 Nobody in the pipeline waits for anybody: a handler that has unwound its stack returns after a bounded number of its
 own steps, and so does the sampler go back to sleep, whatever all others do in between.
 */
module PipelineProgress {
  import Ints
  import Ring
  import RS = RingSystem
  import opened Unwind
  import opened Handler
  import opened Options
  import opened Pprof
  import opened Backend
  import opened Encode
  import opened Pipeline
  import opened PipelineLaws

  // ---- Handlers ----

  ghost function HandlerSteps(more: seq<Action>, a: nat): nat {
    if more == [] then 0
    else HandlerSteps(more[..|more| - 1], a) + if more[|more| - 1] == Handle(a) then 1 else 0
  }

  /** An upper bound of the own steps a handler still does. */
  ghost function HandlerRank(phase: Phase, l: Ring.Local<Frame>): nat {
    match phase
    case Unwinding => 0
    case Locking(stack) => |stack| + 9
    case Pushing(stack) => PushRank(|stack|, l)
    case Counting(_, _) => 2
    case Leaving(_) => 1
  }

  ghost function PushRank(n: nat, l: Ring.Local<Frame>): nat {
    match l
    case PLocked => n + 8
    case PHead(_) => n + 7
    case PReady(_, _) => n + 6
    case PReload(_, _, _) => n + 5
    case PWrite(_, _, _, i) => 4 + if i < n then n - i else 0
    case _ => 3
  }

  ghost predicate UnderWay(s: Session, a: nat) {
    a in s.handlers && !s.handlers[a].Unwinding?
  }

  ghost function Rank(s: Session, a: nat): nat
    requires UnderWay(s, a)
  {
    HandlerRank(s.handlers[a], s.ring.Actor(a))
  }

  lemma PushRankFalls(s: Ring.Shared<Frame>, l: Ring.Local<Frame>, stack: seq<Frame>)
    requires |s.slots| > 0 && ActorOk(l, Pushing(stack))
    ensures var o := Ring.Next(s, l, if l.PReady? then Ring.Push(stack) else Ring.Continue);
      o.event.Silent? ==> PushRank(|stack|, o.local) < PushRank(|stack|, l)
  {
  }

  /** Each own step of a handler brings it nearer to its end. */
  lemma {:induction false} HandlerGetsOn(s: Session, start: nat, a: nat)
    requires Shape(s, start) && UnderWay(s, a)
    ensures var t := HandleStep(s, a); a !in t.handlers || (UnderWay(t, a) && Rank(t, a) < Rank(s, a))
  {
    assert ActorOk(s.ring.Actor(a), s.handlers[a]);
    match s.handlers[a]
    case Pushing(stack) => PusherGetsOn(s, start, a, stack);
    case Locking(_) => LockEvents(s.ring.shared);
    case _ =>
  }

  lemma {:induction false} PusherGetsOn(s: Session, start: nat, a: nat, stack: seq<Frame>)
    requires Shape(s, start) && a in s.handlers && s.handlers[a] == Pushing(stack)
    ensures var t := HandleStep(s, a); UnderWay(t, a) && Rank(t, a) < Rank(s, a)
  {
    var l := s.ring.Actor(a);
    var cmd := if l.PReady? then Ring.Push(stack) else Ring.Continue;
    RingMove(s.ring, start, a, cmd);
    assert ActorOk(l, Pushing(stack));
    PushEvents(s.ring.shared, l, stack);
    PushRankFalls(s.ring.shared, l, stack);
  }

  /** Nothing else moves it. */
  lemma {:induction false} HandlerStays(s: Session, start: nat, period: nat, a: nat, action: Action)
    requires Shape(s, start) && UnderWay(s, a) && action != Handle(a)
    ensures var t := Do(s, action, period); UnderWay(t, a) && Rank(t, a) == Rank(s, a)
  {
    match action
    case Handle(b) => if b in s.handlers { OthersActor(s, start, a, b); }
    case Sample(resolved) => SampleFrame(s, start, resolved); SampledActor(s, start, resolved, a);
    case Report(profile) => ReportFrame(s, profile, period);
    case _ => EarlyFrame(s, period, action);
  }

  lemma {:induction false} OthersActor(s: Session, start: nat, a: nat, b: nat)
    requires Shape(s, start) && b in s.handlers && a in s.handlers && b != a
    ensures var t := HandleStep(s, b); a in t.handlers && t.handlers[a] == s.handlers[a] && t.ring.Actor(a) == s.ring.Actor(a)
  {
  }

  lemma {:induction false} SampledActor(s: Session, start: nat, resolved: Option<StackTrace>, a: nat)
    requires Shape(s, start) && a in s.handlers
    ensures SampleStep(s, resolved).ring.Actor(a) == s.ring.Actor(a)
  {
  }

  lemma {:induction false} Onward(c: Session, start: nat, base: nat, period: nat, more: seq<Action>)
    requires Fine(c, start, base, period) && |c.ring.shared.slots| > 0
    ensures Fine(Run(c, more, period), start, base, period)
    decreases |more|
  {
    if more != [] {
      var n := |more| - 1;
      Onward(c, start, base, period, more[..n]);
      FineGoesOn(Run(c, more[..n], period), start, base, period, more[n]);
    }
  }

  /** The invariant of the pipeline, closed. */
  ghost predicate Fine(c: Session, start: nat, base: nat, period: nat) {
    && |c.ring.shared.slots| > 0
    && forall t {:trigger Watch(t)} | t == c && Watch(t) :: Shape(t, start) && Balance(t, base, period)
  }

  lemma {:induction false} FineGoesOn(c: Session, start: nat, base: nat, period: nat, action: Action)
    requires Fine(c, start, base, period)
    ensures Fine(Do(c, action, period), start, base, period)
  {
    assert Watch(c);
    StepKeeps(c, start, base, period, action);
  }

  lemma {:induction false} FineRun(s: Session, start: nat, base: nat, period: nat, before: seq<Action>)
    requires Initial(s, start, base)
    ensures Fine(Run(s, before, period), start, base, period)
  {
    RunKeeps(s, start, base, period, before);
  }

  lemma {:induction false} FineShape(c: Session, start: nat, base: nat, period: nat)
    requires Fine(c, start, base, period)
    ensures Shape(c, start)
  {
    assert Watch(c);
  }

  /** Handler `a` does not return. */
  ghost predicate Remains(c: Session, more: seq<Action>, period: nat, a: nat)
    requires |c.ring.shared.slots| > 0
    decreases |more|
  {
    a in Run(c, more, period).handlers && (more != [] ==> Remains(c, more[..|more| - 1], period, a))
  }

  lemma {:induction false} Returns(c: Session, more: seq<Action>, period: nat, a: nat)
    requires |c.ring.shared.slots| > 0 && !Remains(c, more, period, a)
    ensures exists k: nat :: k <= |more| && a !in Run(c, more[..k], period).handlers
    decreases |more|
  {
    if a !in Run(c, more, period).handlers {
      assert more[..|more|] == more;
    } else {
      var n := |more| - 1;
      Returns(c, more[..n], period, a);
      var k: nat :| k <= n && a !in Run(c, more[..n][..k], period).handlers;
      assert more[..n][..k] == more[..k];
    }
  }

  lemma {:induction false} HandlerRuns(c: Session, start: nat, base: nat, period: nat, a: nat, more: seq<Action>)
    requires Fine(c, start, base, period) && UnderWay(c, a) && Remains(c, more, period, a)
    ensures UnderWay(Run(c, more, period), a)
    ensures Rank(Run(c, more, period), a) + HandlerSteps(more, a) <= Rank(c, a)
    decreases |more|
  {
    if more != [] {
      var n := |more| - 1;
      HandlerRuns(c, start, base, period, a, more[..n]);
      Onward(c, start, base, period, more[..n]);
      FineShape(Run(c, more[..n], period), start, base, period);
      if more[n] == Handle(a) {
        HandlerGetsOn(Run(c, more[..n], period), start, a);
      } else {
        HandlerStays(Run(c, more[..n], period), start, period, a, more[n]);
      }
    }
  }

  /**
   A handler whose walk has ended returns within 265 steps of its own, whatever others do: it never waits, not for the
   lock, nor for room in the ring.
   */
  lemma {:induction false} HandlerReturns(s: Session, start: nat, base: nat, period: nat, before: seq<Action>, a: nat,
                                          r: Result<seq<Frame>>, more: seq<Action>)
    requires Initial(s, start, base)
    requires a in Run(s, before, period).handlers && Run(s, before, period).handlers[a] == Unwinding
    requires (r.Ok? ==> |r.value| <= MAX_FRAMES) && HandlerSteps(more, a) >= 265
    ensures var d := Do(Run(s, before, period), Unwound(a, r), period);
      exists k: nat :: k <= |more| && a !in Run(d, more[..k], period).handlers
  {
    FineRun(s, start, base, period, before);
    FineGoesOn(Run(s, before, period), start, base, period, Unwound(a, r));
    var d := Do(Run(s, before, period), Unwound(a, r), period);
    GetsUnderWay(Run(s, before, period), period, a, r);
    if Remains(d, more, period, a) {
      FewSteps(d, start, base, period, a, more);
    } else {
      Returns(d, more, period, a);
    }
  }

  lemma {:induction false} GetsUnderWay(c: Session, period: nat, a: nat, r: Result<seq<Frame>>)
    requires |c.ring.shared.slots| > 0 && a in c.handlers && c.handlers[a] == Unwinding && (r.Ok? ==> |r.value| <= MAX_FRAMES)
    ensures var d := Do(c, Unwound(a, r), period); UnderWay(d, a) && Rank(d, a) <= 265
  {
  }

  lemma {:induction false} FewSteps(c: Session, start: nat, base: nat, period: nat, a: nat, more: seq<Action>)
    requires Fine(c, start, base, period) && UnderWay(c, a) && Remains(c, more, period, a)
    ensures HandlerSteps(more, a) < Rank(c, a)
  {
    HandlerRuns(c, start, base, period, a, more);
  }

  // ---- The sampler ----

  ghost function SamplerSteps(more: seq<Action>): nat {
    if more == [] then 0
    else SamplerSteps(more[..|more| - 1]) + if more[|more| - 1].Sample? then 1 else 0
  }

  /** An upper bound of the own steps until the sampler sleeps. */
  ghost function SamplerRank(sampler: Sampler, l: Ring.Local<Frame>): nat {
    match sampler
    case Draining(n, traces) => Left(n) + PopRank(l) + |traces|
    case Resolving(n, _, traces) => Left(n) + 2 + |traces|
    case Unresolved(n, traces) => Left(n) + 1 + |traces|
    case Releasing(traces) => 2 + |traces|
    case Recording(traces) => 1 + |traces|
    case _ => 0
  }

  ghost function Left(n: nat): nat {
    10 + if n < MAX_DRAIN_STACKS then (MAX_DRAIN_STACKS - n) * 600 else 0
  }

  ghost function PopRank(l: Ring.Local<Frame>): nat {
    match l
    case CLocked => 305
    case CHead(_) => 304
    case CReady(_, _) => 303
    case CReload(_, _, _) => 302
    case CLen(_, _, _) => 301
    case CRead(_, _, len, out) => 10 + if |out| < len then len - |out| else 0
    case _ => 9
  }

  lemma PopRankFalls(s: Ring.Shared<Frame>, l: Ring.Local<Frame>, n: nat, traces: seq<StackTrace>)
    requires |s.slots| > 0 && SamplerOk(l, Draining(n, traces)) && n < MAX_DRAIN_STACKS
    ensures var o := Ring.Next(s, l, if l.CReady? then Ring.Pop(MAX_FRAMES) else Ring.Continue);
      o.event.Silent? ==> PopRank(o.local) < PopRank(l)
  {
  }

  lemma PopEvents(s: Ring.Shared<Frame>, l: Ring.Local<Frame>, n: nat, traces: seq<StackTrace>)
    requires |s.slots| > 0 && SamplerOk(l, Draining(n, traces)) && n < MAX_DRAIN_STACKS
    ensures var e := Ring.Next(s, l, if l.CReady? then Ring.Pop(MAX_FRAMES) else Ring.Continue).event;
      e.Silent? || e.Panic? || e.Popped? || e.Empty? || e.TooSmall?
  {
  }

  lemma {:induction false} DrainGetsOn(s: Session, start: nat, resolved: Option<StackTrace>)
    requires Shape(s, start) && s.sampler.Draining? && s.sampler.n < MAX_DRAIN_STACKS
    ensures var t := SampleStep(s, resolved);
      SamplerRank(t.sampler, t.ring.Actor(SAMPLER)) < SamplerRank(s.sampler, s.ring.Actor(SAMPLER))
  {
    var l := s.ring.Actor(SAMPLER);
    var cmd := if l.CReady? then Ring.Pop(MAX_FRAMES) else Ring.Continue;
    RingMove(s.ring, start, SAMPLER, cmd);
    NeverCrashes(s, start, resolved);
    PopEvents(s.ring.shared, l, s.sampler.n, s.sampler.traces);
    PopRankFalls(s.ring.shared, l, s.sampler.n, s.sampler.traces);
  }

  lemma {:induction false} SamplerGetsOn(s: Session, start: nat, resolved: Option<StackTrace>)
    requires Shape(s, start) && !s.sampler.Sleeping?
    ensures var t := SampleStep(s, resolved);
      SamplerRank(t.sampler, t.ring.Actor(SAMPLER)) < SamplerRank(s.sampler, s.ring.Actor(SAMPLER))
  {
    if s.sampler.Draining? && s.sampler.n < MAX_DRAIN_STACKS {
      DrainGetsOn(s, start, resolved);
    } else {
      NeverCrashes(s, start, resolved);
    }
  }

  lemma {:induction false} SamplerStays(s: Session, start: nat, period: nat, action: Action)
    requires Shape(s, start) && !action.Sample?
    ensures var t := Do(s, action, period); t.sampler == s.sampler && t.ring.Actor(SAMPLER) == s.ring.Actor(SAMPLER)
  {
    match action
    case Handle(b) => if b in s.handlers { HandleFrame(s, start, b); }
    case Report(profile) => ReportFrame(s, profile, period);
    case _ => EarlyFrame(s, period, action);
  }

  /** The sampler does not sleep. */
  ghost predicate Awake(c: Session, more: seq<Action>, period: nat)
    requires |c.ring.shared.slots| > 0
    decreases |more|
  {
    more != [] ==> !Run(c, more[..|more| - 1], period).sampler.Sleeping? && Awake(c, more[..|more| - 1], period)
  }

  lemma {:induction false} FallsAsleep(c: Session, more: seq<Action>, period: nat)
    requires |c.ring.shared.slots| > 0 && !Awake(c, more, period)
    ensures exists k: nat :: k < |more| && Run(c, more[..k], period).sampler.Sleeping?
    decreases |more|
  {
    var n := |more| - 1;
    if !Run(c, more[..n], period).sampler.Sleeping? {
      FallsAsleep(c, more[..n], period);
      var k: nat :| k < n && Run(c, more[..n][..k], period).sampler.Sleeping?;
      assert more[..n][..k] == more[..k];
    }
  }

  lemma {:induction false} SamplerRuns(c: Session, start: nat, base: nat, period: nat, more: seq<Action>)
    requires Fine(c, start, base, period) && Awake(c, more, period)
    ensures var t := Run(c, more, period);
      SamplerRank(t.sampler, t.ring.Actor(SAMPLER)) + SamplerSteps(more) <= SamplerRank(c.sampler, c.ring.Actor(SAMPLER))
    decreases |more|
  {
    if more != [] {
      var n := |more| - 1;
      SamplerRuns(c, start, base, period, more[..n]);
      Onward(c, start, base, period, more[..n]);
      FineShape(Run(c, more[..n], period), start, base, period);
      if more[n].Sample? {
        SamplerGetsOn(Run(c, more[..n], period), start, more[n].resolved);
      } else {
        SamplerStays(Run(c, more[..n], period), start, period, more[n]);
      }
    }
  }

  /** Once awake, the sampler sleeps again after a bounded number of its own steps: it never waits for a handler. */
  lemma {:induction false} SamplerSleepsAgain(s: Session, start: nat, base: nat, period: nat, before: seq<Action>, more: seq<Action>)
    requires Initial(s, start, base)
    requires var c := Run(s, before, period); SamplerSteps(more) > SamplerRank(c.sampler, c.ring.Actor(SAMPLER))
    ensures var c := Run(s, before, period);
      exists k: nat :: k < |more| && Run(c, more[..k], period).sampler.Sleeping?
  {
    FineRun(s, start, base, period, before);
    var c := Run(s, before, period);
    if Awake(c, more, period) {
      SamplerRuns(c, start, base, period, more);
    } else {
      FallsAsleep(c, more, period);
    }
  }

  /** From sleep to sleep it takes at most 38716 steps: a drain takes at most 64 stacks. */
  lemma {:induction false} WakeIsBounded(s: Session, start: nat, base: nat, period: nat, before: seq<Action>, resolved: Option<StackTrace>)
    requires Initial(s, start, base) && Run(s, before, period).sampler.Sleeping?
    ensures var t := SampleStep(Run(s, before, period), resolved);
      !t.sampler.Sleeping? && SamplerRank(t.sampler, t.ring.Actor(SAMPLER)) <= 38715
  {
    RunKeeps(s, start, base, period, before);
  }

  /** A drain ends with 64 stacks, or with an empty ring. */
  lemma {:induction false} DrainTakesAll(s: Session, start: nat, base: nat, period: nat, actions: seq<Action>, resolved: Option<StackTrace>)
    requires Initial(s, start, base)
    ensures var c := Run(s, actions, period); var t := SampleStep(c, resolved);
      && |c.ring.popped| <= |c.ring.published|
      && (c.sampler.Draining? && t.sampler.Releasing? ==> c.sampler.n == MAX_DRAIN_STACKS || c.ring.Pending() == [])
  {
    RunKeeps(s, start, base, period, actions);
    var c := Run(s, actions, period);
    if c.sampler.Draining? && c.sampler.n < MAX_DRAIN_STACKS {
      var cmd := if c.ring.Actor(SAMPLER).CReady? then Ring.Pop(MAX_FRAMES) else Ring.Continue;
      RingMove(c.ring, start, SAMPLER, cmd);
      EmptyIsTrue(c.ring, start, cmd);
    }
  }

  lemma {:induction false} EmptyIsTrue(ring: RS.System<Frame>, start: nat, cmd: Ring.Command<Frame>)
    requires RingOk(ring, start)
    ensures ring.EventOf(SAMPLER, cmd).Empty? ==> ring.Pending() == []
  {
    assert Sees(ring);
    RS.AnswerIsTrue(ring, start, SAMPLER, cmd);
  }

  // ---- The reporter ----

  ghost function ReporterRank(reporter: Reporter): nat {
    match reporter
    case Waiting => 0
    case Swapping(_, counts) => 10 + if |counts| < 8 then 8 - |counts| else 0
    case Adding(_, counts, _) => 1 + |counts|
  }

  /** The reporter gets on with every step, if its profile is the one of its report when it comes to that. */
  lemma {:induction false} ReporterGetsOn(s: Session, start: nat, base: nat, period: nat, actions: seq<Action>, profile: Profile)
    requires Initial(s, start, base)
    ensures var c := Run(s, actions, period); var t := ReportStep(c, profile, period);
      && (c.reporter.Waiting? && !c.sampler.Recording? ==> t.reporter == Swapping(c.buffer, []) && t.buffer == map[])
      && (c.reporter.Swapping? || (c.reporter.Adding? && c.reporter.counts != []) ==> ReporterRank(t.reporter) < ReporterRank(c.reporter))
      && (c.reporter.Adding? && c.reporter.counts == []
          && (c.reporter.report == map[]
              || (Encodes(profile, ItemsOf(c.reporter.report), period) && Total(c.reporter.report) * period <= Ints.I64_MAX))
          ==> t.reporter.Waiting?)
  {
    RunKeeps(s, start, base, period, actions);
  }
}
