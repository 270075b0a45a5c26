/**
 Whoever asks the ring for something is answered within a bounded number of steps of its own, whatever all others do
 in between: the operations are wait-free.
 */
module RingProgress {
  import opened Words
  import opened Options
  import opened Ring
  import opened RingSystem

  /** The steps of `a` among `more`. */
  ghost function OwnSteps<T>(more: seq<Action<T>>, a: nat): nat {
    if more == [] then 0
    else OwnSteps(more[..|more| - 1], a) + if more[|more| - 1].actor == a then 1 else 0
  }

  /** No step of `a` among `more` answers anything. */
  ghost predicate Quiet<T>(c: System<T>, more: seq<Action<T>>, a: nat)
    requires |c.shared.slots| > 0
    decreases |more|
  {
    more == [] || (
      var front, last := more[..|more| - 1], more[|more| - 1];
      Quiet(c, front, a) && (last.actor == a ==> Run(c, front).EventOf(a, last.cmd).Silent?))
  }

  /** The first answer to `a` comes at the step `k`. */
  ghost predicate AnsweredAt<T>(c: System<T>, more: seq<Action<T>>, a: nat, k: nat)
    requires |c.shared.slots| > 0
  {
    k < |more| && more[k].actor == a && Quiet(c, more[..k], a) && !Run(c, more[..k]).EventOf(a, more[k].cmd).Silent?
  }

  lemma {:induction false} FirstAnswer<T>(c: System<T>, more: seq<Action<T>>, a: nat)
    requires |c.shared.slots| > 0 && !Quiet(c, more, a)
    ensures exists k: nat :: AnsweredAt(c, more, a, k)
    decreases |more|
  {
    var n := |more| - 1;
    if Quiet(c, more[..n], a) {
      assert AnsweredAt(c, more, a, n);
    } else {
      FirstAnswer(c, more[..n], a);
      var k: nat :| AnsweredAt(c, more[..n], a, k);
      assert more[..n][..k] == more[..k];
      assert AnsweredAt(c, more, a, k);
    }
  }

  lemma {:induction false} RunKeeps<T>(c: System<T>, start: nat, more: seq<Action<T>>)
    requires Inv(c, start)
    ensures Inv(Run(c, more), start)
    decreases |more|
  {
    if more != [] {
      var front, last := more[..|more| - 1], more[|more| - 1];
      RunKeeps(c, start, front);
      StepKeepsInv(Run(c, front), start, last.actor, last.cmd);
    }
  }

  // ---- Push ----

  /** `m` own steps after the command to push `values`, and no answer yet. */
  ghost predicate MidPush<T>(l: Local<T>, values: seq<T>, m: nat) {
    match l
    case PReload(_, _, vs) => vs == values && m == 0
    case PWrite(_, _, vs, i) => vs == values && i <= |values| && m <= i + 1
    case PPublish(_, _, vs) => vs == values && m <= |values| + 2
    case _ => false
  }

  /** The step that ends a push: published where there is room, refused where there is not. */
  ghost predicate PushAnswer<T>(c: System<T>, d: System<T>, values: seq<T>, e: Event<T>)
    requires |c.popped| <= |c.published|
  {
    if Span(c.Pending()) + 1 + |values| <= |c.shared.slots| then e == Published(values) && d.published == c.published + [values]
    else e == Full(|values|) && d.published == c.published
  }

  lemma {:induction false} PushBegins<T>(c: System<T>, start: nat, a: nat, values: seq<T>)
    requires Inv(c, start) && c.Actor(a).PReady?
    ensures c.EventOf(a, Push(values)).Silent? && MidPush(c.Step(a, Push(values)).Actor(a), values, 0)
  {
    ProducerStep(c.shared, start + Span(c.popped), c.Pending(), c.Actor(a), Push(values));
  }

  lemma {:induction false} PushGoesOn<T>(c: System<T>, start: nat, a: nat, values: seq<T>, m: nat, cmd: Command<T>)
    requires Inv(c, start) && MidPush(c.Actor(a), values, m)
    ensures var e, d := c.EventOf(a, cmd), c.Step(a, cmd);
      if e.Silent? then MidPush(d.Actor(a), values, m + 1) else PushAnswer(c, d, values, e)
  {
    var pos, queue := start + Span(c.popped), c.Pending();
    ProducerStep(c.shared, pos, queue, c.Actor(a), cmd);
    SharedFacts(c.shared, pos, queue);
  }

  lemma {:induction false} Pushing<T>(c: System<T>, start: nat, a: nat, values: seq<T>, more: seq<Action<T>>)
    requires Inv(c, start) && MidPush(c.Actor(a), values, 0) && Quiet(c, more, a)
    ensures Inv(Run(c, more), start) && MidPush(Run(c, more).Actor(a), values, OwnSteps(more, a))
    decreases |more|
  {
    RunKeeps(c, start, more);
    if more != [] {
      var front, last := more[..|more| - 1], more[|more| - 1];
      Pushing(c, start, a, values, front);
      if last.actor == a { PushGoesOn(Run(c, front), start, a, values, OwnSteps(front, a), last.cmd); }
    }
  }

  /**
   A push is answered within `|values| + 3` further steps of its own, and by one of two answers. Where there is
   room for the record at that moment it is published; where there is not, the answer is `Full`.
   */
  lemma {:induction false} PushIsAnswered<T>(c: System<T>, start: nat, before: seq<Action<T>>, a: nat, values: seq<T>, more: seq<Action<T>>)
    requires Initial(c, start) && |c.shared.slots| > 0 && Run(c, before).Actor(a).PReady?
    ensures var d := Run(c, before).Step(a, Push(values));
      && Run(c, before).EventOf(a, Push(values)).Silent?
      && (OwnSteps(more, a) >= |values| + 3 ==> exists k: nat :: AnsweredAt(d, more, a, k))
      && forall k: nat | AnsweredAt(d, more, a, k) :: PushedAt(d, a, values, more, k)
  {
    RunKeepsInv(c, start, before);
    PushBegins(Run(c, before), start, a, values);
    StepKeepsInv(Run(c, before), start, a, Push(values));
    var d := Run(c, before).Step(a, Push(values));
    PushIsShort(d, start, a, values, more);
    forall k: nat | AnsweredAt(d, more, a, k)
      ensures PushedAt(d, a, values, more, k)
    {
      PushEnds(d, start, a, values, more, k);
    }
  }

  /** A push is answered at the step `k`, as it should be. */
  ghost predicate PushedAt<T>(d: System<T>, a: nat, values: seq<T>, more: seq<Action<T>>, k: nat)
    requires |d.shared.slots| > 0 && k < |more|
  {
    var s, t := Run(d, more[..k]), Run(d, more[..k + 1]);
    && OwnSteps(more[..k], a) <= |values| + 2 && |s.popped| <= |s.published|
    && PushAnswer(s, t, values, s.EventOf(a, more[k].cmd))
  }

  lemma {:induction false} PushIsShort<T>(d: System<T>, start: nat, a: nat, values: seq<T>, more: seq<Action<T>>)
    requires Inv(d, start) && MidPush(d.Actor(a), values, 0)
    ensures OwnSteps(more, a) >= |values| + 3 ==> exists k: nat :: AnsweredAt(d, more, a, k)
  {
    if Quiet(d, more, a) {
      Pushing(d, start, a, values, more);
    } else {
      FirstAnswer(d, more, a);
    }
  }

  lemma {:induction false} PushEnds<T>(d: System<T>, start: nat, a: nat, values: seq<T>, more: seq<Action<T>>, k: nat)
    requires Inv(d, start) && MidPush(d.Actor(a), values, 0) && AnsweredAt(d, more, a, k)
    ensures PushedAt(d, a, values, more, k)
  {
    Pushing(d, start, a, values, more[..k]);
    PushGoesOn(Run(d, more[..k]), start, a, values, OwnSteps(more[..k], a), more[k].cmd);
    assert more[..k + 1][..k] == more[..k];
  }

  // ---- Pop ----

  /** `m` own steps after the command to pop into `room` places, and no answer yet. */
  ghost predicate MidPop<T>(l: Local<T>, queue: seq<seq<T>>, room: nat, m: nat) {
    match l
    case CReload(_, _, n) => n == room && m == 0
    case CLen(_, _, n) => n == room && queue != [] && m <= 1
    case CRead(_, _, len, out) => queue != [] && |out| <= len == |queue[0]| <= room && m <= |out| + 2
    case CAdvance(_, _, out) => queue != [] && out == queue[0] && |out| <= room && m <= |out| + 3
    case _ => false
  }

  /** The step that ends a pop: the oldest record if it fits, and otherwise why not. */
  ghost predicate PopAnswer<T>(c: System<T>, d: System<T>, room: nat, e: Event<T>)
    requires |c.popped| <= |c.published|
  {
    var queue := c.Pending();
    if queue == [] then e == Empty && d.popped == c.popped
    else if |queue[0]| > room then e == TooSmall(|queue[0]|, room) && d.popped == c.popped
    else e == Popped(queue[0]) && d.popped == c.popped + [queue[0]]
  }

  lemma {:induction false} PopBegins<T>(c: System<T>, start: nat, a: nat, room: nat)
    requires Inv(c, start) && c.Actor(a).CReady?
    ensures var d := c.Step(a, Pop(room));
      c.EventOf(a, Pop(room)).Silent? && |d.popped| <= |d.published| && MidPop(d.Actor(a), d.Pending(), room, 0)
  {
    ConsumerStep(c.shared, start + Span(c.popped), c.Pending(), c.Actor(a), Pop(room));
    var l := c.Actor(a);
    if l.head != l.tail { RecordThere(c.shared, c.Pending(), l.head, l.tail); }
  }

  /** One own step on, without an answer, or with the right one. */
  ghost predicate PopStep<T>(c: System<T>, a: nat, room: nat, m: nat, cmd: Command<T>)
    requires |c.shared.slots| > 0 && |c.popped| <= |c.published|
  {
    var e, d := c.EventOf(a, cmd), c.Step(a, cmd);
    if e.Silent? then |d.popped| <= |d.published| && MidPop(d.Actor(a), d.Pending(), room, m + 1) else PopAnswer(c, d, room, e)
  }

  lemma {:induction false} PopGoesOn<T>(c: System<T>, start: nat, a: nat, room: nat, m: nat, cmd: Command<T>)
    requires Inv(c, start) && MidPop(c.Actor(a), c.Pending(), room, m)
    ensures PopStep(c, a, room, m, cmd)
  {
    var l := c.Actor(a);
    if l.CReload? {
      PopLooks(c, start, a, room, m, cmd);
    } else if l.CLen? {
      PopMeasures(c, start, a, room, m, cmd);
    } else if l.CRead? {
      PopCopies(c, start, a, room, m, cmd);
    } else {
      PopTakes(c, start, a, room, m, cmd);
    }
  }

  lemma {:induction false} PopLooks<T>(c: System<T>, start: nat, a: nat, room: nat, m: nat, cmd: Command<T>)
    requires Inv(c, start) && MidPop(c.Actor(a), c.Pending(), room, m) && c.Actor(a).CReload?
    ensures PopStep(c, a, room, m, cmd)
  {
    FreshHead(c.shared, start + Span(c.popped), c.Pending());
  }

  lemma {:induction false} PopMeasures<T>(c: System<T>, start: nat, a: nat, room: nat, m: nat, cmd: Command<T>)
    requires Inv(c, start) && MidPop(c.Actor(a), c.Pending(), room, m) && c.Actor(a).CLen?
    ensures PopStep(c, a, room, m, cmd)
  {
    var l := c.Actor(a);
    LengthThere(c.shared, start + Span(c.popped), c.Pending(), l.head, l.tail);
  }

  lemma {:induction false} PopCopies<T>(c: System<T>, start: nat, a: nat, room: nat, m: nat, cmd: Command<T>)
    requires Inv(c, start) && MidPop(c.Actor(a), c.Pending(), room, m) && c.Actor(a).CRead?
    ensures PopStep(c, a, room, m, cmd)
  {
    ReadStep(c.shared, start + Span(c.popped), c.Pending(), c.Actor(a), cmd);
  }

  lemma {:induction false} PopTakes<T>(c: System<T>, start: nat, a: nat, room: nat, m: nat, cmd: Command<T>)
    requires Inv(c, start) && MidPop(c.Actor(a), c.Pending(), room, m) && c.Actor(a).CAdvance?
    ensures PopStep(c, a, room, m, cmd)
  {
  }

  /** Nobody else takes the record a consumer is about to take. */
  lemma {:induction false} OthersAppend<T>(c: System<T>, start: nat, a: nat, b: nat, room: nat, m: nat, cmd: Command<T>)
    requires Inv(c, start) && MidPop(c.Actor(a), c.Pending(), room, m) && b != a
    ensures var d := c.Step(b, cmd);
      |d.popped| <= |d.published| && MidPop(d.Actor(a), d.Pending(), room, m)
  {
    var pos, queue, l := start + Span(c.popped), c.Pending(), c.Actor(b);
    StepKeepsInv(c, start, b, cmd);
    assert !l.Consuming();
    if l.Producing() {
      ProducerStep(c.shared, pos, queue, l, cmd);
    } else {
      IdleOutcome(c.shared, cmd);
    }
  }

  lemma {:induction false} Popping<T>(c: System<T>, start: nat, a: nat, room: nat, more: seq<Action<T>>)
    requires Inv(c, start) && MidPop(c.Actor(a), c.Pending(), room, 0) && Quiet(c, more, a)
    ensures var d := Run(c, more); Inv(d, start) && MidPop(d.Actor(a), d.Pending(), room, OwnSteps(more, a))
    decreases |more|
  {
    RunKeeps(c, start, more);
    if more != [] {
      var front, last := more[..|more| - 1], more[|more| - 1];
      Popping(c, start, a, room, front);
      if last.actor == a {
        PopGoesOn(Run(c, front), start, a, room, OwnSteps(front, a), last.cmd);
      } else {
        OthersAppend(Run(c, front), start, a, last.actor, room, OwnSteps(front, a), last.cmd);
      }
    }
  }

  /** What a pop may take before it is answered: one look at an empty ring, and the length of the oldest record. */
  ghost function PopBound<T>(queue: seq<seq<T>>): nat {
    if queue == [] then 0 else |queue[0]| + 3
  }

  /**
   A pop is answered after one further step of its own while the ring is empty, and within as many as the oldest
   record is long, and 4, when it is not: by the oldest record if it fits, and otherwise by the reason.
   */
  lemma {:induction false} PopIsAnswered<T>(c: System<T>, start: nat, before: seq<Action<T>>, a: nat, room: nat, more: seq<Action<T>>)
    requires Initial(c, start) && |c.shared.slots| > 0 && Run(c, before).Actor(a).CReady?
    ensures var d := Run(c, before).Step(a, Pop(room));
      && Run(c, before).EventOf(a, Pop(room)).Silent?
      && |Run(d, more).popped| <= |Run(d, more).published|
      && (OwnSteps(more, a) > PopBound(Run(d, more).Pending()) ==> exists k: nat :: AnsweredAt(d, more, a, k))
      && forall k: nat | AnsweredAt(d, more, a, k) :: PoppedAt(d, a, room, more, k)
  {
    RunKeepsInv(c, start, before);
    PopBegins(Run(c, before), start, a, room);
    StepKeepsInv(Run(c, before), start, a, Pop(room));
    var d := Run(c, before).Step(a, Pop(room));
    PopIsShort(d, start, a, room, more);
    forall k: nat | AnsweredAt(d, more, a, k)
      ensures PoppedAt(d, a, room, more, k)
    {
      PopEnds(d, start, a, room, more, k);
    }
  }

  /** A pop is answered at the step `k`, as it should be. */
  ghost predicate PoppedAt<T>(d: System<T>, a: nat, room: nat, more: seq<Action<T>>, k: nat)
    requires |d.shared.slots| > 0 && k < |more|
  {
    var s, t := Run(d, more[..k]), Run(d, more[..k + 1]);
    && |s.popped| <= |s.published| && OwnSteps(more[..k], a) <= PopBound(s.Pending())
    && PopAnswer(s, t, room, s.EventOf(a, more[k].cmd))
  }

  lemma {:induction false} PopIsShort<T>(d: System<T>, start: nat, a: nat, room: nat, more: seq<Action<T>>)
    requires Inv(d, start) && MidPop(d.Actor(a), d.Pending(), room, 0)
    ensures |Run(d, more).popped| <= |Run(d, more).published|
    ensures OwnSteps(more, a) > PopBound(Run(d, more).Pending()) ==> exists k: nat :: AnsweredAt(d, more, a, k)
  {
    RunKeeps(d, start, more);
    if Quiet(d, more, a) {
      Popping(d, start, a, room, more);
    } else {
      FirstAnswer(d, more, a);
    }
  }

  lemma {:induction false} PopEnds<T>(d: System<T>, start: nat, a: nat, room: nat, more: seq<Action<T>>, k: nat)
    requires Inv(d, start) && MidPop(d.Actor(a), d.Pending(), room, 0) && AnsweredAt(d, more, a, k)
    ensures PoppedAt(d, a, room, more, k)
  {
    Popping(d, start, a, room, more[..k]);
    PopGoesOn(Run(d, more[..k]), start, a, room, OwnSteps(more[..k], a), more[k].cmd);
    assert more[..k + 1][..k] == more[..k];
  }

  // ---- Locks ----

  ghost predicate MidLock<T>(l: Local<T>, producer: bool, m: nat) {
    if producer then (m == 0 && l.PLocked?) || (m == 1 && l.PHead?) || (m == 2 && l.PReady?)
    else (m == 0 && l.CLocked?) || (m == 1 && l.CHead?) || (m == 2 && l.CReady?)
  }

  lemma {:induction false} Locking<T>(c: System<T>, a: nat, producer: bool, more: seq<Action<T>>)
    requires |c.shared.slots| > 0 && MidLock(c.Actor(a), producer, 0) && OwnSteps(more, a) <= 2
    ensures MidLock(Run(c, more).Actor(a), producer, OwnSteps(more, a))
    decreases |more|
  {
    if more != [] {
      Locking(c, a, producer, more[..|more| - 1]);
    }
  }

  /** A try-lock is refused exactly while another holds that side; otherwise two more own steps make the handle ready. */
  lemma {:induction false} LockIsAnswered<T>(c: System<T>, start: nat, before: seq<Action<T>>, a: nat, producer: bool, more: seq<Action<T>>)
    requires Initial(c, start) && |c.shared.slots| > 0 && Run(c, before).Actor(a).Idle?
    ensures var s := Run(c, before); var cmd: Command<T> := if producer then LockProducer else LockConsumer;
      var busy := if producer then exists b :: s.Actor(b).Producing() else exists b :: s.Actor(b).Consuming();
      if busy then s.EventOf(a, cmd) == (if producer then ProducerRefused else ConsumerRefused) && s.Step(a, cmd).Actor(a).Idle?
      else
        && s.EventOf(a, cmd).Silent?
        && (OwnSteps(more, a) == 2 ==> var l := Run(s.Step(a, cmd), more).Actor(a); if producer then l.PReady? else l.CReady?)
  {
    LockHasHolder(c, start, before);
    var s := Run(c, before);
    var cmd: Command<T> := if producer then LockProducer else LockConsumer;
    if MidLock(s.Step(a, cmd).Actor(a), producer, 0) && OwnSteps(more, a) == 2 { Locking(s.Step(a, cmd), a, producer, more); }
  }

  /** Dropping a handle lets the next one in. */
  lemma {:induction false} DropFrees<T>(c: System<T>, start: nat, before: seq<Action<T>>, a: nat)
    requires Initial(c, start) && |c.shared.slots| > 0
    ensures var s := Run(c, before); var d := s.Step(a, Drop);
      && (s.Actor(a).PReady? ==> d.Actor(a).Idle? && forall b :: !d.Actor(b).Producing())
      && (s.Actor(a).CReady? ==> d.Actor(a).Idle? && forall b :: !d.Actor(b).Consuming())
  {
    RunKeepsInv(c, start, before);
    var s := Run(c, before);
    assert forall b | b != a :: s.Step(a, Drop).Actor(b) == s.Actor(b);
  }
}
