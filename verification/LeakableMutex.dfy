/**
 `LeakableMutex`: a pointer to a lazily allocated mutex that a fork handler may abandon and replace. Any
 number of threads initialise and reset it; a step is one access to the pointer, or one allocation or release.
 */
module LeakableMutex {
  import opened Options

  /** Where a thread is. `from` is the number of resets that had happened when its call began. */
  datatype Pc =
    | Idle
    | Load(from: nat)
    | New(from: nat)
    | Cas(own: nat, from: nat)
    | Lost(own: nat, seen: nat, from: nat)
    | ResetNew
    | Swap(own: nat)
  {
    /** The thread owns an allocation nobody else can reach. */
    predicate Owns(id: nat) {
      (Cas? || Lost? || Swap?) && own == id
    }
  }

  /** A finished `mutex` call: what it returned, and how many resets had happened at its two ends. */
  datatype Answer = Answer(id: nat, from: nat, to: nat)

  /** `owners[e]` is the mutex published between reset `e` and the next one. */
  datatype Sys = Sys(ptr: Option<nat>, next: nat, freed: set<nat>, threads: map<nat, Pc>, owners: seq<Option<nat>>, answers: seq<Answer>)
  {
    function At(t: nat): Pc {
      if t in threads then threads[t] else Idle
    }

    function Go(t: nat, pc: Pc): Sys {
      this.(threads := threads[t := pc])
    }

    function Resets(): nat
      requires owners != []
    {
      |owners| - 1
    }

    function Return(t: nat, id: nat, from: nat): Sys
      requires owners != []
    {
      Go(t, Idle).(answers := answers + [Answer(id, from, Resets())])
    }
  }

  datatype Action =
    | Call(t: nat)
    | Reset(t: nat)
    | Move(t: nat)
    | Fork(t: nat)     // go on in the child, where only `t` is left

  function Step(s: Sys, t: nat): (r: Sys)
    requires s.owners != []
    ensures r.owners != []
  {
    match s.At(t)
    case Idle => s
    case Load(from) => if s.ptr.Some? then s.Return(t, s.ptr.value, from) else s.Go(t, New(from))
    case New(from) => s.Go(t, Cas(s.next, from)).(next := s.next + 1)
    case Cas(own, from) =>
      if s.ptr.None? then s.Return(t, own, from).(ptr := Some(own), owners := s.owners[s.Resets() := Some(own)])
      else s.Go(t, Lost(own, s.ptr.value, from))
    case Lost(own, seen, from) => s.Return(t, seen, from).(freed := s.freed + {own})
    case ResetNew => s.Go(t, Swap(s.next)).(next := s.next + 1)
    case Swap(own) => s.Go(t, Idle).(ptr := Some(own), owners := s.owners + [Some(own)])
  }

  function Do(s: Sys, a: Action): (r: Sys)
    requires s.owners != []
    ensures r.owners != []
  {
    match a
    case Call(t) => if s.At(t).Idle? then s.Go(t, Load(s.Resets())) else s
    case Reset(t) => if s.At(t).Idle? then s.Go(t, ResetNew) else s
    case Move(t) => Step(s, t)
    case Fork(t) => s.(threads := map[t := s.At(t)])
  }

  function Run(actions: seq<Action>): (s: Sys)
    ensures s.owners != []
    decreases |actions|
  {
    if actions == [] then Sys(None, 0, {}, map[], [None], [])
    else Do(Run(actions[..|actions| - 1]), actions[|actions| - 1])
  }

  // ---- The invariant ----

  /** `id` was the published mutex at some time between two numbers of resets. */
  ghost predicate Published(owners: seq<Option<nat>>, id: nat, from: nat, to: nat) {
    exists e :: from <= e <= to && e < |owners| && owners[e] == Some(id)
  }

  ghost predicate Unreachable(s: Sys, id: nat) {
    id < s.next && id !in s.freed && Some(id) !in s.owners
  }

  ghost predicate PcOk(s: Sys, pc: Pc)
    requires s.owners != []
  {
    && (pc.Load? || pc.New? || pc.Cas? || pc.Lost? ==> pc.from <= s.Resets())
    && (pc.Cas? || pc.Lost? || pc.Swap? ==> Unreachable(s, pc.own))
    && (pc.Lost? ==> Published(s.owners, pc.seen, pc.from, s.Resets()))
  }

  ghost predicate Inv(s: Sys) {
    && s.owners != []
    && s.ptr == s.owners[s.Resets()]
    && (forall e | 0 < e < |s.owners| :: s.owners[e].Some?)
    && (forall d, e | 0 <= d < e < |s.owners| :: s.owners[d].Some? ==> s.owners[d] != s.owners[e])
    && (forall o | o in s.owners && o.Some? :: o.value < s.next && o.value !in s.freed)
    && (forall id | id in s.freed :: id < s.next)
    && (forall t | t in s.threads :: PcOk(s, s.threads[t]))
    && (forall t, u, id | t in s.threads && u in s.threads && s.threads[t].Owns(id) && s.threads[u].Owns(id) :: t == u)
    && (forall a | a in s.answers :: a.to <= s.Resets() && Published(s.owners, a.id, a.from, a.to))
  }

  /** A thread moves on without allocating, publishing or freeing. */
  lemma {:induction false} GoKeeps(s: Sys, t: nat, pc: Pc)
    requires Inv(s) && PcOk(s, pc) && forall id | pc.Owns(id) :: s.At(t).Owns(id)
    ensures Inv(s.Go(t, pc))
  {
    var r := s.Go(t, pc);
    forall u | u in r.threads
      ensures PcOk(r, r.threads[u])
    {
      if u != t { assert PcOk(s, s.threads[u]); }
    }
  }

  lemma {:induction false} AnswerKeeps(s: Sys, id: nat, from: nat)
    requires Inv(s) && from <= s.Resets() && Published(s.owners, id, from, s.Resets())
    ensures Inv(s.(answers := s.answers + [Answer(id, from, s.Resets())]))
  {
    var r := s.(answers := s.answers + [Answer(id, from, s.Resets())]);
    forall u | u in r.threads
      ensures PcOk(r, r.threads[u])
    {
      assert PcOk(s, s.threads[u]);
    }
  }

  lemma {:induction false} AllocKeeps(s: Sys, t: nat, pc: Pc)
    requires Inv(s) && pc.Owns(s.next) && ((pc.Cas? && pc.from <= s.Resets()) || pc.Swap?)
    ensures Inv(s.Go(t, pc).(next := s.next + 1))
  {
    var r := s.Go(t, pc).(next := s.next + 1);
    forall u | u in r.threads
      ensures PcOk(r, r.threads[u]) && (u != t ==> !r.threads[u].Owns(s.next))
    {
      if u != t { assert PcOk(s, s.threads[u]); }
    }
  }

  lemma {:induction false} FreeKeeps(s: Sys, t: nat, own: nat)
    requires Inv(s) && s.At(t).Owns(own)
    ensures Inv(s.Go(t, Idle).(freed := s.freed + {own}))
  {
    assert PcOk(s, s.At(t));
    var r := s.Go(t, Idle).(freed := s.freed + {own});
    forall u | u in r.threads
      ensures PcOk(r, r.threads[u])
    {
      if u != t {
        assert PcOk(s, s.threads[u]);
        assert !s.threads[u].Owns(own);
      }
    }
  }

  /** What was published before stays published when the owners only grow. */
  lemma Republished(owners: seq<Option<nat>>, more: seq<Option<nat>>, id: nat, from: nat, to: nat, to2: nat)
    requires Published(owners, id, from, to) && to <= to2
    requires |owners| <= |more| && forall e | 0 <= e < |owners| :: owners[e].Some? ==> more[e] == owners[e]
    ensures Published(more, id, from, to2)
  {
    var e :| from <= e <= to && e < |owners| && owners[e] == Some(id);
    assert more[e] == Some(id);
  }

  /** The owners after `own` was published: first in its epoch, or by a reset. */
  ghost predicate Publishes(owners: seq<Option<nat>>, more: seq<Option<nat>>, own: nat)
    requires owners != []
  {
    || (owners[|owners| - 1].None? && more == owners[|owners| - 1 := Some(own)])
    || more == owners + [Some(own)]
  }

  lemma {:induction false} PublishKeeps(s: Sys, t: nat, own: nat, more: seq<Option<nat>>)
    requires Inv(s) && s.At(t).Owns(own) && Publishes(s.owners, more, own)
    ensures Inv(s.Go(t, Idle).(ptr := Some(own), owners := more))
  {
    assert PcOk(s, s.At(t));
    var r := s.Go(t, Idle).(ptr := Some(own), owners := more);
    assert forall e | 0 <= e < |more| :: (e < |s.owners| && more[e] == s.owners[e]) || (more[e] == Some(own) && e == |more| - 1);
    assert forall e | 0 <= e < |s.owners| :: s.owners[e] in s.owners && s.owners[e] != Some(own);
    forall u | u in r.threads
      ensures PcOk(r, r.threads[u])
    {
      if u != t {
        var pc := s.threads[u];
        assert PcOk(s, pc);
        assert !pc.Owns(own);
        if pc.Lost? { Republished(s.owners, more, pc.seen, pc.from, s.Resets(), r.Resets()); }
      }
    }
    forall a | a in s.answers
      ensures a.to <= r.Resets() && Published(more, a.id, a.from, a.to)
    {
      Republished(s.owners, more, a.id, a.from, a.to, a.to);
    }
  }

  lemma {:induction false} CasKeeps(s: Sys, t: nat, own: nat, from: nat)
    requires Inv(s) && s.At(t) == Cas(own, from)
    ensures Inv(Step(s, t))
  {
    assert PcOk(s, s.At(t)) && s.At(t).Owns(own);
    if s.ptr.None? {
      var more := s.owners[s.Resets() := Some(own)];
      PublishKeeps(s, t, own, more);
      assert more[s.Resets()] == Some(own);
      AnswerKeeps(s.Go(t, Idle).(ptr := Some(own), owners := more), own, from);
    } else {
      assert s.owners[s.Resets()] == Some(s.ptr.value);
      GoKeeps(s, t, Lost(own, s.ptr.value, from));
    }
  }

  lemma {:induction false} LoadKeeps(s: Sys, t: nat, from: nat)
    requires Inv(s) && s.At(t) == Load(from)
    ensures Inv(Step(s, t))
  {
    assert PcOk(s, s.At(t));
    if s.ptr.Some? {
      assert s.owners[s.Resets()] == Some(s.ptr.value);
      GoKeeps(s, t, Idle);
      AnswerKeeps(s.Go(t, Idle), s.ptr.value, from);
    } else {
      GoKeeps(s, t, New(from));
    }
  }

  lemma {:induction false} LostKeeps(s: Sys, t: nat, own: nat, seen: nat, from: nat)
    requires Inv(s) && s.At(t) == Lost(own, seen, from)
    ensures Inv(Step(s, t))
  {
    assert PcOk(s, s.At(t)) && s.At(t).Owns(own);
    FreeKeeps(s, t, own);
    AnswerKeeps(s.Go(t, Idle).(freed := s.freed + {own}), seen, from);
  }

  lemma {:induction false} StepKeepsInv(s: Sys, t: nat)
    requires Inv(s)
    ensures Inv(Step(s, t))
  {
    var pc := s.At(t);
    assert PcOk(s, pc);
    match pc
    case Idle =>
    case Load(from) => LoadKeeps(s, t, from);
    case New(from) => AllocKeeps(s, t, Cas(s.next, from));
    case Cas(own, from) => CasKeeps(s, t, own, from);
    case Lost(own, seen, from) => LostKeeps(s, t, own, seen, from);
    case ResetNew => AllocKeeps(s, t, Swap(s.next));
    case Swap(own) =>
      assert pc.Owns(own);
      PublishKeeps(s, t, own, s.owners + [Some(own)]);
  }

  lemma {:induction false} ForkKeeps(s: Sys, t: nat)
    requires Inv(s)
    ensures Inv(s.(threads := map[t := s.At(t)]))
  {
    assert PcOk(s, s.At(t));
    var r := s.(threads := map[t := s.At(t)]);
    assert PcOk(r, r.threads[t]);
  }

  lemma {:induction false} RunKeepsInv(actions: seq<Action>)
    ensures Inv(Run(actions))
    decreases |actions|
  {
    if actions == [] {
    } else {
      RunKeepsInv(actions[..|actions| - 1]);
      var s := Run(actions[..|actions| - 1]);
      match actions[|actions| - 1]
      case Move(t) => StepKeepsInv(s, t);
      case Call(t) => GoKeeps(s, t, Load(s.Resets()));
      case Reset(t) => GoKeeps(s, t, ResetNew);
      case Fork(t) => ForkKeeps(s, t);
    }
  }

  // ---- What follows for every run ----

  /**
   A call returns a mutex that was the published one at some moment of the call. So calls between the same two
   resets all return one mutex, and no call that begins after a reset returns an older one.
   */
  lemma {:induction false} OneMutexBetweenResets(actions: seq<Action>, a: Answer, b: Answer)
    requires a in Run(actions).answers && b in Run(actions).answers
    ensures Published(Run(actions).owners, a.id, a.from, a.to)
    ensures a.from == a.to == b.from == b.to ==> a.id == b.id
    ensures a.to < b.from ==> a.id != b.id
  {
    RunKeepsInv(actions);
  }

  /** No mutex that was returned is ever freed, and the current one never is. */
  lemma {:induction false} ReturnedIsNeverFreed(actions: seq<Action>)
    ensures var s := Run(actions);
      (forall a | a in s.answers :: a.id !in s.freed) && (s.ptr.Some? ==> s.ptr.value !in s.freed)
  {
    RunKeepsInv(actions);
    var s := Run(actions);
    forall a | a in s.answers
      ensures a.id !in s.freed
    {
      var e :| a.from <= e <= a.to && e < |s.owners| && s.owners[e] == Some(a.id);
      assert s.owners[e] in s.owners;
    }
  }

  /** Whoever frees an allocation made it, lost the race with it, never published it, and frees it once. */
  lemma {:induction false} LoserFreesItsOwn(actions: seq<Action>, action: Action, id: nat)
    requires id in Do(Run(actions), action).freed - Run(actions).freed
    ensures var s := Run(actions);
      && action.Move? && s.At(action.t).Lost? && s.At(action.t).own == id
      && Some(id) !in s.owners && (forall a | a in s.answers :: a.id != id)
      && forall u | u in s.threads && s.threads[u].Owns(id) :: u == action.t
  {
    RunKeepsInv(actions);
    var s := Run(actions);
    assert s.At(action.t).Owns(id) && PcOk(s, s.At(action.t));
    forall a | a in s.answers
      ensures a.id != id
    {
      var e :| a.from <= e <= a.to && e < |s.owners| && s.owners[e] == Some(a.id);
      assert s.owners[e] in s.owners;
    }
  }

  /** Once the pointer is set it stays set, whatever happens later. */
  lemma {:induction false} NeverNullAgain(actions: seq<Action>, more: seq<Action>)
    requires Run(actions).ptr.Some?
    ensures Run(actions + more).ptr.Some?
    decreases |more|
  {
    if more == [] {
      assert actions + more == actions;
    } else {
      NeverNullAgain(actions, more[..|more| - 1]);
      assert (actions + more)[..|actions + more| - 1] == actions + more[..|more| - 1];
    }
  }

  /** A reset publishes a mutex no call ever returned: the contents the child sees are fresh. */
  lemma {:induction false} ResetGivesFresh(actions: seq<Action>, t: nat)
    requires Run(actions).At(t).Swap?
    ensures var r := Do(Run(actions), Move(t)); r.ptr.Some? && forall a | a in Run(actions).answers :: a.id != r.ptr.value
  {
    RunKeepsInv(actions);
    var s := Run(actions);
    assert PcOk(s, s.At(t));
    forall a | a in s.answers
      ensures a.id != s.At(t).own
    {
      var e :| a.from <= e <= a.to && e < |s.owners| && s.owners[e] == Some(a.id);
      assert s.owners[e] in s.owners;
    }
  }

  // ---- Getting on ----

  /** How many own steps a thread still does at most. */
  function StepsLeft(pc: Pc): nat {
    match pc
    case Idle => 0
    case Load(_) => 4
    case New(_) => 3
    case Cas(_, _) => 2
    case Lost(_, _, _) => 1
    case ResetNew => 2
    case Swap(_) => 1
  }

  ghost function OwnMoves(more: seq<Action>, t: nat): nat {
    if more == [] then 0 else OwnMoves(more[..|more| - 1], t) + if more[|more| - 1] == Move(t) then 1 else 0
  }

  ghost function After(s: Sys, more: seq<Action>): (r: Sys)
    requires s.owners != []
    ensures r.owners != []
    decreases |more|
  {
    if more == [] then s else Do(After(s, more[..|more| - 1]), more[|more| - 1])
  }

  /** The thread stays in its call. */
  ghost predicate Stays(s: Sys, more: seq<Action>, t: nat)
    requires s.owners != []
    decreases |more|
  {
    !After(s, more).At(t).Idle? && (more != [] ==> Stays(s, more[..|more| - 1], t))
  }

  lemma {:induction false} StaysShort(s: Sys, more: seq<Action>, t: nat)
    requires s.owners != [] && Stays(s, more, t)
    ensures OwnMoves(more, t) + StepsLeft(After(s, more).At(t)) <= StepsLeft(s.At(t)) && StepsLeft(After(s, more).At(t)) > 0
    decreases |more|
  {
    if more != [] { StaysShort(s, more[..|more| - 1], t); }
  }

  lemma {:induction false} Leaves(s: Sys, more: seq<Action>, t: nat)
    requires s.owners != [] && !Stays(s, more, t)
    ensures exists k: nat :: k <= |more| && After(s, more[..k]).At(t).Idle?
    decreases |more|
  {
    if After(s, more).At(t).Idle? {
      assert more[..|more|] == more;
    } else {
      var n := |more| - 1;
      Leaves(s, more[..n], t);
      var k: nat :| k <= n && After(s, more[..n][..k]).At(t).Idle?;
      assert more[..n][..k] == more[..k];
    }
  }

  /** A call, and a reset, is over after at most four steps of its own: whoever loses a race takes what the winner made. */
  lemma {:induction false} CallsAreShort(s: Sys, t: nat, more: seq<Action>)
    requires s.owners != [] && OwnMoves(more, t) >= 4
    ensures exists k: nat :: k <= |more| && After(Do(s, Call(t)), more[..k]).At(t).Idle?
    ensures exists k: nat :: k <= |more| && After(Do(s, Reset(t)), more[..k]).At(t).Idle?
  {
    if Stays(Do(s, Call(t)), more, t) { StaysShort(Do(s, Call(t)), more, t); } else { Leaves(Do(s, Call(t)), more, t); }
    if Stays(Do(s, Reset(t)), more, t) { StaysShort(Do(s, Reset(t)), more, t); } else { Leaves(Do(s, Reset(t)), more, t); }
  }

  /**
   A call ends with an answer, the current mutex, and a reset with a new current one; nothing else makes answers or
   changes the mutex once there is one.
   */
  lemma {:induction false} EndsWithAnAnswer(actions: seq<Action>, t: nat)
    ensures var s, r := Run(actions), Do(Run(actions), Move(t));
      if !s.At(t).Idle? && r.At(t).Idle? && !s.At(t).Swap? then
        && |r.answers| == |s.answers| + 1 && r.answers[..|s.answers|] == s.answers && r.owners[..|s.owners| - 1] == s.owners[..|s.owners| - 1]
        && |r.owners| == |s.owners| && (s.ptr.Some? ==> r.ptr == s.ptr) && r.ptr.Some?
        && (!s.At(t).Lost? ==> r.answers[|s.answers|].id == r.ptr.value)
      else r.answers == s.answers && (!s.At(t).Swap? ==> r.ptr == s.ptr && r.owners == s.owners)
    ensures var s, r := Run(actions), Do(Run(actions), Move(t));
      s.At(t).Load? && s.ptr.Some? ==> r.At(t).Idle? && r.next == s.next
    ensures var s, r := Run(actions), Do(Run(actions), Move(t));
      s.At(t).Swap? ==> r.At(t).Idle? && r.owners == s.owners + [r.ptr] && r.ptr != s.ptr
  {
    RunKeepsInv(actions);
    var s := Run(actions);
    if s.At(t).Swap? { assert PcOk(s, s.At(t)) && s.ptr in s.owners; }
  }
}
