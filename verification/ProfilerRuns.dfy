/** What holds in every run of the profiler: any calls, any interleaving, any forks. */
module ProfilerRuns {
  import opened Basics
  import opened Lifecycle
  import opened LifecycleSafety
  import opened Fork
  import opened ForkSafety

  ghost predicate Ok(p: Process) {
    match p
    case Live(s) => Inv(s)
    case Forked(c) => ChildOk(c)
  }

  lemma {:induction false} DoKeeps(p: Process, a: Action)
    requires Ok(p)
    ensures Ok(Do(p, a))
  {
    match p
    case Live(s) => LiveKeeps(s, a);
    case Forked(c) => if a.ChildMove? { ChildKeeps(c, a.text, a.frames); }
  }

  lemma {:induction false} LiveKeeps(s: Sys, a: Action)
    requires Inv(s)
    ensures Ok(Do(Live(s), a))
  {
    match a
    case Call(n, call) => EnterKeepsInv(s, n, call);
    case Move(t, choice) => StepKeeps(s, t, choice);
    case ForkBy(n) => if Gil !in s.locks && s.Finished(Py(n)) { ForkIsOk(s, n); }
    case _ =>
  }

  lemma {:induction false} ChildKeeps(c: Child, text: string, frames: seq<Handle>)
    requires ChildOk(c)
    ensures Ok(Do(Forked(c), ChildMove(text, frames)))
  {
    if c.todo == [] && c.hook {
      AdoptedIsOk(c);
    } else if c.CanGoOn() {
      if c.hook { HookKeeps(c, text, frames); } else { AllocationKeeps(c, text, frames); }
    }
  }

  lemma {:induction false} RunKeepsOk(actions: seq<Action>)
    ensures Ok(Run(actions))
    decreases |actions|
  {
    if actions == [] {
      StartIsOk();
    } else {
      RunKeepsOk(actions[..|actions| - 1]);
      DoKeeps(Run(actions[..|actions| - 1]), actions[|actions| - 1]);
    }
  }

  // ---- Interned indices ----

  /**
   Every profile ever emitted resolves: each index in it lies in the string table emitted with it and names
   the string it was handed out for, in whatever window that was. So do the indices still held, and those in
   windows.
   */
  lemma {:induction false} IndicesResolve(actions: seq<Action>, s: Sys)
    requires Run(actions) == Live(s)
    ensures forall e | e in s.emitted :: ValidSamples(e.table, e.samples)
    ensures forall h | h in s.memHandles + s.stackHandles :: ValidHandle(s.table, h)
    ensures forall b :: ValidSamples(s.table, s.Window(b))
  {
    RunKeepsOk(actions);
    Opened(s);
  }

  /** The table is cleared only once both profilers are stopped, nothing holds an index, and the builders are empty. */
  lemma {:induction false} ClearedWhenUnused(actions: seq<Action>, s: Sys, t: Tid)
    requires Run(actions) == Live(s) && Enabled(s, t) && s.threads[t].prog.i.ClearTable?
    ensures !s.memActive && s.memHandles == {} && s.stackHandles == {}
    ensures s.Finished(StackT(s.gen)) && s.Finished(AgentT(s.gen))
    ensures forall b :: s.Window(b) == []
  {
    RunKeepsOk(actions);
    Opened(s);
    assert ThreadOk(s, t, s.threads[t]);
    BodyFacts(s, t);
    forall b
      ensures s.Window(b) == []
    {
      if b in s.windows { assert IsBuilder(b); }
    }
  }

  // ---- Fork ----

  /** The fork hook has a new table in place of the inherited one. */
  predicate TableReplaced(c: Child) {
    c.hook && |c.todo| <= |HOOK| - 4
  }

  /**
   In the child, what is in a window or was emitted resolves at every point. What the profilers hold resolves
   until the hook has replaced the table; from then on it is the index of the empty string or stale, and by then
   all windows are empty and stay so.
   */
  lemma {:induction false} IndicesResolveInChild(actions: seq<Action>, c: Child)
    requires Run(actions) == Forked(c)
    ensures forall e | e in c.sys.emitted :: ValidSamples(e.table, e.samples)
    ensures forall b :: ValidSamples(c.sys.table, c.sys.Window(b))
    ensures forall h | h in c.sys.memHandles + c.sys.stackHandles :: ValidHandle(c.sys.table, h) <==> !TableReplaced(c) || h == (0, "")
    ensures TableReplaced(c) ==> c.sys.table == [""] && forall b :: c.sys.Window(b) == []
  {
    RunKeepsOk(actions);
    if TableReplaced(c) { NothingLeft(c.sys); }
  }

  /** A fork by `n`, and then the first `i` operations of the hook. */
  function InHook(actions: seq<Action>, n: nat, i: nat): seq<Action> {
    if i == 0 then actions + [ForkBy(n)] + [RunHook] else InHook(actions, n, i - 1) + [NEXT]
  }

  const NEXT := ChildMove("", [])

  /** What the profilers held at the fork they hold in the hook until they are stopped. */
  ghost predicate StillHolds(p: Process, s: Sys, i: nat) {
    && i <= |HOOK| && p.Forked? && p.c.hook && p.c.todo == HOOK[i..]
    && (i <= 4 ==> p.c.sys.memHandles == s.memHandles) && (i <= 8 ==> p.c.sys.stackHandles == s.stackHandles)
  }

  lemma {:induction false} HoldsOn(p: Process, s: Sys, i: nat)
    requires StillHolds(p, s, i) && i < 8 && p.c.CanGoOn()
    ensures StillHolds(Do(p, NEXT), s, i + 1)
  {
    SplitFirst(HOOK, i);
    assert p.c.todo[0] == HOOK[i] && p.c.todo[1..] == HOOK[i + 1..];
    assert !HOOK[i].StopSampler? && (i < 4 ==> HOOK[i].Forget?);
    ForgettingHolds(p.c.sys, p.c.n, HOOK[i]);
  }

  lemma ForgettingHolds(s: Sys, n: nat, i: ChildInstr)
    requires !i.StopSampler?
    ensures ChildDoes(s, n, i, "", []).stackHandles == s.stackHandles
    ensures i.Forget? ==> ChildDoes(s, n, i, "", []).memHandles == s.memHandles
  {
  }

  lemma {:induction false} HeldInTheHook(actions: seq<Action>, s: Sys, n: nat, i: nat)
    requires Run(actions) == Live(s) && Gil !in s.locks && s.Finished(Py(n)) && i <= 8
    ensures StillHolds(Run(InHook(actions, n, i)), s, i)
    decreases i
  {
    if i == 0 {
      HookBegins(actions, s, n);
    } else {
      HeldInTheHook(actions, s, n, i - 1);
      HookGoesOn(InHook(actions, n, i - 1), s, i - 1);
    }
  }

  lemma {:induction false} HookBegins(actions: seq<Action>, s: Sys, n: nat)
    requires Run(actions) == Live(s) && Gil !in s.locks && s.Finished(Py(n))
    ensures StillHolds(Run(actions + [ForkBy(n)] + [RunHook]), s, 0)
  {
    RunOn(actions, ForkBy(n));
    RunOn(actions + [ForkBy(n)], RunHook);
    HookStarts(s, n);
  }

  lemma HookStarts(s: Sys, n: nat)
    ensures StillHolds(Do(Forked(ChildOf(s, n)), RunHook), s, 0)
  {
    assert HOOK[0..] == HOOK;
  }

  lemma {:induction false} HookGoesOn(actions: seq<Action>, s: Sys, i: nat)
    requires i < 8 && StillHolds(Run(actions), s, i)
    ensures StillHolds(Run(actions + [NEXT]), s, i + 1)
  {
    HookNeverWaits(actions, Run(actions).c);
    HoldsOn(Run(actions), s, i);
    RunOn(actions, NEXT);
  }

  /**
   So an index that a profiler holds at a fork is stale in the child from the moment the table is replaced until
   the hook stops that profiler: the memory profiler next, the stack sampler four operations later.
   */
  lemma {:induction false} StaleUntilStopped(actions: seq<Action>, s: Sys, n: nat, i: nat, h: Handle)
    requires Run(actions) == Live(s) && Gil !in s.locks && s.Finished(Py(n)) && h.1 != ""
    requires (h in s.memHandles && i == 4) || (h in s.stackHandles && 4 <= i <= 8)
    ensures HOOK[4] == StopMemory && HOOK[8] == StopSampler
    ensures var p := Run(InHook(actions, n, i));
      && p.Forked? && p.c.todo == HOOK[i..]
      && h in p.c.sys.memHandles + p.c.sys.stackHandles && !ValidHandle(p.c.sys.table, h)
  {
    HeldInTheHook(actions, s, n, i);
    IndicesResolveInChild(InHook(actions, n, i), Run(InHook(actions, n, i)).c);
  }

  lemma RunOn(actions: seq<Action>, a: Action)
    ensures Run(actions + [a]) == Do(Run(actions), a)
  {
    assert (actions + [a])[..|actions|] == actions;
  }

  /** The hook never waits: each lock it takes it has replaced before. */
  lemma {:induction false} HookNeverWaits(actions: seq<Action>, c: Child)
    requires Run(actions) == Forked(c) && c.hook && c.todo != []
    ensures c.CanGoOn()
  {
    RunKeepsOk(actions);
    NoWaitInHook(c);
  }

  /** An allocation in the child interns its text and pushes its sample, if it gets to that. */
  lemma {:induction false} AllocationRecords(actions: seq<Action>, c: Child, text: string, frames: seq<Handle>)
    requires Run(actions) == Forked(c) && c.CanGoOn() && !c.hook
    ensures var d := ChildStep(c, text, frames);
      && d.todo == c.todo[1..] && c.sys.table <= d.sys.table
      && (c.todo[0] == InternSample ==> HandleFor(c.sys.table, text) in d.sys.memHandles && ValidHandle(d.sys.table, HandleFor(c.sys.table, text)))
      && (c.todo[0] == PushSample && (forall h | h in frames :: h in c.sys.memHandles)
          ==> d.sys.Window(MemB) == c.sys.Window(MemB) + [frames])
  {
    RunKeepsOk(actions);
    InternedGrows(c.sys.table, text);
    TodoNext(ALLOCATION, c.todo);
  }

  /** Every operation of the hook brings the child nearer to the end of the hook, and then it is a process like another. */
  lemma {:induction false} HookGetsOn(actions: seq<Action>, c: Child, text: string, frames: seq<Handle>)
    requires Run(actions) == Forked(c) && c.hook
    ensures match Do(Forked(c), ChildMove(text, frames))
      case Live(_) => c.todo == []
      case Forked(d) => c.todo != [] && d.hook && d.todo == c.todo[1..]
  {
    if c.todo != [] { HookNeverWaits(actions, c); }
  }

  /** What `more` leads to from `p`. */
  ghost function After(p: Process, more: seq<Action>): Process
    decreases |more|
  {
    if more == [] then p else Do(After(p, more[..|more| - 1]), more[|more| - 1])
  }

  lemma {:induction false} RunAfter(actions: seq<Action>, more: seq<Action>)
    ensures Run(actions + more) == After(Run(actions), more)
    decreases |more|
  {
    if more == [] {
      assert actions + more == actions;
    } else {
      var front, last := more[..|more| - 1], more[|more| - 1];
      RunAfter(actions, front);
      SplitLast(more);
      Associative(actions, front, [last]);
      RunOn(actions + front, last);
    }
  }

  /** The child does `more` before its hook is over. */
  ghost predicate InChild(c: Child, more: seq<Action>)
    decreases |more|
  {
    After(Forked(c), more).Forked? && (more != [] ==> InChild(c, more[..|more| - 1]))
  }

  lemma {:induction false} ChildStepEmitsNothing(c: Child, a: Action)
    ensures match Do(Forked(c), a)
      case Live(s) => s.emitted == c.sys.emitted
      case Forked(d) => d.sys.emitted == c.sys.emitted
  {
  }

  lemma {:induction false} ChildEmitsNothing(c: Child, more: seq<Action>)
    requires InChild(c, more)
    ensures After(Forked(c), more).c.sys.emitted == c.sys.emitted
    decreases |more|
  {
    if more != [] {
      var front := more[..|more| - 1];
      ChildEmitsNothing(c, front);
      ChildStepEmitsNothing(After(Forked(c), front).c, more[|more| - 1]);
    }
  }

  /**
   After the hook the child is idle: no profiler, no index, empty builders, a fresh table, no thread and no lock.
   It has emitted nothing since the fork.
   */
  lemma {:induction false} ChildStartsFresh(before: seq<Action>, s0: Sys, n: nat, more: seq<Action>, a: Action, s: Sys)
    requires Run(before) == Live(s0) && Gil !in s0.locks && s0.Finished(Py(n)) && InChild(ChildOf(s0, n), more)
    requires Run(before + [ForkBy(n)] + more + [a]) == Live(s)
    ensures s.agent == Idle && !s.memActive && s.memHandles == {} && s.stackHandles == {} && s.table == [""]
    ensures (forall b :: s.Window(b) == []) && s.locks == map[] && (forall t :: s.Finished(t))
    ensures s.emitted == s0.emitted && s.runs == s.stops == 0
  {
    var actions := before + [ForkBy(n)] + more;
    RunOn(before, ForkBy(n));
    RunAfter(before + [ForkBy(n)], more);
    RunOn(actions, a);
    RunKeepsOk(actions);
    ChildEmitsNothing(ChildOf(s0, n), more);
    Adopts(Run(actions).c, a, s);
    ChildStepEmitsNothing(Run(actions).c, a);
  }

  lemma {:induction false} Adopts(c: Child, a: Action, s: Sys)
    requires ChildOk(c) && Do(Forked(c), a) == Live(s)
    ensures s.agent == Idle && !s.memActive && s.memHandles == {} && s.stackHandles == {} && s.table == [""]
    ensures (forall b :: s.Window(b) == []) && s.locks == map[] && (forall t :: s.Finished(t)) && s.runs == s.stops == 0
  {
    NothingLeft(c.sys);
    forall r
      ensures r !in s.locks
    {
      match r
      case Gil => case StateLock => case Table => case MemB => case StackB => case OnCpuB => case Buf =>
    }
  }

  // ---- Allocating in the child before its hook has run ----

  /** The thread stands before a lock that nobody will give back. */
  ghost predicate Hangs(p: Process) {
    p.Forked? && p.c.todo != [] && !p.c.CanGoOn()
  }

  /**
   Before the hook, an allocation waits exactly for an orphaned string table; a builder lock it needs is never
   orphaned. And it waits for good: whatever happens, the child stays where it is.
   */
  lemma {:induction false} HangsOnOrphanedTable(actions: seq<Action>, c: Child, a: Action)
    requires Run(actions) == Forked(c) && c.todo != []
    ensures Hangs(Forked(c)) <==> c.todo[0] == Take(Table) && Table in c.sys.locks && !c.hook
    ensures Hangs(Forked(c)) ==> c.sys.locks[Table] != Py(c.n) && Do(Forked(c), a) == Forked(c)
  {
    RunKeepsOk(actions);
    if c.hook { NoWaitInHook(c); } else { WaitInAllocation(c); }
  }

  lemma {:induction false} NoWaitInHook(c: Child)
    requires ChildOk(c) && c.hook && c.todo != []
    ensures c.CanGoOn()
  {
    TodoNext(HOOK, c.todo);
    TakesInHook(|HOOK| - |c.todo|);
  }

  /** Which locks the hook takes, and when. */
  lemma TakesInHook(i: nat)
    requires i < |HOOK|
    ensures HOOK[i].Take? ==>
      (i == 5 && HOOK[i].r == MemB) || (i == 9 && HOOK[i].r == StackB) || (i == 12 && HOOK[i].r == OnCpuB) || (i == 15 && HOOK[i].r == Table)
  {
  }

  lemma {:induction false} WaitInAllocation(c: Child)
    requires ChildOk(c) && !c.hook && c.todo != []
    ensures !c.CanGoOn() <==> c.todo[0] == Take(Table) && Table in c.sys.locks
    ensures !c.CanGoOn() ==> Table !in c.held && c.sys.locks[Table] != Py(c.n)
  {
    TodoNext(ALLOCATION, c.todo);
  }

  /** So a sampled allocation hangs if and only if the table was locked at the fork and memory was being profiled. */
  lemma {:induction false} AllocationHangs(actions: seq<Action>, s: Sys, n: nat)
    requires Run(actions) == Live(s) && Gil !in s.locks && s.Finished(Py(n))
    ensures Hangs(Run(actions + [ForkBy(n), Allocate])) <==> s.memActive && Table in s.locks
  {
    RunOn(actions, ForkBy(n));
    RunOn(actions + [ForkBy(n)], Allocate);
    assert actions + [ForkBy(n)] + [Allocate] == actions + [ForkBy(n), Allocate];
  }

  // ---- Calls ----

  /**
   Committed runs minus claimed stops is one exactly while the agent runs, and zero otherwise. At most one call
   is between its claim and its commit. An idle agent has no background thread, no profiler, empty builders and
   a fresh table, whether the last call was a stop or a run that failed.
   */
  lemma {:induction false} CallsAreAccounted(actions: seq<Action>, s: Sys)
    requires Run(actions) == Live(s)
    ensures s.runs - s.stops == if s.agent.Running? then 1 else 0
    ensures forall t, u | t in s.threads && u in s.threads && s.threads[t].body && s.threads[u].body :: t == u
    ensures (exists t :: t in s.threads && s.threads[t].body) <==> s.agent == Busy
    ensures s.agent == Idle ==>
      && (forall t: Tid | !t.Py? :: s.Finished(t))
      && !s.memActive && s.Window(MemB) == [] && s.Window(StackB) == [] && s.Window(OnCpuB) == []
      && s.table == [""]
  {
    RunKeepsOk(actions);
    Opened(s);
    if s.agent == Idle { AllFinished(s); }
    forall t | t in s.threads && s.threads[t].body
      ensures s.agent == Busy
    {
      BodyFacts(s, t);
    }
  }

  // ---- Sessions ----

  /**
   The channel is first in, first out and never longer than its capacity; `Kill` is the last thing sent, and
   the session thread ends only by receiving it. What was received before is what was pushed, each once.
   */
  lemma {:induction false} SessionsInOrder(actions: seq<Action>, s: Sys)
    requires Run(actions) == Live(s)
    ensures s.sent == s.received + s.channel && |s.channel| <= CAPACITY
    ensures forall i | 0 <= i < |s.sent| && s.sent[i] == Kill :: i == |s.sent| - 1
    ensures SessionT(s.gen) in s.threads ==> (s.Finished(SessionT(s.gen)) <==> Kill in s.received)
  {
    RunKeepsOk(actions);
    Opened(s);
    if SessionT(s.gen) in s.threads { assert ThreadOk(s, SessionT(s.gen), s.threads[SessionT(s.gen)]); }
  }

  /** When `stop` is about to leave the agent idle, every session that was sent has been received. */
  lemma {:induction false} StopAfterDelivery(actions: seq<Action>, s: Sys, t: Tid)
    requires Run(actions) == Live(s) && Enabled(s, t) && s.threads[t].prog.i == Commit(Idle)
    ensures SessionT(s.gen) in s.threads ==> s.received == s.sent && s.sent != [] && s.sent[|s.sent| - 1] == Kill
    ensures forall u: Tid | !u.Py? :: s.Finished(u)
  {
    RunKeepsOk(actions);
    Opened(s);
    assert ThreadOk(s, t, s.threads[t]);
    BodyFacts(s, t);
    EverybodyGone(s, s.threads[t].facts);
    if SessionT(s.gen) in s.threads { AllReceived(s); }
  }

  lemma {:induction false} AllReceived(s: Sys)
    requires Channel(s) && SessionT(s.gen) in s.threads && s.Finished(SessionT(s.gen))
    ensures s.received == s.sent && s.sent != [] && s.sent[|s.sent| - 1] == Kill
  {
    AllDelivered(s.sent, s.received, s.channel);
  }

  lemma {:induction false} EverybodyGone(s: Sys, f: Facts)
    requires Threads(s) && FactsOk(s, f) && f.tableFresh && f.sessionJoined && f.signalJoined && f.clientJoined
    ensures forall u: Tid | !u.Py? :: s.Finished(u)
  {
    forall u: Tid | !u.Py?
      ensures s.Finished(u)
    {
      if u in s.threads { assert ThreadOk(s, u, s.threads[u]); }
    }
  }

  lemma AllDelivered(sent: seq<Msg>, received: seq<Msg>, channel: seq<Msg>)
    requires sent == received + channel && Kill in received && forall i | 0 <= i < |sent| - 1 :: sent[i] != Kill
    ensures received == sent && sent != [] && sent[|sent| - 1] == Kill
  {
    var i :| 0 <= i < |received| && received[i] == Kill;
    assert sent[i] == Kill;
    assert |channel| == 0;
  }

  // ---- Waiting with a lock in hand ----

  /** The next operation waits for another thread, not for a lock. */
  predicate Waits(th: Thread) {
    th.prog != Done && (th.prog.i.Join? || th.prog.i.Send? || th.prog.i.Loop?)
  }

  /**
   A thread that joins, sends or waits for work holds no lock, but for one case: a run that builds its client
   joins the client thread with the GIL in its hands, and with nothing else.
   */
  lemma {:induction false} LocksHeldWhileWaiting(actions: seq<Action>, s: Sys, t: Tid)
    requires Run(actions) == Live(s) && t in s.threads && Waits(s.threads[t])
    ensures s.threads[t].held == if s.threads[t].prog.i == Join(ClientT(s.gen)) then {Gil} else {}
    ensures forall r :: r in s.threads[t].held <==> r in s.locks && s.locks[r] == t
    ensures s.threads[t].prog.i == Join(ClientT(s.gen)) ==> t.Py? && s.threads[t].body && s.agent == Busy
  {
    RunKeepsOk(actions);
    Opened(s);
    assert ThreadOk(s, t, s.threads[t]);
  }

  /** The client thread takes no lock, joins nobody, sends nothing, and can always go on. */
  lemma {:induction false} ClientNeedsNobody(actions: seq<Action>, s: Sys, g: nat)
    requires Run(actions) == Live(s) && ClientT(g) in s.threads
    ensures var th := s.threads[ClientT(g)];
      && (th.prog == CLIENT || th.prog == Done) && th.held == {} && (th.prog != Done ==> Enabled(s, ClientT(g)))
  {
    RunKeepsOk(actions);
    Opened(s);
    assert ThreadOk(s, ClientT(g), s.threads[ClientT(g)]);
  }

  // ---- Deadlock freedom ----

  /**
   No deadlock: whatever thread is inside a run, a stop, a snapshot, a hook or a push, the threads it waits for,
   one after the other, end in one that can take its next step.
   */
  lemma {:induction false} NobodyWaitsForever(actions: seq<Action>, s: Sys, t: Tid)
    requires Run(actions) == Live(s) && !s.Finished(t) && !AwaitsWork(s, t)
    ensures exists path :: WaitChain(s, path) && path[0] == t
  {
    RunKeepsOk(actions);
    Opened(s);
    var path := ChainFrom(s, t);
  }
}
