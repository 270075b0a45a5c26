/**
 Why a call that waits for a background thread does not wait for good: whoever is joined has been told to end, and a
 thread that has been told ends after a bounded number of its own operations, whatever all others do.
 */
module Endings {
  import opened Lifecycle
  import opened LifecycleSafety
  import opened Fork
  import opened ForkSafety
  import opened ProfilerRuns
  import opened Calls
  import opened Deliveries

  // ---- Whoever is joined was told ----

  predicate Background(u: Tid) {
    u.AgentT? || u.SignalT? || u.StackT?
  }

  /** Every background thread the program joins was told to quit before. */
  ghost predicate TellsFirst(prog: Program, told: set<Tid>)
    decreases prog
  {
    match prog
    case Done => true
    case Then(i, k) =>
      match i
      case Join(u) => (Background(u) ==> u in told) && TellsFirst(k, told)
      case Quit(u) => TellsFirst(k, told + {u})
      case Gate(other) => TellsFirst(other, told) && TellsFirst(k, told)
      case _ => TellsFirst(k, told)
  }

  lemma {:induction false} TellsMore(prog: Program, told: set<Tid>, more: set<Tid>)
    requires TellsFirst(prog, told) && told <= more
    ensures TellsFirst(prog, more)
    decreases prog
  {
    match prog
    case Done =>
    case Then(i, k) =>
      match i
      case Quit(u) => TellsMore(k, told + {u}, more + {u});
      case Gate(other) => TellsMore(other, told, more); TellsMore(k, told, more);
      case _ => TellsMore(k, told, more);
  }

  lemma TellsThen(i: Instr, k: Program, told: set<Tid>)
    requires TellsFirst(k, told) && !i.Gate? && (i.Join? ==> !Background(i.u) || i.u in told)
    ensures TellsFirst(Then(i, k), told)
  {
    if i.Quit? { TellsMore(k, told, told + {i.u}); }
  }

  lemma TellsLocked(r: Res, i: Instr, k: Program, told: set<Tid>)
    requires TellsFirst(k, told) && !i.Gate? && !i.Join?
    ensures TellsFirst(Locked(r, i, k), told)
  {
    TellsThen(Release(r), k, told);
    TellsThen(i, Then(Release(r), k), told);
    TellsThen(Acquire(r), Then(i, Then(Release(r), k)), told);
  }

  lemma TellsQuit(u: Tid, k: Program, told: set<Tid>)
    requires TellsFirst(k, told)
    ensures TellsFirst(Then(Quit(u), Then(Join(u), k)), told)
  {
    TellsMore(k, told, told + {u});
    TellsThen(Join(u), k, told + {u});
  }

  lemma TeardownTells(g: nat)
    ensures TellsFirst(Teardown(g), {})
  {
    var ret := Then(Release(Gil), Done);
    assert TellsFirst(ret, {});
    TellsLocked(StateLock, Commit(Idle), ret, {});
    TellsLocked(Table, ClearTable, Finish(Idle), {});
    var table := Locked(Table, ClearTable, Finish(Idle));
    TellsLocked(OnCpuB, Clear(OnCpuB), table, {});
    TellsLocked(StackB, Clear(StackB), Locked(OnCpuB, Clear(OnCpuB), table), {});
    TellsThen(Acquire(Gil), ClearStack(), {});
    TellsQuit(StackT(g), Then(Acquire(Gil), ClearStack()), {});
    TellsThen(Release(Gil), JoinStack(g), {});
    TellsLocked(MemB, Clear(MemB), Then(Release(Gil), JoinStack(g)), {});
    TellsThen(StopMem, Locked(MemB, Clear(MemB), Then(Release(Gil), JoinStack(g))), {});
  }

  lemma StopTells(g: nat)
    ensures TellsFirst(StopBody(g), {})
  {
    TeardownTells(g);
    TellsThen(Acquire(Gil), Teardown(g), {});
    TellsThen(Join(SessionT(g)), Then(Acquire(Gil), Teardown(g)), {});
    TellsThen(Send(g, Kill), Then(Join(SessionT(g)), Then(Acquire(Gil), Teardown(g))), {});
    TellsQuit(SignalT(g), KillSession(g), {});
    TellsQuit(AgentT(g), Lifecycle.StopSampler(g), {});
    var quit := Then(Quit(AgentT(g)), Then(Join(AgentT(g)), Lifecycle.StopSampler(g)));
    TellsThen(Release(Gil), quit, {});
    TellsThen(Release(StateLock), Then(Release(Gil), quit), {});
  }

  lemma RunTells(g: nat, c: RunChoice)
    ensures TellsFirst(RunBody(g, c), {})
  {
    TeardownTells(g);
    var ret := Then(Release(Gil), Done);
    assert TellsFirst(ret, {});
    TellsLocked(StateLock, Commit(Running(g)), ret, {});
    TellsThen(Spawn(AgentT(g)), Finish(Running(g)), {});
    TellsThen(Spawn(SessionT(g)), Then(Spawn(AgentT(g)), Finish(Running(g))), {});
    TellsThen(Spawn(SignalT(g)), StartSession(g), {});
    assert TellsFirst(BuildAgent(g, c), {});
    TellsThen(Join(ClientT(g)), BuildAgent(g, c), {});
    TellsThen(Spawn(ClientT(g)), Then(Join(ClientT(g)), BuildAgent(g, c)), {});
    TellsYield(if c.client then BuildClient(g, c) else Teardown(g));
    TellsThen(Spawn(StackT(g)), StartAgent(g, c), {});
    TellsYield(if c.stack then Then(Spawn(StackT(g)), StartAgent(g, c)) else StartAgent(g, c));
    TellsThen(StartMem, StartStack(g, c), {});
    TellsThen(Release(StateLock), if c.mem then Then(StartMem, StartStack(g, c)) else StartStack(g, c), {});
  }

  lemma TellsYield(k: Program)
    requires TellsFirst(k, {})
    ensures TellsFirst(YieldGil(k), {})
  {
    TellsThen(Acquire(Gil), k, {});
    TellsThen(Release(Gil), Then(Acquire(Gil), k), {});
  }

  lemma CallTells(call: Call)
    ensures TellsFirst(match call case RunCall => RUN_CALL case StopCall => STOP_CALL case TagCall => TAG_CALL case HookCall => HOOK_CALL, {})
  {
    var ret := Then(Release(Gil), Done);
    assert TellsFirst(ret, {});
    TellsLocked(StateLock, Local, ret, {});
    TellsThen(Acquire(Gil), Locked(StateLock, Local, ret), {});
    TellsLocked(MemB, Push(MemB), ret, {});
    TellsLocked(Table, Intern(Mem), Locked(MemB, Push(MemB), ret), {});
    assert TellsFirst(Then(Gate(ret), Locked(Table, Intern(Mem), Locked(MemB, Push(MemB), ret))), {});
    assert TellsFirst(Then(ClaimRun, Done), {}) && TellsFirst(Then(ClaimStop, Done), {});
    TellsThen(Acquire(StateLock), Then(ClaimRun, Done), {});
    TellsThen(Acquire(StateLock), Then(ClaimStop, Done), {});
    TellsThen(Acquire(Gil), Then(Acquire(StateLock), Then(ClaimRun, Done)), {});
    TellsThen(Acquire(Gil), Then(Acquire(StateLock), Then(ClaimStop, Done)), {});
  }

  ghost predicate TellsOk(s: Sys) {
    forall n: nat | Py(n) in s.threads :: TellsFirst(s.threads[Py(n)].prog, s.quit)
  }

  /** Nobody takes a word back. */
  lemma {:induction false} QuitGrows(s: Sys, t: Tid, c: Choice)
    requires Enabled(s, t)
    ensures var w := Step(s, t, c); w.quit == if s.threads[t].prog.i.Quit? then s.quit + {s.threads[t].prog.i.u} else s.quit
  {
    var i := s.threads[t].prog.i;
    if OnLocks(i) {
      QuitOnLocks(s, t, c);
    } else if OnAgent(i) {
      QuitOnAgent(s, t, c);
    } else if OnData(i) {
      QuitOnData(s, t, c);
    }
  }

  lemma QuitOnLocks(s: Sys, t: Tid, c: Choice)
    requires Enabled(s, t) && OnLocks(s.threads[t].prog.i)
    ensures Step(s, t, c).quit == if s.threads[t].prog.i.Quit? then s.quit + {s.threads[t].prog.i.u} else s.quit
  {
  }

  lemma QuitOnAgent(s: Sys, t: Tid, c: Choice)
    requires Enabled(s, t) && OnAgent(s.threads[t].prog.i)
    ensures Step(s, t, c).quit == s.quit
  {
  }

  lemma QuitOnData(s: Sys, t: Tid, c: Choice)
    requires Enabled(s, t) && OnData(s.threads[t].prog.i)
    ensures Step(s, t, c).quit == s.quit
  {
  }

  /** Where a Python thread is after an operation of its own. */
  lemma {:induction false} PythonMoves(s: Sys, n: nat, c: Choice)
    requires Inv(s) && Enabled(s, Py(n))
    ensures var w, prog := Step(s, Py(n), c), s.threads[Py(n)].prog;
      && Py(n) in w.threads
      && if prog.i.ClaimRun? || prog.i.ClaimStop? then
           w.threads[Py(n)].prog == REFUSED || w.threads[Py(n)].prog == StopBody(s.gen) || w.threads[Py(n)].prog == RunBody(s.gen + 1, c.run)
         else w.threads[Py(n)].prog == prog.k || (prog.i.Gate? && w.threads[Py(n)].prog == prog.i.other)
  {
    OnlyInBody(s, Py(n));
    var th := s.threads[Py(n)];
    if th.prog.i.ClaimRun? || th.prog.i.ClaimStop? {
      ClaimMoves(s, n, c);
    } else if !th.body {
      HarmlessGoesOn(s, n, c);
    } else if th.prog.i.Commit? {
      Committed(s, n, c);
    } else {
      NextInBody(s, n, c);
    }
  }

  lemma {:induction false} ClaimMoves(s: Sys, n: nat, c: Choice)
    requires Inv(s) && Enabled(s, Py(n)) && (s.threads[Py(n)].prog.i.ClaimRun? || s.threads[Py(n)].prog.i.ClaimStop?)
    ensures var w := Step(s, Py(n), c);
      && Py(n) in w.threads
      && (w.threads[Py(n)].prog == REFUSED || w.threads[Py(n)].prog == StopBody(s.gen) || w.threads[Py(n)].prog == RunBody(s.gen + 1, c.run))
  {
    Opened(s);
  }

  lemma {:induction false} OwnTells(s: Sys, n: nat, c: Choice)
    requires Inv(s) && Enabled(s, Py(n)) && TellsFirst(s.threads[Py(n)].prog, s.quit)
    ensures var w := Step(s, Py(n), c); Py(n) in w.threads && TellsFirst(w.threads[Py(n)].prog, w.quit)
  {
    PythonMoves(s, n, c);
    QuitGrows(s, Py(n), c);
    StopTells(s.gen);
    RunTells(s.gen + 1, c.run);
    assert TellsFirst(Then(Release(Gil), Done), {});
    assert TellsFirst(REFUSED, {});
    var prog := s.threads[Py(n)].prog;
    if prog.i.ClaimRun? || prog.i.ClaimStop? {
      TellsMore(Step(s, Py(n), c).threads[Py(n)].prog, {}, s.quit);
    }
  }

  lemma {:induction false} TellsStep(s: Sys, t: Tid, c: Choice)
    requires Inv(s) && TellsOk(s)
    ensures TellsOk(Step(s, t, c))
  {
    if Enabled(s, t) {
      var w := Step(s, t, c);
      QuitGrows(s, t, c);
      OnlyInBody(s, t);
      StepsApart(s, t, c);
      forall n: nat | Py(n) in w.threads
        ensures TellsFirst(w.threads[Py(n)].prog, w.quit)
      {
        if t == Py(n) { OwnTells(s, n, c); } else { TellsMore(s.threads[Py(n)].prog, s.quit, w.quit); }
      }
    }
  }

  lemma {:induction false} TellsRun(actions: seq<Action>)
    ensures Run(actions).Live? ==> TellsOk(Run(actions).s)
    decreases |actions|
  {
    if actions != [] && Run(actions).Live? {
      var front, a := actions[..|actions| - 1], actions[|actions| - 1];
      TellsRun(front);
      RunKeepsOk(front);
      if Run(front).Live? {
        if a.Move? { TellsStep(Run(front).s, a.t, a.choice); }
        if a.Call? { EnterTells(Run(front).s, a.n, a.call); }
      } else {
        NobodyCameAlong(Run(front).c, a);
      }
    }
  }

  lemma {:induction false} NobodyCameAlong(c: Child, a: Action)
    requires ChildOk(c) && Do(Forked(c), a).Live?
    ensures Do(Forked(c), a).s.threads == map[]
  {
  }

  lemma {:induction false} EnterTells(s: Sys, m: nat, call: Call)
    requires TellsOk(s)
    ensures TellsOk(Enter(s, m, call))
  {
    CallTells(call);
    TellsMore(match call case RunCall => RUN_CALL case StopCall => STOP_CALL case TagCall => TAG_CALL case HookCall => HOOK_CALL, {}, s.quit);
  }

  // ---- Whoever was told ends ----

  /** The thread is to end: it was told to quit, `Kill` is on its way, or it never does anything twice. */
  ghost predicate ToEnd(s: Sys, u: Tid) {
    match u
    case Py(_) => false
    case SessionT(g) => g == s.gen && Kill in s.sent
    case ClientT(_) => true
    case _ => u in s.quit
  }

  /** The operations left to a program after which a thread that was told to quit ends. Its loop stands for one last round. */
  ghost function Round(prog: Program): nat
    decreases prog
  {
    match prog
    case Done => 0
    case Then(i, k) =>
      match i
      case Loop => 21
      case Gate(other) => 1 + if Round(other) > Round(k) then Round(other) else Round(k)
      case _ => 1 + Round(k)
  }

  /** An upper bound of the operations of a thread that is to end. */
  ghost function EndRank(s: Sys, u: Tid): nat
    requires u in s.threads
  {
    var prog := s.threads[u].prog;
    if prog == Done then 0
    else if u.SessionT? then 2 * |s.channel| + (if prog.i.Loop? then 1 else 2)
    else Round(prog)
  }

  lemma RoundLocked(r: Res, i: Instr, k: Program)
    requires i.Local? || i.Push? || i.Dump?
    ensures Round(Locked(r, i, k)) == 3 + Round(k)
  {
    assert Round(Then(Release(r), k)) == 1 + Round(k);
    assert Round(Then(i, Then(Release(r), k))) == 2 + Round(k);
  }

  lemma RoundDump(b: Res, k: Program)
    ensures Round(Then(Acquire(Table), Locked(b, Dump(b), Then(Release(Table), k)))) == 5 + Round(k)
  {
    assert Round(Then(Release(Table), k)) == 1 + Round(k);
    RoundLocked(b, Dump(b), Then(Release(Table), k));
  }

  lemma RoundStack(g: nat, c: SnapChoice)
    ensures Round(SnapStack(g, c, Done)) <= 9
  {
    assert Round(SnapSend(g, c, Done)) <= 1;
    RoundLocked(Buf, Local, SnapSend(g, c, Done));
    assert Round(SnapCpu(g, c, Done)) <= 4;
    RoundDump(if c.oncpu then OnCpuB else StackB, SnapCpu(g, c, Done));
  }

  /** A last snapshot takes at most 20 operations. */
  lemma RoundSnapshot(g: nat, c: SnapChoice)
    ensures Round(Snapshot(g, c, Done)) <= 20
  {
    var k := Done;
    RoundStack(g, c);
    assert Round(Then(Release(Gil), SnapStack(g, c, k))) <= 10;
    RoundDump(MemB, Then(Release(Gil), SnapStack(g, c, k)));
    assert Round(DumpMem(g, c, k)) <= 15;
    RoundLocked(MemB, Push(MemB), DumpMem(g, c, k));
    assert Round(Then(Gate(DumpMem(g, c, k)), Locked(MemB, Push(MemB), DumpMem(g, c, k)))) <= 19;
  }

  /** A background thread does the next operation of its program, or decides at its loop. */
  lemma {:induction false} BackgroundMoves(s: Sys, u: Tid, c: Choice)
    requires Inv(s) && Enabled(s, u) && !u.Py? && !s.threads[u].prog.i.Loop?
    ensures var w, prog := Step(s, u, c), s.threads[u].prog;
      u in w.threads && (w.threads[u].prog == prog.k || (prog.i.Gate? && w.threads[u].prog == prog.i.other))
  {
    Opened(s);
    assert ThreadOk(s, u, s.threads[u]);
  }

  lemma {:induction false} LoopEnds(s: Sys, u: Tid, c: Choice)
    requires Enabled(s, u) && s.threads[u].prog.i.Loop? && Background(u) && u in s.quit
    ensures var w := Step(s, u, c); u in w.threads && Round(w.threads[u].prog) <= 20
  {
    if u.AgentT? { RoundSnapshot(u.g, c.snap); }
  }

  lemma {:induction false} ToldGetsOn(s: Sys, u: Tid, c: Choice)
    requires Inv(s) && Enabled(s, u) && Background(u) && u in s.quit
    ensures var w := Step(s, u, c); u in w.threads && EndRank(w, u) < EndRank(s, u)
  {
    if s.threads[u].prog.i.Loop? { LoopEnds(s, u, c); } else { BackgroundMoves(s, u, c); }
  }

  lemma {:induction false} ClientGetsOn(s: Sys, u: Tid, c: Choice)
    requires Inv(s) && Enabled(s, u) && u.ClientT?
    ensures var w := Step(s, u, c); u in w.threads && EndRank(w, u) < EndRank(s, u)
  {
    Opened(s);
    assert ThreadOk(s, u, s.threads[u]);
  }

  lemma {:induction false} SessionGetsOn(s: Sys, u: Tid, c: Choice)
    requires Inv(s) && UploadsOk(s) && Enabled(s, u) && u.SessionT?
    ensures var w := Step(s, u, c); u in w.threads && EndRank(w, u) < EndRank(s, u)
  {
    OnlySessions(s, u);
    RestLeaves(s, u, c);
  }

  lemma {:induction false} EndsGetOn(s: Sys, u: Tid, c: Choice)
    requires Inv(s) && UploadsOk(s) && Enabled(s, u) && ToEnd(s, u)
    ensures var w := Step(s, u, c); u in w.threads && EndRank(w, u) < EndRank(s, u)
  {
    match u
    case SessionT(_) => SessionGetsOn(s, u, c);
    case ClientT(_) => ClientGetsOn(s, u, c);
    case _ => ToldGetsOn(s, u, c);
  }

  /** Nothing is sent any more once `Kill` is, and the channel only gets shorter. */
  lemma {:induction false} ChannelShrinks(s: Sys, t: Tid, c: Choice)
    requires Inv(s) && Enabled(s, t) && Kill in s.sent && !s.Finished(SessionT(s.gen))
    ensures var w := Step(s, t, c); w.gen == s.gen && w.sent == s.sent && |w.channel| <= |s.channel|
  {
    var i := s.threads[t].prog.i;
    if i.Send? { SendPremise(s, t, i.msg); }
    if i.ClaimRun? { IdleIsClean(s); }
    StepLeaves(s, t, c);
    ChannelStep(s, t, c);
  }

  lemma {:induction false} IdleIsClean(s: Sys)
    requires Inv(s)
    ensures s.agent == Idle ==> s.Finished(SessionT(s.gen))
  {
    Opened(s);
  }

  lemma {:induction false} ChannelStep(s: Sys, t: Tid, c: Choice)
    requires Enabled(s, t) && !s.threads[t].prog.i.Send? && !(s.threads[t].prog.i.ClaimRun? && s.agent == Idle)
    ensures |Step(s, t, c).channel| <= |s.channel|
  {
    var i := s.threads[t].prog.i;
    if OnLocks(i) {
      ChannelOnLocks(s, t, c);
    } else if OnAgent(i) {
      ChannelOnAgent(s, t, c);
    } else if OnData(i) {
      ChannelOnData(s, t, c);
    }
  }

  lemma ChannelOnLocks(s: Sys, t: Tid, c: Choice)
    requires Enabled(s, t) && OnLocks(s.threads[t].prog.i)
    ensures Step(s, t, c).channel == s.channel
  {
  }

  lemma ChannelOnAgent(s: Sys, t: Tid, c: Choice)
    requires Enabled(s, t) && OnAgent(s.threads[t].prog.i) && !(s.threads[t].prog.i.ClaimRun? && s.agent == Idle)
    ensures Step(s, t, c).channel == s.channel
  {
  }

  lemma ChannelOnData(s: Sys, t: Tid, c: Choice)
    requires Enabled(s, t) && OnData(s.threads[t].prog.i)
    ensures Step(s, t, c).channel == s.channel
  {
  }

  /** What others do takes nothing away from the end of a thread. */
  lemma {:induction false} OthersKeepEnd(s: Sys, t: Tid, c: Choice, u: Tid)
    requires Inv(s) && ToEnd(s, u) && !s.Finished(u) && t != u
    ensures var w := Step(s, t, c); ToEnd(w, u) && u in w.threads && w.threads[u] == s.threads[u] && EndRank(w, u) <= EndRank(s, u)
  {
    if Enabled(s, t) {
      if s.threads[t].prog.i == Spawn(u) { SpawnPremise(s, t, u); }
      StepsApart(s, t, c);
      QuitGrows(s, t, c);
      if u.SessionT? { ChannelShrinks(s, t, c); }
    }
  }

  /** The thread is there, and has not ended. */
  ghost predicate Lasts(p: Process, more: seq<Action>, u: Tid)
    decreases |more|
  {
    && After(p, more).Live? && !After(p, more).s.Finished(u)
    && (more != [] ==> Lasts(p, more[..|more| - 1], u))
  }

  ghost function Does1(p: Process, a: Action, u: Tid): nat {
    if p.Live? && a.Move? && a.t == u && Enabled(p.s, u) then 1 else 0
  }

  /** The operations of `u` among `more`. */
  ghost function DoneBy(p: Process, more: seq<Action>, u: Tid): nat
    decreases |more|
  {
    if more == [] then 0 else DoneBy(p, more[..|more| - 1], u) + Does1(After(p, more[..|more| - 1]), more[|more| - 1], u)
  }

  lemma {:induction false} EndStep(s: Sys, a: Action, u: Tid)
    requires Inv(s) && UploadsOk(s) && ToEnd(s, u) && !s.Finished(u) && Do(Live(s), a).Live? && !Do(Live(s), a).s.Finished(u)
    ensures var w := Do(Live(s), a).s; u in w.threads && ToEnd(w, u) && EndRank(w, u) + Does1(Live(s), a, u) <= EndRank(s, u)
  {
    if a.Move? {
      if a.t != u {
        OthersKeepEnd(s, a.t, a.choice, u);
      } else if Enabled(s, u) {
        EndsGetOn(s, u, a.choice);
        EndStays(s, u, a.choice);
      }
    }
  }

  lemma {:induction false} EndStays(s: Sys, u: Tid, c: Choice)
    requires Inv(s) && Enabled(s, u) && ToEnd(s, u)
    ensures ToEnd(Step(s, u, c), u)
  {
    QuitGrows(s, u, c);
    if u.SessionT? { ChannelShrinks(s, u, c); }
  }

  lemma {:induction false} EndRun(before: seq<Action>, s: Sys, u: Tid, more: seq<Action>)
    requires Run(before) == Live(s) && ToEnd(s, u) && u in s.threads && !s.Finished(u) && Lasts(Live(s), more, u)
    ensures var w := After(Live(s), more).s; u in w.threads && ToEnd(w, u) && EndRank(w, u) + DoneBy(Live(s), more, u) <= EndRank(s, u)
    decreases |more|
  {
    if more != [] {
      var front := more[..|more| - 1];
      EndRun(before, s, u, front);
      RunAfter(before, front);
      RunKeepsOk(before + front);
      UploadsRun(before + front);
      EndStep(After(Live(s), front).s, more[|more| - 1], u);
    }
  }

  /**
   Whoever a call waits for was told to end: a background thread was told to quit, the session thread has `Kill` before
   it, and the client thread ends anyway. While it lasts, such a thread does fewer operations than a round and the
   sessions in the channel take: so every join comes to its end.
   */
  lemma {:induction false} JoinedThreadsEnd(before: seq<Action>, s: Sys, n: nat, u: Tid, more: seq<Action>)
    requires Run(before) == Live(s) && !s.Finished(Py(n)) && s.threads[Py(n)].prog.i == Join(u)
    requires u in s.threads && !s.Finished(u) && Lasts(Live(s), more, u)
    ensures ToEnd(s, u) && |s.channel| <= CAPACITY
    ensures DoneBy(Live(s), more, u) <= if u.SessionT? then 2 * |s.channel| + 2 else EndRank(s, u)
  {
    JoinedIsTold(before, s, n, u);
    EndRun(before, s, u, more);
    RunKeepsOk(before);
    Opened(s);
  }

  lemma {:induction false} JoinedIsTold(before: seq<Action>, s: Sys, n: nat, u: Tid)
    requires Run(before) == Live(s) && !s.Finished(Py(n)) && s.threads[Py(n)].prog.i == Join(u)
    ensures ToEnd(s, u)
  {
    TellsRun(before);
    RunKeepsOk(before);
    Opened(s);
    assert ThreadOk(s, Py(n), s.threads[Py(n)]);
    BodyFacts(s, Py(n));
  }
}
