/** Runs that show where the profiler does not keep what one might expect of it. */
module ProfilerExamples {
  import opened Lifecycle
  import opened LifecycleSafety
  import opened Fork
  import opened ProfilerRuns

  /** How far a thread is, and who holds which lock. */
  ghost predicate Stands(p: Process, t: Tid, prog: Program, held: set<Res>, locks: map<Res, Tid>) {
    && p.Live? && t in p.s.threads && p.s.threads[t].prog == prog && p.s.threads[t].held == held && p.s.locks == locks
  }

  ghost predicate Alike(p: Process, q: Process) {
    && p.Live? && q.Live? && q.s.agent == p.s.agent && q.s.gen == p.s.gen && q.s.memActive == p.s.memActive
    && q.s.quit == p.s.quit && (Py(7) in q.s.threads ==> Py(7) in p.s.threads)
  }

  const P := Py(0)

  /** A run with nothing enabled but what every run does, or one that profiles memory and stacks. */
  function Choose(all: bool): Choice {
    Choice(RunChoice(all, all, true, false, true), SnapChoice(false, false, false, false, false, 0, false), false, "", [], [])
  }

  lemma {:induction false} Takes(actions: seq<Action>, t: Tid, r: Res, k: Program, held: set<Res>, locks: map<Res, Tid>, c: Choice)
    requires Stands(Run(actions), t, Then(Acquire(r), k), held, locks) && r !in locks
    ensures Stands(Run(actions + [Move(t, c)]), t, k, held + {r}, locks[r := t])
    ensures Alike(Run(actions), Run(actions + [Move(t, c)]))
  {
    RunOn(actions, Move(t, c));
  }

  lemma {:induction false} Gives(actions: seq<Action>, t: Tid, r: Res, k: Program, held: set<Res>, locks: map<Res, Tid>, c: Choice)
    requires Stands(Run(actions), t, Then(Release(r), k), held, locks)
    ensures Stands(Run(actions + [Move(t, c)]), t, k, held - {r}, locks - {r})
    ensures Alike(Run(actions), Run(actions + [Move(t, c)]))
  {
    RunOn(actions, Move(t, c));
  }

  lemma {:induction false} Starts(actions: seq<Action>, t: Tid, u: Tid, k: Program, held: set<Res>, locks: map<Res, Tid>, c: Choice)
    requires Stands(Run(actions), t, Then(Spawn(u), k), held, locks) && t != u && u != Py(7)
    ensures Stands(Run(actions + [Move(t, c)]), t, k, held, locks)
    ensures Stands(Run(actions + [Move(t, c)]), u, FreshThread(u).prog, {}, locks)
    ensures Alike(Run(actions), Run(actions + [Move(t, c)]))
  {
    RunOn(actions, Move(t, c));
  }

  /** Others may take the GIL in between. */
  lemma {:induction false} Yields(actions: seq<Action>, k: Program, c: Choice)
    requires Stands(Run(actions), P, YieldGil(k), {Gil}, map[Gil := P])
    ensures Stands(Run(actions + [Move(P, c)] + [Move(P, c)]), P, k, {Gil}, map[Gil := P])
    ensures Alike(Run(actions), Run(actions + [Move(P, c)] + [Move(P, c)]))
  {
    assert {Gil} - {Gil} == {} && {} + {Gil} == {Gil} && map[Gil := P] - {Gil} == map[];
    Gives(actions, P, Gil, Then(Acquire(Gil), k), {Gil}, map[Gil := P], c);
    Takes(actions + [Move(P, c)], P, Gil, k, {}, map[], c);
  }

  /** Python thread 0 has claimed a run. */
  lemma {:induction false} RunClaims(all: bool) returns (actions: seq<Action>)
    ensures Stands(Run(actions), P, RunBody(1, Choose(all).run), {Gil, StateLock}, map[Gil := P, StateLock := P])
    ensures Run(actions).s.quit == {} && Py(7) !in Run(actions).s.threads
  {
    var c := Choose(all);
    var a1: seq<Action> := [] + [Call(0, RunCall)];
    RunOn([], Call(0, RunCall));
    assert Stands(Run(a1), P, RUN_CALL, {}, map[]);
    Takes(a1, P, Gil, Then(Acquire(StateLock), Then(ClaimRun, Done)), {}, map[], c);
    var a2 := a1 + [Move(P, c)];
    assert {} + {Gil} == {Gil} && {Gil} + {StateLock} == {Gil, StateLock};
    Takes(a2, P, StateLock, Then(ClaimRun, Done), {Gil}, map[Gil := P], c);
    actions := a2 + [Move(P, c)] + [Move(P, c)];
    Claims(a2 + [Move(P, c)], all);
  }

  lemma {:induction false} Claims(actions: seq<Action>, all: bool)
    requires Stands(Run(actions), P, Then(ClaimRun, Done), {Gil, StateLock}, map[Gil := P, StateLock := P])
    requires Run(actions).s.agent == Idle && Run(actions).s.gen == 0
    ensures Stands(Run(actions + [Move(P, Choose(all))]), P, RunBody(1, Choose(all).run), {Gil, StateLock}, map[Gil := P, StateLock := P])
    ensures var s, w := Run(actions).s, Run(actions + [Move(P, Choose(all))]).s; w.quit == s.quit && (Py(7) in w.threads <==> Py(7) in s.threads)
  {
    RunOn(actions, Move(P, Choose(all)));
  }

  /**
   A run waits for another thread with the GIL in its hands: no other Python thread can go on until the client
   thread has.
   */
  lemma {:induction false} WaitsWithTheGil() returns (actions: seq<Action>, s: Sys)
    ensures Run(actions) == Live(s) && P in s.threads && s.threads[P].prog != Done && s.threads[P].prog.i == Join(ClientT(1))
    ensures s.threads[P].held == {Gil} && !Enabled(s, P)
  {
    var c := Choose(false);
    var a := RunClaims(false);
    assert {Gil, StateLock} - {StateLock} == {Gil} && map[Gil := P, StateLock := P] - {StateLock} == map[Gil := P];
    Gives(a, P, StateLock, StartStack(1, c.run), {Gil, StateLock}, map[Gil := P, StateLock := P], c);
    a := a + [Move(P, c)];
    Yields(a, StartAgent(1, c.run), c);
    a := a + [Move(P, c)] + [Move(P, c)];
    Yields(a, BuildClient(1, c.run), c);
    a := a + [Move(P, c)] + [Move(P, c)];
    Starts(a, P, ClientT(1), Then(Join(ClientT(1)), BuildAgent(1, c.run)), {Gil}, map[Gil := P], c);
    actions := a + [Move(P, c)];
    s := Run(actions).s;
  }

  /** A run has started the memory profiler and the stack sampler. */
  lemma {:induction false} ProfilersStart() returns (actions: seq<Action>)
    ensures Stands(Run(actions), P, StartAgent(1, Choose(true).run), {Gil}, map[Gil := P])
    ensures Stands(Run(actions), StackT(1), LOOP, {}, map[Gil := P])
    ensures Run(actions).s.memActive && Run(actions).s.quit == {} && Py(7) !in Run(actions).s.threads
  {
    var c := Choose(true);
    var a := RunClaims(true);
    assert {Gil, StateLock} - {StateLock} == {Gil} && map[Gil := P, StateLock := P] - {StateLock} == map[Gil := P];
    Gives(a, P, StateLock, Then(StartMem, StartStack(1, c.run)), {Gil, StateLock}, map[Gil := P, StateLock := P], c);
    a := a + [Move(P, c)];
    MemoryStarts(a, StartStack(1, c.run), c);
    a := a + [Move(P, c)];
    Yields(a, Then(Spawn(StackT(1)), StartAgent(1, c.run)), c);
    a := a + [Move(P, c)] + [Move(P, c)];
    Starts(a, P, StackT(1), StartAgent(1, c.run), {Gil}, map[Gil := P], c);
    actions := a + [Move(P, c)];
  }

  lemma {:induction false} MemoryStarts(actions: seq<Action>, k: Program, c: Choice)
    requires Stands(Run(actions), P, Then(StartMem, k), {Gil}, map[Gil := P])
    ensures var q := Run(actions + [Move(P, c)]);
      && Stands(q, P, k, {Gil}, map[Gil := P]) && q.s.memActive && q.s.quit == Run(actions).s.quit
      && (Py(7) in q.s.threads ==> Py(7) in Run(actions).s.threads)
  {
    RunOn(actions, Move(P, c));
  }

  /** While the run lets others have the GIL, the stack sampler takes the string table. */
  lemma {:induction false} SamplerTakesTable(actions: seq<Action>, k: Program, c: Choice) returns (more: seq<Action>)
    requires Stands(Run(actions), P, YieldGil(k), {Gil}, map[Gil := P]) && Stands(Run(actions), StackT(1), LOOP, {}, map[Gil := P])
    requires Run(actions).s.memActive && Run(actions).s.quit == {} && Py(7) !in Run(actions).s.threads && !c.oncpu
    ensures Stands(Run(more), StackT(1), SampleStack(false).k, {Table}, map[Table := StackT(1)])
    ensures Run(more).s.memActive && Py(7) !in Run(more).s.threads
  {
    assert {Gil} - {Gil} == {} && map[Gil := P] - {Gil} == map[];
    var a1 := actions + [Move(P, c)];
    RunOn(actions, Move(P, c));
    var a2 := a1 + [Move(StackT(1), c)];
    assert Stands(Run(a1), StackT(1), LOOP, {}, map[]) && Run(a1).s.memActive && Run(a1).s.quit == {} && Py(7) !in Run(a1).s.threads;
    Decides(a1, c);
    Takes(a2, StackT(1), Table, SampleStack(false).k, {}, map[], c);
    more := a2 + [Move(StackT(1), c)];
  }

  lemma {:induction false} Decides(actions: seq<Action>, c: Choice)
    requires Stands(Run(actions), StackT(1), LOOP, {}, map[]) && Run(actions).s.quit == {} && !c.oncpu
    ensures Stands(Run(actions + [Move(StackT(1), c)]), StackT(1), SampleStack(false), {}, map[])
    ensures Alike(Run(actions), Run(actions + [Move(StackT(1), c)]))
  {
    RunOn(actions, Move(StackT(1), c));
  }

  /**
   A fork while the stack sampler has the string table, and memory is profiled: the next sampled allocation of
   the child, before its fork hook has run, never comes back.
   */
  lemma {:induction false} ChildHangs() returns (actions: seq<Action>)
    ensures Hangs(Run(actions))
  {
    var a := ProfilersStart();
    var k := BuildClient(1, Choose(true).run);
    var b := SamplerTakesTable(a, k, Choose(true));
    AllocationHangs(b, Run(b).s, 7);
    actions := b + [ForkBy(7), Allocate];
  }

  /** A fork while the stack sampler holds an index: it is stale in the child when the table has been replaced. */
  lemma {:induction false} ChildHoldsStale() returns (actions: seq<Action>, h: Handle)
    ensures Run(actions).Forked? && h in Run(actions).c.sys.stackHandles && !ValidHandle(Run(actions).c.sys.table, h)
  {
    var a := ProfilersStart();
    var k := BuildClient(1, Choose(true).run);
    var b := SamplerTakesTable(a, k, Choose(true));
    var c := Choose(true).(text := "f");
    h := HandleFor(Run(b).s.table, "f");
    SamplerInterns(b, c);
    b := b + [Move(StackT(1), c)];
    StaleUntilStopped(b, Run(b).s, 7, 5, h);
    HeldInTheHook(b, Run(b).s, 7, 5);
    actions := InHook(b, 7, 5);
  }

  lemma {:induction false} SamplerInterns(actions: seq<Action>, c: Choice)
    requires Stands(Run(actions), StackT(1), SampleStack(false).k, {Table}, map[Table := StackT(1)]) && Py(7) !in Run(actions).s.threads
    ensures var q := Run(actions + [Move(StackT(1), c)]);
      q.Live? && HandleFor(Run(actions).s.table, c.text) in q.s.stackHandles && Gil !in q.s.locks && Py(7) !in q.s.threads
  {
    RunOn(actions, Move(StackT(1), c));
  }
}
