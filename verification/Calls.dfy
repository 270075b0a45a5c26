/**
 What becomes of each call of `run` and `stop`: who is refused, what a call that was not has done when it returns, and
 that it gets on with every step it can do.
 */
module Calls {
  import opened Lifecycle
  import opened LifecycleSafety
  import opened Fork
  import opened ForkSafety
  import opened ProfilerRuns

  // ---- The story of a call ----

  /** What a Python thread is about in the extension, with what it met there. */
  datatype Story =
    | Out
    | Asking(call: Call)
    | Refused(call: Call, seen: AgentState)
    | Claimed(call: Call, seen: AgentState, choice: RunChoice)
    | Closed(call: Call, seen: AgentState, choice: RunChoice, at: Sys, after: Sys)

  /** A step of the thread from `s` to `w`: it saw the agent with the state lock in its hands, or left a new state behind. */
  function Told(x: Story, s: Sys, w: Sys, n: nat, c: Choice): Story
    requires Py(n) in s.threads && s.threads[Py(n)].prog != Done
  {
    match s.threads[Py(n)].prog.i
    case ClaimRun => Answered(x, s, w, n, c)
    case ClaimStop => Answered(x, s, w, n, c)
    case Commit(_) => if x.Claimed? then Closed(x.call, x.seen, x.choice, s, w) else x
    case _ => x
  }

  function Answered(x: Story, s: Sys, w: Sys, n: nat, c: Choice): Story {
    if !x.Asking? then x
    else if Py(n) in w.threads && w.threads[Py(n)].body then Claimed(x.call, s.agent, c.run)
    else Refused(x.call, s.agent)
  }

  /** One action more. A fork ends all stories: the child has no call under way. */
  function Told1(x: Story, p: Process, a: Action, n: nat): Story {
    match p
    case Forked(_) => Out
    case Live(s) =>
      match a
      case Call(m, call) => if m == n && s.Finished(Py(n)) then Asking(call) else x
      case Move(t, c) => if t == Py(n) && Enabled(s, t) then Told(x, s, Step(s, t, c), n, c) else x
      case ForkBy(_) => if Do(p, a).Forked? then Out else x
      case _ => x
  }

  ghost function StoryOf(actions: seq<Action>, n: nat): Story
    decreases |actions|
  {
    if actions == [] then Out
    else
      var front := actions[..|actions| - 1];
      Told1(StoryOf(front, n), Run(front), actions[|actions| - 1], n)
  }

  // ---- What the stories should say ----

  /** `stop` is refused unless the agent runs, and `run` unless there is none. */
  predicate RightlyRefused(call: Call, seen: AgentState) {
    (call.StopCall? && !seen.Running?) || (call.RunCall? && seen != Idle)
  }

  predicate RightlyClaimed(call: Call, seen: AgentState) {
    (call.StopCall? && seen.Running?) || (call.RunCall? && seen == Idle)
  }

  /** Nothing of the agent `g` is left: no thread, no profiler, no index, no sample, and a new table. */
  ghost predicate TornDown(s: Sys, g: nat) {
    && s.Finished(AgentT(g)) && s.Finished(SessionT(g)) && s.Finished(SignalT(g)) && s.Finished(StackT(g)) && s.Finished(ClientT(g))
    && !s.memActive && s.memHandles == {} && s.stackHandles == {} && s.table == [""]
    && forall b :: s.Window(b) == []
  }

  /** The agent `g` is up with what was chosen for it. */
  ghost predicate Up(s: Sys, g: nat, c: RunChoice) {
    && AgentT(g) in s.threads && SessionT(g) in s.threads && s.Finished(ClientT(g))
    && (SignalT(g) in s.threads <==> c.signal)
    && (StackT(g) in s.threads <==> c.stack)
    && (s.memActive <==> c.mem)
  }

  /** How a call that was not refused leaves things: `at` before, `after` behind the store to the state. */
  ghost predicate RightlyClosed(call: Call, seen: AgentState, c: RunChoice, at: Sys, after: Sys) {
    && at.agent == Busy
    && match call
       case StopCall => seen.Running? && after.agent == Idle && TornDown(at, seen.g) && at.received == at.sent
       case RunCall =>
         if c.client && c.ok then after.agent == Running(at.gen) && Up(at, at.gen, c)
         else after.agent == Idle && TornDown(at, at.gen)
       case _ => false
  }

  // ---- Programs ----

  /** No claim and no commit is to come. */
  ghost predicate Harmless(prog: Program)
    decreases prog
  {
    match prog
    case Done => true
    case Then(i, k) =>
      && !i.ClaimRun? && !i.ClaimStop? && !i.Commit? && Harmless(k)
      && match i case Gate(other) => Harmless(other) case _ => true
  }

  /** One commit is to come, and no claim. */
  ghost predicate CommitsOnce(prog: Program) {
    match prog
    case Done => false
    case Then(i, k) =>
      && !i.ClaimRun? && !i.ClaimStop? && !i.Gate? && !i.Loop?
      && if i.Commit? then Harmless(k) else CommitsOnce(k)
  }

  /** What the program will leave the state as. */
  ghost function Outcome(prog: Program): AgentState {
    match prog
    case Done => Idle
    case Then(i, k) => if i.Commit? then i.to else Outcome(k)
  }

  /** The threads the program will start. */
  ghost function ToStart(prog: Program): set<Tid> {
    match prog
    case Done => {}
    case Then(i, k) => (if i.Spawn? then {i.u} else {}) + ToStart(k)
  }

  ghost predicate StartsMem(prog: Program) {
    prog != Done && (prog.i.StartMem? || StartsMem(prog.k))
  }

  ghost predicate StopsMem(prog: Program) {
    prog != Done && (prog.i.StopMem? || StopsMem(prog.k))
  }

  /** What a claimed program does, from beginning to end. */
  ghost predicate Does(prog: Program, to: AgentState, starts: set<Tid>, mem: bool, stops: bool) {
    && CommitsOnce(prog) && Outcome(prog) == to && ToStart(prog) == starts
    && (StartsMem(prog) <==> mem) && (StopsMem(prog) <==> stops)
  }

  lemma First(i: Instr, k: Program, to: AgentState, starts: set<Tid>, mem: bool, stops: bool)
    requires Does(k, to, starts, mem, stops)
    requires !i.ClaimRun? && !i.ClaimStop? && !i.Gate? && !i.Loop? && !i.Commit?
    ensures Does(Then(i, k), to, (if i.Spawn? then {i.u} else {}) + starts, mem || i.StartMem?, stops || i.StopMem?)
  {
  }

  lemma First2(i: Instr, j: Instr, k: Program, to: AgentState, starts: set<Tid>, mem: bool, stops: bool)
    requires Does(k, to, starts, mem, stops)
    requires i.Acquire? || i.Release? || i.Quit? || i.Join? || i.Send?
    requires j.Acquire? || j.Release? || j.Join? || j.Clear? || j.ClearTable?
    ensures Does(Then(i, Then(j, k)), to, starts, mem, stops)
  {
    First(j, k, to, starts, mem, stops);
    First(i, Then(j, k), to, starts, mem, stops);
  }

  lemma LockedDoes(r: Res, i: Instr, k: Program, to: AgentState, starts: set<Tid>, mem: bool, stops: bool)
    requires Does(k, to, starts, mem, stops) && (i.Clear? || i.ClearTable?)
    ensures Does(Locked(r, i, k), to, starts, mem, stops)
  {
    First(Release(r), k, to, starts, mem, stops);
    First2(Acquire(r), i, Then(Release(r), k), to, starts, mem, stops);
  }

  lemma FinishDoes(to: AgentState)
    ensures Does(Finish(to), to, {}, false, false)
  {
    var ret := Then(Release(StateLock), Then(Release(Gil), Done));
    assert Harmless(Then(Release(Gil), Done)) && ToStart(Then(Release(Gil), Done)) == {};
    assert Harmless(ret) && ToStart(ret) == {} && !StartsMem(Then(Release(Gil), Done)) && !StopsMem(Then(Release(Gil), Done));
    assert !StartsMem(ret) && !StopsMem(ret);
    assert Does(Then(Commit(to), ret), to, {}, false, false);
    First(Acquire(StateLock), Then(Commit(to), ret), to, {}, false, false);
  }

  lemma TeardownDoes(g: nat)
    ensures Does(Teardown(g), Idle, {}, false, true)
  {
    FinishDoes(Idle);
    var table := Locked(Table, ClearTable, Finish(Idle));
    LockedDoes(Table, ClearTable, Finish(Idle), Idle, {}, false, false);
    LockedDoes(OnCpuB, Clear(OnCpuB), table, Idle, {}, false, false);
    LockedDoes(StackB, Clear(StackB), Locked(OnCpuB, Clear(OnCpuB), table), Idle, {}, false, false);
    First2(Join(StackT(g)), Acquire(Gil), ClearStack(), Idle, {}, false, false);
    First(Quit(StackT(g)), Then(Join(StackT(g)), Then(Acquire(Gil), ClearStack())), Idle, {}, false, false);
    First(Release(Gil), JoinStack(g), Idle, {}, false, false);
    LockedDoes(MemB, Clear(MemB), Then(Release(Gil), JoinStack(g)), Idle, {}, false, false);
    First(StopMem, Locked(MemB, Clear(MemB), Then(Release(Gil), JoinStack(g))), Idle, {}, false, false);
  }

  lemma StopBodyDoes(g: nat)
    ensures Does(StopBody(g), Idle, {}, false, true)
  {
    TeardownDoes(g);
    First2(Join(SessionT(g)), Acquire(Gil), Teardown(g), Idle, {}, false, true);
    First(Send(g, Kill), Then(Join(SessionT(g)), Then(Acquire(Gil), Teardown(g))), Idle, {}, false, true);
    First2(Quit(SignalT(g)), Join(SignalT(g)), KillSession(g), Idle, {}, false, true);
    First2(Quit(AgentT(g)), Join(AgentT(g)), Lifecycle.StopSampler(g), Idle, {}, false, true);
    First2(Release(StateLock), Release(Gil), Then(Quit(AgentT(g)), Then(Join(AgentT(g)), Lifecycle.StopSampler(g))), Idle, {}, false, true);
  }

  ghost function Chosen(g: nat, c: RunChoice): set<Tid> {
    {AgentT(g), SessionT(g), ClientT(g)} + (if c.signal then {SignalT(g)} else {}) + (if c.stack then {StackT(g)} else {})
  }

  lemma BuildAgentDoes(g: nat, c: RunChoice) returns (starts: set<Tid>)
    ensures Does(BuildAgent(g, c), if c.ok then Running(g) else Idle, starts, false, !c.ok)
    ensures c.ok ==> starts == {AgentT(g), SessionT(g)} + if c.signal then {SignalT(g)} else {}
  {
    if !c.ok {
      TeardownDoes(g);
      starts := {};
    } else {
      FinishDoes(Running(g));
      First(Spawn(AgentT(g)), Finish(Running(g)), Running(g), {}, false, false);
      First(Spawn(SessionT(g)), Then(Spawn(AgentT(g)), Finish(Running(g))), Running(g), {AgentT(g)}, false, false);
      starts := {SessionT(g)} + {AgentT(g)};
      if c.signal {
        First(Spawn(SignalT(g)), StartSession(g), Running(g), starts, false, false);
        starts := {SignalT(g)} + starts;
      }
    }
  }

  lemma StartAgentDoes(g: nat, c: RunChoice) returns (starts: set<Tid>)
    ensures Does(StartAgent(g, c), if c.client && c.ok then Running(g) else Idle, starts, false, !(c.client && c.ok))
    ensures c.client && c.ok ==> starts == {AgentT(g), SessionT(g), ClientT(g)} + if c.signal then {SignalT(g)} else {}
  {
    if c.client {
      starts := BuildAgentDoes(g, c);
      var to, stops := if c.ok then Running(g) else Idle, !c.ok;
      First(Join(ClientT(g)), BuildAgent(g, c), to, starts, false, stops);
      First(Spawn(ClientT(g)), Then(Join(ClientT(g)), BuildAgent(g, c)), to, starts, false, stops);
      starts := {ClientT(g)} + starts;
      First2(Release(Gil), Acquire(Gil), BuildClient(g, c), to, starts, false, stops);
    } else {
      TeardownDoes(g);
      First2(Release(Gil), Acquire(Gil), Teardown(g), Idle, {}, false, true);
      starts := {};
    }
  }

  /** Whether the memory profiler and which threads a run starts, and what it leaves behind. */
  lemma RunBodyDoes(g: nat, c: RunChoice) returns (starts: set<Tid>)
    ensures Does(RunBody(g, c), if c.client && c.ok then Running(g) else Idle, starts, c.mem, !(c.client && c.ok))
    ensures c.client && c.ok ==> starts == Chosen(g, c)
  {
    starts := StartAgentDoes(g, c);
    var to, stops := if c.client && c.ok then Running(g) else Idle, !(c.client && c.ok);
    if c.stack {
      First(Spawn(StackT(g)), StartAgent(g, c), to, starts, false, stops);
      starts := {StackT(g)} + starts;
      First2(Release(Gil), Acquire(Gil), Then(Spawn(StackT(g)), StartAgent(g, c)), to, starts, false, stops);
    } else {
      First2(Release(Gil), Acquire(Gil), StartAgent(g, c), to, starts, false, stops);
    }
    if c.mem {
      First(StartMem, StartStack(g, c), to, starts, false, stops);
      First(Release(StateLock), Then(StartMem, StartStack(g, c)), to, starts, true, stops);
    } else {
      First(Release(StateLock), StartStack(g, c), to, starts, false, stops);
    }
  }

  lemma CallsAre(call: Call)
    requires call.TagCall? || call.HookCall?
    ensures Harmless(if call.TagCall? then TAG_CALL else HOOK_CALL)
  {
    var ret := Then(Release(Gil), Done);
    assert Harmless(ret);
    assert Harmless(Locked(StateLock, Local, ret));
    assert Harmless(Locked(MemB, Push(MemB), ret));
    assert Harmless(Locked(Table, Intern(Mem), Locked(MemB, Push(MemB), ret)));
  }

  // ---- What a story says about its thread ----

  /** Where a thread that asks to run stands. */
  ghost predicate Asks(prog: Program, claim: Instr) {
    || prog == Then(Acquire(Gil), Then(Acquire(StateLock), Then(claim, Done)))
    || prog == Then(Acquire(StateLock), Then(claim, Done))
    || prog == Then(claim, Done)
  }

  /** What was chosen for a run is started, or still to be started, and nothing else is. */
  ghost predicate Started(s: Sys, prog: Program, c: RunChoice) {
    && Outcome(prog) == (if c.client && c.ok then Running(s.gen) else Idle)
    && (c.client && c.ok ==>
          && !StopsMem(prog)
          && (forall u | u in Chosen(s.gen, c) :: u in ToStart(prog) || u in s.threads)
          && (forall u | u in ToStart(prog) :: u in Chosen(s.gen, c))
          && (forall u: Tid | u in s.threads && !u.Py? && u.g == s.gen :: u in Chosen(s.gen, c))
          && (c.mem <==> StartsMem(prog) || s.memActive))
  }

  ghost predicate ClaimOk(s: Sys, prog: Program, call: Call, seen: AgentState, c: RunChoice) {
    && CommitsOnce(prog) && RightlyClaimed(call, seen)
    && match call
       case StopCall => Outcome(prog) == Idle && seen == Running(s.gen) && SessionT(s.gen) in s.threads
       case RunCall => Started(s, prog, c)
       case _ => false
  }

  ghost predicate StoryOk(x: Story, s: Sys, n: nat) {
    if x.Out? then s.Finished(Py(n))
    else
      && Py(n) in s.threads
      && var th := s.threads[Py(n)];
         match x
         case Asking(call) =>
           && !th.body
           && (match call
               case RunCall => Asks(th.prog, ClaimRun)
               case StopCall => Asks(th.prog, ClaimStop)
               case _ => Harmless(th.prog))
         case Refused(call, seen) => !th.body && Harmless(th.prog) && RightlyRefused(call, seen)
         case Claimed(call, seen, c) => th.body && ClaimOk(s, th.prog, call, seen, c)
         case Closed(call, seen, c, at, after) =>
           !th.body && Harmless(th.prog) && RightlyClaimed(call, seen) && RightlyClosed(call, seen, c, at, after)
         case _ => true
  }

  // ---- Steps of others ----

  /** What a step of `t` may change: its own thread, and the thread it starts. */
  ghost predicate Apart(s: Sys, w: Sys, t: Tid, i: Instr) {
    forall u | u != t && !(i.Spawn? && i.u == u) :: (u in w.threads <==> u in s.threads) && (u in s.threads ==> w.threads[u] == s.threads[u])
  }

  /** No new agent, no change of the memory profiler, no new thread. */
  ghost predicate Calm(s: Sys, w: Sys) {
    w.gen == s.gen && w.memActive == s.memActive && w.threads.Keys == s.threads.Keys
  }

  predicate OnLocks(i: Instr) {
    i.Acquire? || i.Release? || i.Local? || i.Gate? || i.Quit? || i.Join?
  }

  predicate OnAgent(i: Instr) {
    i.ClaimRun? || i.ClaimStop? || i.Commit? || i.StartMem? || i.StopMem? || i.Spawn?
  }

  predicate OnData(i: Instr) {
    i.Intern? || i.Push? || i.Dump? || i.Clear? || i.ClearTable?
  }

  lemma {:induction false} StepsApart(s: Sys, t: Tid, c: Choice)
    requires Enabled(s, t)
    ensures Apart(s, Step(s, t, c), t, s.threads[t].prog.i)
  {
    var i := s.threads[t].prog.i;
    if OnLocks(i) {
      LocksApart(s, t, c);
    } else if OnAgent(i) {
      AgentApart(s, t, c);
    } else if OnData(i) {
      DataApart(s, t, c);
    } else {
      RestApart(s, t, c);
    }
  }

  lemma {:induction false} LocksApart(s: Sys, t: Tid, c: Choice)
    requires Enabled(s, t) && OnLocks(s.threads[t].prog.i)
    ensures Apart(s, Step(s, t, c), t, s.threads[t].prog.i) && Calm(s, Step(s, t, c))
  {
  }

  lemma {:induction false} AgentApart(s: Sys, t: Tid, c: Choice)
    requires Enabled(s, t) && OnAgent(s.threads[t].prog.i)
    ensures Apart(s, Step(s, t, c), t, s.threads[t].prog.i)
  {
    if s.threads[t].prog.i.ClaimRun? || s.threads[t].prog.i.ClaimStop? { ClaimApart(s, t, c); } else { BodyApart(s, t, c); }
  }

  lemma {:induction false} ClaimApart(s: Sys, t: Tid, c: Choice)
    requires Enabled(s, t) && (s.threads[t].prog.i.ClaimRun? || s.threads[t].prog.i.ClaimStop?)
    ensures Apart(s, Step(s, t, c), t, s.threads[t].prog.i)
  {
  }

  lemma {:induction false} BodyApart(s: Sys, t: Tid, c: Choice)
    requires Enabled(s, t) && OnAgent(s.threads[t].prog.i) && !s.threads[t].prog.i.ClaimRun? && !s.threads[t].prog.i.ClaimStop?
    ensures Apart(s, Step(s, t, c), t, s.threads[t].prog.i)
  {
  }

  lemma {:induction false} DataApart(s: Sys, t: Tid, c: Choice)
    requires Enabled(s, t) && OnData(s.threads[t].prog.i)
    ensures Apart(s, Step(s, t, c), t, s.threads[t].prog.i) && Calm(s, Step(s, t, c))
  {
    if s.threads[t].prog.i.Intern? || s.threads[t].prog.i.Push? { FillApart(s, t, c); } else { DrainApart(s, t, c); }
  }

  lemma {:induction false} FillApart(s: Sys, t: Tid, c: Choice)
    requires Enabled(s, t) && (s.threads[t].prog.i.Intern? || s.threads[t].prog.i.Push?)
    ensures Apart(s, Step(s, t, c), t, s.threads[t].prog.i) && Calm(s, Step(s, t, c))
  {
  }

  lemma {:induction false} DrainApart(s: Sys, t: Tid, c: Choice)
    requires Enabled(s, t) && (s.threads[t].prog.i.Dump? || s.threads[t].prog.i.Clear? || s.threads[t].prog.i.ClearTable?)
    ensures Apart(s, Step(s, t, c), t, s.threads[t].prog.i) && Calm(s, Step(s, t, c))
  {
  }

  lemma {:induction false} RestApart(s: Sys, t: Tid, c: Choice)
    requires Enabled(s, t) && (s.threads[t].prog.i.Send? || s.threads[t].prog.i.Upload? || s.threads[t].prog.i.Loop?)
    ensures Apart(s, Step(s, t, c), t, s.threads[t].prog.i) && Calm(s, Step(s, t, c))
  {
  }

  lemma {:induction false} StepsCalm(s: Sys, t: Tid, c: Choice)
    requires Enabled(s, t)
    requires var i := s.threads[t].prog.i; !i.StartMem? && !i.StopMem? && !i.Spawn? && (i.ClaimRun? ==> s.agent != Idle)
    ensures Calm(s, Step(s, t, c))
  {
    var i := s.threads[t].prog.i;
    if OnLocks(i) {
      LocksApart(s, t, c);
    } else if OnData(i) {
      DataApart(s, t, c);
    } else if !OnAgent(i) {
      RestApart(s, t, c);
    }
  }

  /** What only a claimed call does. */
  lemma {:induction false} OnlyInBody(s: Sys, t: Tid)
    requires Inv(s) && Enabled(s, t)
    ensures var th := s.threads[t];
      && (th.prog.i.StartMem? || th.prog.i.StopMem? || th.prog.i.Spawn? || th.prog.i.Commit? ==> th.body)
      && (th.prog.i.Spawn? ==> !th.prog.i.u.Py? && th.prog.i.u.g == s.gen)
      && (th.body ==> !th.prog.i.ClaimRun? && !th.prog.i.ClaimStop? && !th.prog.i.Gate? && s.agent == Busy)
      && forall u | u in s.threads && s.threads[u].body && th.body :: u == t
  {
    Opened(s);
    assert ThreadOk(s, t, s.threads[t]);
  }

  lemma {:induction false} BusyBody(s: Sys, n: nat)
    requires Inv(s) && Py(n) in s.threads && s.threads[Py(n)].body
    ensures s.agent == Busy
  {
    Opened(s);
    BodyFacts(s, Py(n));
  }

  /** Nobody but a claimed call starts threads, starts or stops the memory profiler, or begins a new agent while it is under way. */
  lemma {:induction false} OthersLeave(s: Sys, t: Tid, c: Choice, n: nat)
    requires Inv(s) && t != Py(n) && Py(n) in s.threads
    ensures var w := Step(s, t, c);
      Py(n) in w.threads && w.threads[Py(n)] == s.threads[Py(n)] && (s.threads[Py(n)].body ==> Calm(s, w))
  {
    if Enabled(s, t) {
      OnlyInBody(s, t);
      StepsApart(s, t, c);
      if s.threads[Py(n)].body {
        BusyBody(s, n);
        StepsCalm(s, t, c);
      }
    }
  }

  lemma {:induction false} StoryStays(x: Story, s: Sys, w: Sys, n: nat)
    requires StoryOk(x, s, n) && !x.Out? && Py(n) in s.threads
    requires Py(n) in w.threads && w.threads[Py(n)] == s.threads[Py(n)]
    requires s.threads[Py(n)].body ==> w.gen == s.gen && w.memActive == s.memActive && forall u: Tid | !u.Py? :: u in w.threads <==> u in s.threads
    ensures StoryOk(x, w, n)
  {
  }

  lemma {:induction false} OutStays(s: Sys, t: Tid, c: Choice, n: nat)
    requires Inv(s) && s.Finished(Py(n)) && t != Py(n)
    ensures Step(s, t, c).Finished(Py(n))
  {
    if Enabled(s, t) {
      OnlyInBody(s, t);
      StepsApart(s, t, c);
    }
  }

  lemma {:induction false} OthersStory(x: Story, s: Sys, t: Tid, c: Choice, n: nat)
    requires Inv(s) && StoryOk(x, s, n) && t != Py(n)
    ensures StoryOk(x, Step(s, t, c), n)
  {
    if x.Out? {
      OutStays(s, t, c, n);
    } else {
      OthersLeave(s, t, c, n);
      StoryStays(x, s, Step(s, t, c), n);
    }
  }

  lemma {:induction false} EnterStory(x: Story, s: Sys, m: nat, call: Call, n: nat)
    requires Inv(s) && StoryOk(x, s, n)
    ensures StoryOk(if m == n && s.Finished(Py(n)) then Asking(call) else x, Enter(s, m, call), n)
  {
    if s.Finished(Py(m)) {
      if m == n {
        if call.TagCall? || call.HookCall? { CallsAre(call); }
      } else if !x.Out? {
        StoryStays(x, s, Enter(s, m, call), n);
      }
    }
  }

  // ---- Steps of the call itself ----

  /** A call that is asking takes the GIL, then the state lock, and then claims; all else goes on harmlessly. */
  lemma {:induction false} AskingStory(x: Story, s: Sys, n: nat, c: Choice)
    requires Inv(s) && StoryOk(x, s, n) && x.Asking? && Enabled(s, Py(n))
    ensures StoryOk(Told(x, s, Step(s, Py(n), c), n, c), Step(s, Py(n), c), n)
  {
    if s.threads[Py(n)].prog.i.ClaimRun? {
      ClaimRunStory(x, s, n, c);
    } else if s.threads[Py(n)].prog.i.ClaimStop? {
      ClaimStopStory(x, s, n, c);
    } else {
      AsksOn(x, s, n, c);
    }
  }

  lemma {:induction false} AsksOn(x: Story, s: Sys, n: nat, c: Choice)
    requires Inv(s) && StoryOk(x, s, n) && x.Asking? && Enabled(s, Py(n))
    requires !s.threads[Py(n)].prog.i.ClaimRun? && !s.threads[Py(n)].prog.i.ClaimStop?
    ensures StoryOk(Told(x, s, Step(s, Py(n), c), n, c), Step(s, Py(n), c), n)
  {
    HarmlessGoesOn(s, n, c);
  }

  lemma {:induction false} HarmlessGoesOn(s: Sys, n: nat, c: Choice)
    requires Inv(s) && Enabled(s, Py(n)) && !s.threads[Py(n)].body
    requires var i := s.threads[Py(n)].prog.i; !i.ClaimRun? && !i.ClaimStop?
    ensures var th := s.threads[Py(n)]; !th.prog.i.Commit?
    ensures var w := Step(s, Py(n), c); Py(n) in w.threads && !w.threads[Py(n)].body
    ensures var th, w := s.threads[Py(n)], Step(s, Py(n), c);
      w.threads[Py(n)].prog == th.prog.k || (th.prog.i.Gate? && w.threads[Py(n)].prog == th.prog.i.other)
  {
    Opened(s);
    assert ThreadOk(s, Py(n), s.threads[Py(n)]);
  }

  lemma {:induction false} ClaimRunStory(x: Story, s: Sys, n: nat, c: Choice)
    requires Inv(s) && StoryOk(x, s, n) && x.Asking? && Enabled(s, Py(n)) && s.threads[Py(n)].prog.i.ClaimRun?
    ensures StoryOk(Told(x, s, Step(s, Py(n), c), n, c), Step(s, Py(n), c), n)
  {
    if s.agent == Idle {
      ClaimedRun(s, n, c);
    } else {
      assert Harmless(Then(Release(Gil), Done));
      assert Harmless(REFUSED);
    }
  }

  lemma {:induction false} ClaimedRun(s: Sys, n: nat, c: Choice)
    requires Inv(s) && Enabled(s, Py(n)) && s.threads[Py(n)].prog.i.ClaimRun? && s.agent == Idle
    ensures var w := Step(s, Py(n), c); ClaimOk(w, w.threads[Py(n)].prog, RunCall, Idle, c.run)
  {
    Opened(s);
    assert FactsOk(s, CLEAN);
    NoneOfNext(s);
    FreshRun(Step(s, Py(n), c), RunBody(s.gen + 1, c.run), c.run);
  }

  /** Nothing is started yet when a run begins. */
  lemma {:induction false} FreshRun(w: Sys, prog: Program, c: RunChoice)
    requires prog == RunBody(w.gen, c) && !w.memActive && forall u: Tid | u in w.threads && !u.Py? :: u.g != w.gen
    ensures ClaimOk(w, prog, RunCall, Idle, c)
  {
    var starts := RunBodyDoes(w.gen, c);
  }

  /** Nobody belongs to an agent that is still to come. */
  lemma {:induction false} NoneOfNext(s: Sys)
    requires LifecycleSafety.Threads(s)
    ensures forall u: Tid | u in s.threads && !u.Py? :: u.g != s.gen + 1
  {
    forall u: Tid | u in s.threads && !u.Py?
      ensures u.g != s.gen + 1
    {
      assert ThreadOk(s, u, s.threads[u]);
    }
  }

  lemma {:induction false} ClaimStopStory(x: Story, s: Sys, n: nat, c: Choice)
    requires Inv(s) && StoryOk(x, s, n) && x.Asking? && Enabled(s, Py(n)) && s.threads[Py(n)].prog.i.ClaimStop?
    ensures StoryOk(Told(x, s, Step(s, Py(n), c), n, c), Step(s, Py(n), c), n)
  {
    Opened(s);
    if s.agent.Running? {
      StopBodyDoes(s.agent.g);
    } else {
      assert Harmless(Then(Release(Gil), Done));
      assert Harmless(REFUSED);
    }
  }

  /** One operation of a claimed call that is not its commit. */
  lemma {:induction false} BodyGoesOn(s: Sys, n: nat, c: Choice)
    requires Inv(s) && Enabled(s, Py(n)) && s.threads[Py(n)].body && CommitsOnce(s.threads[Py(n)].prog)
    requires !s.threads[Py(n)].prog.i.Commit?
    ensures var th, w := s.threads[Py(n)], Step(s, Py(n), c);
      && Py(n) in w.threads && w.threads[Py(n)].body && w.threads[Py(n)].prog == th.prog.k && w.gen == s.gen
      && w.threads.Keys == s.threads.Keys + (if th.prog.i.Spawn? then {th.prog.i.u} else {})
      && w.memActive == (th.prog.i.StartMem? || (s.memActive && !th.prog.i.StopMem?))
  {
    OnlyInBody(s, Py(n));
    var i := s.threads[Py(n)].prog.i;
    NextInBody(s, n, c);
    if !i.StartMem? && !i.StopMem? && !i.Spawn? { StepsCalm(s, Py(n), c); }
  }

  lemma {:induction false} NextInBody(s: Sys, n: nat, c: Choice)
    requires Enabled(s, Py(n)) && s.threads[Py(n)].body
    requires var i := s.threads[Py(n)].prog.i; !i.Commit? && !i.ClaimRun? && !i.ClaimStop? && !i.Gate? && (i.Spawn? ==> !i.u.Py?)
    ensures GoesOn(s, Step(s, Py(n), c), n)
  {
    if OnData(s.threads[Py(n)].prog.i) { NextOnData(s, n, c); } else if OnLocks(s.threads[Py(n)].prog.i) { NextOnLocks(s, n, c); }
  }

  ghost predicate GoesOn(s: Sys, w: Sys, n: nat)
    requires Py(n) in s.threads && s.threads[Py(n)].prog != Done
  {
    Py(n) in w.threads && w.threads[Py(n)].body == s.threads[Py(n)].body && w.threads[Py(n)].prog == s.threads[Py(n)].prog.k
  }

  lemma {:induction false} NextOnLocks(s: Sys, n: nat, c: Choice)
    requires Enabled(s, Py(n)) && OnLocks(s.threads[Py(n)].prog.i) && !s.threads[Py(n)].prog.i.Gate?
    ensures GoesOn(s, Step(s, Py(n), c), n)
  {
  }

  lemma {:induction false} NextOnData(s: Sys, n: nat, c: Choice)
    requires Enabled(s, Py(n)) && OnData(s.threads[Py(n)].prog.i)
    ensures GoesOn(s, Step(s, Py(n), c), n)
  {
  }

  lemma {:induction false} ClaimedStory(x: Story, s: Sys, n: nat, c: Choice)
    requires Inv(s) && StoryOk(x, s, n) && x.Claimed? && Enabled(s, Py(n)) && !s.threads[Py(n)].prog.i.Commit?
    ensures StoryOk(x, Step(s, Py(n), c), n) && Told(x, s, Step(s, Py(n), c), n, c) == x
  {
    BodyGoesOn(s, n, c);
  }

  /** At the commit of a teardown everything is gone. */
  lemma {:induction false} CommitIdle(s: Sys, n: nat)
    requires Inv(s) && Enabled(s, Py(n)) && s.threads[Py(n)].prog.i == Commit(Idle)
    ensures TornDown(s, s.gen) && (SessionT(s.gen) in s.threads ==> s.received == s.sent)
  {
    Opened(s);
    assert ThreadOk(s, Py(n), s.threads[Py(n)]);
    BodyFacts(s, Py(n));
    if SessionT(s.gen) in s.threads { AllReceived(s); }
    forall b
      ensures s.Window(b) == []
    {
      if b in s.windows { assert IsBuilder(b); }
    }
  }

  lemma {:induction false} CommitRunning(s: Sys, n: nat, c: RunChoice)
    requires Inv(s) && Enabled(s, Py(n)) && s.threads[Py(n)].body && Started(s, s.threads[Py(n)].prog, c)
    requires s.threads[Py(n)].prog.i == Commit(Running(s.gen)) && c.client && c.ok
    requires Harmless(s.threads[Py(n)].prog.k)
    ensures Up(s, s.gen, c)
  {
    Opened(s);
    assert ThreadOk(s, Py(n), s.threads[Py(n)]);
    BodyFacts(s, Py(n));
    var prog := s.threads[Py(n)].prog;
    HarmlessInBody(Py(n), prog.k, s.threads[Py(n)].held, false, s.threads[Py(n)].facts, s.gen);
  }

  /** Behind its commit a call starts nothing. */
  lemma {:induction false} HarmlessInBody(t: Tid, prog: Program, held: set<Res>, hook: bool, f: Facts, g: nat)
    requires Safe(t, prog, held, hook, false, f, g)
    ensures ToStart(prog) == {} && !StartsMem(prog)
    decreases prog
  {
    if prog != Done {
      match prog.i
      case Acquire(r) => HarmlessInBody(t, prog.k, held + {r}, hook, f, g);
      case Release(r) => HarmlessInBody(t, prog.k, held - {r}, hook && r != Gil, f, g);
      case Gate(other) => HarmlessInBody(t, prog.k, held, true, f, g);
      case ClaimRun =>
      case ClaimStop =>
      case Loop =>
      case Local => HarmlessInBody(t, prog.k, held, hook, f, g);
      case Upload(_) => HarmlessInBody(t, prog.k, held, hook, f, g);
      case Send(_, _) => HarmlessInBody(t, prog.k, held, hook, f, g);
      case Intern(_) => HarmlessInBody(t, prog.k, held, hook, f, g);
      case Push(_) => HarmlessInBody(t, prog.k, held, hook, f, g);
      case Dump(_) => HarmlessInBody(t, prog.k, held, hook, f, g);
      case _ =>
    }
  }

  lemma {:induction false} CommitStory(x: Story, s: Sys, n: nat, c: Choice)
    requires Inv(s) && StoryOk(x, s, n) && x.Claimed? && Enabled(s, Py(n)) && s.threads[Py(n)].prog.i.Commit?
    ensures StoryOk(Told(x, s, Step(s, Py(n), c), n, c), Step(s, Py(n), c), n)
  {
    var to := s.threads[Py(n)].prog.i.to;
    OnlyInBody(s, Py(n));
    Committed(s, n, c);
    if to == Idle {
      CommitIdle(s, n);
    } else {
      CommitRunning(s, n, x.choice);
      UpStays(s, Step(s, Py(n), c), s.gen, x.choice);
    }
  }

  lemma {:induction false} Committed(s: Sys, n: nat, c: Choice)
    requires Enabled(s, Py(n)) && s.threads[Py(n)].prog.i.Commit?
    ensures var w, th := Step(s, Py(n), c), s.threads[Py(n)];
      && w == s.(threads := s.threads[Py(n) := w.threads[Py(n)]], agent := th.prog.i.to, runs := w.runs)
      && w.threads[Py(n)] == th.(prog := th.prog.k, body := false)
  {
  }

  lemma UpStays(s: Sys, w: Sys, g: nat, c: RunChoice)
    requires Up(s, g, c) && w.memActive == s.memActive && forall u: Tid | !u.Py? :: (u in w.threads <==> u in s.threads) && (u in s.threads ==> w.threads[u] == s.threads[u])
    ensures Up(w, g, c)
  {
  }

  lemma {:induction false} OwnStory(x: Story, s: Sys, n: nat, c: Choice)
    requires Inv(s) && StoryOk(x, s, n) && Enabled(s, Py(n))
    ensures StoryOk(Told(x, s, Step(s, Py(n), c), n, c), Step(s, Py(n), c), n)
  {
    match x
    case Asking(_) => AskingStory(x, s, n, c);
    case Claimed(_, _, _) => if s.threads[Py(n)].prog.i.Commit? { CommitStory(x, s, n, c); } else { ClaimedStory(x, s, n, c); }
    case _ => HarmlessGoesOn(s, n, c);
  }

  // ---- Every run ----

  lemma {:induction false} MoveStory(x: Story, s: Sys, t: Tid, c: Choice, n: nat)
    requires Inv(s) && StoryOk(x, s, n)
    ensures StoryOk(Told1(x, Live(s), Move(t, c), n), Step(s, t, c), n)
  {
    if t != Py(n) {
      OthersStory(x, s, t, c, n);
    } else if Enabled(s, t) {
      OwnStory(x, s, n, c);
    }
  }

  lemma {:induction false} StoriesAreTrue(actions: seq<Action>, n: nat)
    ensures match Run(actions)
      case Live(s) => StoryOk(StoryOf(actions, n), s, n)
      case Forked(_) => StoryOf(actions, n) == Out
    decreases |actions|
  {
    if actions != [] {
      var front, a := actions[..|actions| - 1], actions[|actions| - 1];
      StoriesAreTrue(front, n);
      RunKeepsOk(front);
      if Run(front).Live? {
        LiveStory(StoryOf(front, n), Run(front).s, a, n);
      } else {
        ForkedStory(Run(front).c, a, n);
      }
    }
  }

  lemma {:induction false} LiveStory(x: Story, s: Sys, a: Action, n: nat)
    requires Inv(s) && StoryOk(x, s, n)
    ensures match Do(Live(s), a)
      case Live(w) => StoryOk(Told1(x, Live(s), a, n), w, n)
      case Forked(_) => Told1(x, Live(s), a, n) == Out
  {
    match a
    case Call(m, call) => EnterStory(x, s, m, call, n);
    case Move(t, c) => MoveStory(x, s, t, c, n);
    case _ =>
  }

  lemma {:induction false} ForkedStory(c: Child, a: Action, n: nat)
    requires ChildOk(c)
    ensures Do(Forked(c), a).Live? ==> StoryOk(Out, Do(Forked(c), a).s, n)
  {
  }

  /**
   Every call of `run` and `stop` gets its due. `stop` is refused if and only if the agent is not running when the call
   has the state lock, and `run` if and only if there is an agent. A `stop` that is not refused returns only after it
   has left the state idle, with every thread of that agent ended, every session received, both profilers stopped, and
   builders and table emptied. A `run` that is not refused returns with the agent running, with just what was chosen for
   it, or with everything torn down again.
   */
  lemma {:induction false} CallsEndAsTheyShould(actions: seq<Action>, s: Sys, n: nat)
    requires Run(actions) == Live(s)
    ensures var x := StoryOf(actions, n);
      && (x.Refused? ==> RightlyRefused(x.call, x.seen))
      && (x.Claimed? || x.Closed? ==> RightlyClaimed(x.call, x.seen))
      && (x.Closed? ==> RightlyClosed(x.call, x.seen, x.choice, x.at, x.after))
      && (s.Finished(Py(n)) ==> x.Out? || x.Refused? || x.Closed? || (x.Asking? && (x.call.TagCall? || x.call.HookCall?)))
  {
    StoriesAreTrue(actions, n);
  }

  /** What a call sees of the agent it sees with the state lock in its hands. */
  lemma {:induction false} ClaimsHoldTheState(actions: seq<Action>, s: Sys, t: Tid)
    requires Run(actions) == Live(s) && Enabled(s, t) && (s.threads[t].prog.i.ClaimRun? || s.threads[t].prog.i.ClaimStop?)
    ensures Gil in s.locks && StateLock in s.locks && s.locks[Gil] == s.locks[StateLock] == t
  {
    RunKeepsOk(actions);
    Opened(s);
    assert ThreadOk(s, t, s.threads[t]);
  }

  // ---- Getting on ----

  /** How many operations a program has left at most. A claim stands for what may follow it. */
  ghost function Size(prog: Program): nat
    decreases prog
  {
    match prog
    case Done => 0
    case Then(i, k) =>
      match i
      case ClaimRun => 31
      case ClaimStop => 31
      case Gate(other) => 1 + if Size(other) > Size(k) then Size(other) else Size(k)
      case _ => 1 + Size(k)
  }

  lemma LockedSize(r: Res, i: Instr, k: Program)
    requires i.Clear? || i.ClearTable? || i.Commit? || i.Local? || i.Push? || i.Intern?
    ensures Size(Locked(r, i, k)) == 3 + Size(k)
  {
    assert Size(Then(Release(r), k)) == 1 + Size(k);
    assert Size(Then(i, Then(Release(r), k))) == 2 + Size(k);
  }

  lemma FinishSize(to: AgentState)
    ensures Size(Finish(to)) == 4
  {
    LockedSize(StateLock, Commit(to), Then(Release(Gil), Done));
    assert Size(Then(Release(Gil), Done)) == 1;
  }

  lemma TeardownSize(g: nat)
    ensures Size(Teardown(g)) == 21
  {
    FinishSize(Idle);
    var table := Locked(Table, ClearTable, Finish(Idle));
    LockedSize(Table, ClearTable, Finish(Idle));
    LockedSize(OnCpuB, Clear(OnCpuB), table);
    LockedSize(StackB, Clear(StackB), Locked(OnCpuB, Clear(OnCpuB), table));
    assert Size(Then(Acquire(Gil), ClearStack())) == 14;
    assert Size(Then(Join(StackT(g)), Then(Acquire(Gil), ClearStack()))) == 15;
    assert Size(Then(Release(Gil), JoinStack(g))) == 17;
    LockedSize(MemB, Clear(MemB), Then(Release(Gil), JoinStack(g)));
  }

  lemma StopSize(g: nat)
    ensures Size(StopBody(g)) == 30
  {
    TeardownSize(g);
    assert Size(Then(Acquire(Gil), Teardown(g))) == 22;
    assert Size(Then(Join(SessionT(g)), Then(Acquire(Gil), Teardown(g)))) == 23;
    assert Size(KillSession(g)) == 24;
    assert Size(Then(Join(SignalT(g)), KillSession(g))) == 25;
    assert Size(Lifecycle.StopSampler(g)) == 26;
    assert Size(Then(Join(AgentT(g)), Lifecycle.StopSampler(g))) == 27;
    assert Size(Then(Quit(AgentT(g)), Then(Join(AgentT(g)), Lifecycle.StopSampler(g)))) == 28;
    assert Size(Then(Release(Gil), Then(Quit(AgentT(g)), Then(Join(AgentT(g)), Lifecycle.StopSampler(g))))) == 29;
  }

  lemma RunSize(g: nat, c: RunChoice)
    ensures Size(RunBody(g, c)) <= 30
  {
    TeardownSize(g);
    FinishSize(Running(g));
    assert Size(Then(Spawn(AgentT(g)), Finish(Running(g)))) == 5;
    assert Size(StartSession(g)) == 6;
    assert Size(BuildAgent(g, c)) <= 21;
    assert Size(Then(Join(ClientT(g)), BuildAgent(g, c))) <= 22;
    assert Size(BuildClient(g, c)) <= 23;
    YieldSize(if c.client then BuildClient(g, c) else Teardown(g));
    assert Size(StartAgent(g, c)) <= 25;
    assert Size(Then(Spawn(StackT(g)), StartAgent(g, c))) <= 26;
    YieldSize(if c.stack then Then(Spawn(StackT(g)), StartAgent(g, c)) else StartAgent(g, c));
    assert Size(StartStack(g, c)) <= 28;
    assert Size(Then(StartMem, StartStack(g, c))) <= 29;
  }

  lemma YieldSize(k: Program)
    ensures Size(YieldGil(k)) == 2 + Size(k)
  {
    assert Size(Then(Acquire(Gil), k)) == 1 + Size(k);
  }

  lemma CallSize(call: Call)
    ensures Size(match call case RunCall => RUN_CALL case StopCall => STOP_CALL case TagCall => TAG_CALL case HookCall => HOOK_CALL) <= 33
  {
    var ret := Then(Release(Gil), Done);
    assert Size(ret) == 1;
    LockedSize(StateLock, Local, ret);
    LockedSize(MemB, Push(MemB), ret);
    LockedSize(Table, Intern(Mem), Locked(MemB, Push(MemB), ret));
    assert Size(Then(Gate(ret), Locked(Table, Intern(Mem), Locked(MemB, Push(MemB), ret)))) == 8;
    assert Size(Then(ClaimRun, Done)) == 31 && Size(Then(ClaimStop, Done)) == 31;
    assert Size(Then(Acquire(StateLock), Then(ClaimRun, Done))) == 32;
    assert Size(Then(Acquire(StateLock), Then(ClaimStop, Done))) == 32;
  }

  /** Every operation of a Python thread brings it nearer to the end of its call. */
  lemma {:induction false} OwnShrinks(s: Sys, n: nat, c: Choice)
    requires Inv(s) && Enabled(s, Py(n))
    ensures var w := Step(s, Py(n), c); Py(n) in w.threads && Size(w.threads[Py(n)].prog) < Size(s.threads[Py(n)].prog)
  {
    OnlyInBody(s, Py(n));
    var th := s.threads[Py(n)];
    if th.prog.i.ClaimRun? || th.prog.i.ClaimStop? {
      ClaimShrinks(s, n, c);
    } else if !th.body {
      HarmlessGoesOn(s, n, c);
    } else if th.prog.i.Commit? {
      Committed(s, n, c);
    } else {
      NextInBody(s, n, c);
    }
  }

  lemma {:induction false} ClaimShrinks(s: Sys, n: nat, c: Choice)
    requires Enabled(s, Py(n)) && (s.threads[Py(n)].prog.i.ClaimRun? || s.threads[Py(n)].prog.i.ClaimStop?)
    ensures var w := Step(s, Py(n), c); Py(n) in w.threads && Size(w.threads[Py(n)].prog) < 31 == Size(s.threads[Py(n)].prog)
  {
    RunSize(s.gen + 1, c.run);
    if s.agent.Running? { StopSize(s.agent.g); }
    assert Size(Then(Release(Gil), Done)) == 1;
    assert Size(REFUSED) == 2;
  }

  /** What is left of the call of Python thread `n`. */
  ghost function CallLeft(p: Process, n: nat): nat {
    match p
    case Forked(_) => 0
    case Live(s) => if s.Finished(Py(n)) then 0 else Size(s.threads[Py(n)].prog)
  }

  /** The operations of Python thread `n` among `more`. */
  ghost function Operations(p: Process, more: seq<Action>, n: nat): nat
    decreases |more|
  {
    if more == [] then 0
    else
      var q, a := After(p, more[..|more| - 1]), more[|more| - 1];
      Operations(p, more[..|more| - 1], n)
      + if q.Live? && a.Move? && a.t == Py(n) && Enabled(q.s, Py(n)) then 1 else 0
  }

  lemma {:induction false} LeftFalls(p: Process, a: Action, n: nat)
    requires Ok(p) && !(a.Call? && a.n == n)
    ensures CallLeft(Do(p, a), n) + (if p.Live? && a.Move? && a.t == Py(n) && Enabled(p.s, Py(n)) then 1 else 0) <= CallLeft(p, n)
  {
    if p.Live? && a.Move? {
      if a.t == Py(n) {
        if Enabled(p.s, Py(n)) { OwnShrinks(p.s, n, a.choice); }
      } else if p.s.Finished(Py(n)) {
        OutStays(p.s, a.t, a.choice, n);
      } else {
        OthersLeave(p.s, a.t, a.choice, n);
      }
    } else if p.Forked? {
      ForkedStory(p.c, a, n);
    }
  }

  /**
   A call of `run` or `stop`, or a hook, is over after at most 33 operations of its own. Together with the fact that
   nobody waits forever, every call returns.
   */
  lemma {:induction false} CallsAreShort(before: seq<Action>, n: nat, call: Call, more: seq<Action>)
    requires Run(before).Live? && Run(before).s.Finished(Py(n)) && forall a | a in more :: !(a.Call? && a.n == n)
    ensures var p := Do(Run(before), Call(n, call)); CallLeft(After(p, more), n) + Operations(p, more, n) <= 33
    decreases |more|
  {
    RunOn(before, Call(n, call));
    RunAfter(before + [Call(n, call)], more);
    if more == [] {
      CallSize(call);
    } else {
      var front := more[..|more| - 1];
      CallsAreShort(before, n, call, front);
      RunAfter(before + [Call(n, call)], front);
      RunKeepsOk(before + [Call(n, call)] + front);
      assert more[|more| - 1] in more;
      LeftFalls(After(Do(Run(before), Call(n, call)), front), more[|more| - 1], n);
    }
  }
}
