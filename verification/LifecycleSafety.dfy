/** What every step of the profiler's threads keeps, and why nobody waits forever. */
module LifecycleSafety {
  import opened Lifecycle
  import Strings

  // ---- Programs that keep the discipline ----

  /**
   The rest of a program, for a thread that holds `held`: locks are taken in their order and released at the
   end, joins and sends happen without any lock, but for the join of the client thread under the GIL, and a
   teardown does its steps in an order that makes each of them safe. `f` is what the teardown has established; `g` is the agent it is about.
   */
  ghost predicate Safe(t: Tid, prog: Program, held: set<Res>, hook: bool, body: bool, f: Facts, g: nat)
    decreases prog
  {
    match prog
    case Done => held == {} && !hook && !body
    case Then(i, rest) =>
      match i
      case Acquire(r) =>
        r !in held && (forall h | h in held :: Order(h) < Order(r)) && (NeedsGil(r) ==> Gil in held)
        && Safe(t, rest, held + {r}, hook, body, f, g)
      case Release(r) => r in held && (r.Gil? ==> StateLock !in held && MemB !in held) && Safe(t, rest, held - {r}, hook && r != Gil, body, f, g)
      case Local => Safe(t, rest, held, hook, body, f, g)
      case Upload(_) => t.SessionT? && held == {} && Safe(t, rest, held, hook, body, f, g)
      case ClaimRun => held == {Gil, StateLock} && rest == Done && !body && !hook && t.Py?
      case ClaimStop => held == {Gil, StateLock} && rest == Done && !body && !hook && t.Py?
      case Commit(to) =>
        body && held == {Gil, StateLock} && !hook && Safe(t, rest, held, hook, false, f, g)
        && f.clientJoined && if to.Idle? then f.tableFresh && f.sessionJoined && f.signalJoined else to == Running(g) && !f.killed && !f.sessionJoined
      case StartMem => body && Gil in held && Safe(t, rest, held, hook, body, f.(memStopped := false, memClear := false, tableFresh := false), g)
      case StopMem => body && Gil in held && !hook && Safe(t, rest, held, hook, body, f.(memStopped := true), g)
      case Gate(other) =>
        held == {Gil} && !body && !hook && (t.Py? || t.AgentT?) && Safe(t, rest, held, true, body, f, g) && Safe(t, other, held, hook, body, f, g)
      case Spawn(u) => body && !u.Py? && u.g == g && !f.killed && Absent(f, u) && Safe(t, rest, held, hook, body, Spawned(f, u), g)
      case Quit(u) => body && Safe(t, rest, held, hook, body, f, g)
      case Join(u) =>
        body && held == (if u.ClientT? then {Gil} else {}) && !u.Py? && u.g == g && (u.SessionT? ==> f.killed) && Safe(t, rest, held, hook, body, Joined(f, u), g)
      case Send(h, msg) =>
        held == {} && (if msg.Kill? then body && f.agentJoined && !f.killed && !f.sessionJoined else t == AgentT(h))
        && Safe(t, rest, held, hook, body, if msg.Kill? then f.(killed := true) else f, g)
      case Intern(c) => Table in held && (if c.Mem? then hook else t.StackT?) && Safe(t, rest, held, hook, body, f, g)
      case Push(b) => IsBuilder(b) && b in held && (if b.MemB? then hook else t.StackT?) && Safe(t, rest, held, hook, body, f, g)
      case Dump(b) => IsBuilder(b) && {Table, b} <= held && t.AgentT? && Safe(t, rest, held, hook, body, f, g)
      case Clear(b) =>
        body && IsBuilder(b) && b in held && (if b.MemB? then f.memStopped else f.stackJoined)
        && Safe(t, rest, held, hook, body, Cleared(f, b), g)
      case ClearTable =>
        body && Table in held && f.memClear && f.stackClear && f.onCpuClear && f.agentJoined
        && Safe(t, rest, held, hook, body, f.(tableFresh := true), g)
      case Loop => held == {} && rest == Done && !hook && !body && !t.Py?
  }

  /** Locks that are taken under the GIL only. */
  predicate NeedsGil(r: Res) {
    r.StateLock? || r.MemB?
  }

  /** The thread is known to be gone, or never to have been there. */
  predicate Absent(f: Facts, u: Tid) {
    match u
    case AgentT(_) => f.agentJoined
    case SessionT(_) => f.sessionJoined
    case SignalT(_) => f.signalJoined
    case StackT(_) => f.stackJoined
    case ClientT(_) => f.clientJoined
    case Py(_) => false
  }

  /** The program of a thread that stops only at its own loop. */
  ghost predicate EndsInLoop(prog: Program) {
    match prog
    case Done => false
    case Then(i, k) => if k == Done then i == Loop else EndsInLoop(k)
  }

  // ---- The invariant ----

  ghost predicate FactsOk(s: Sys, f: Facts) {
    && (f.memStopped ==> !s.memActive && s.memHandles == {})
    && (f.memClear ==> f.memStopped && s.Window(MemB) == [])
    && (f.stackJoined ==> s.Finished(StackT(s.gen)))
    && (f.stackClear ==> f.stackJoined && s.Window(StackB) == [])
    && (f.onCpuClear ==> f.stackJoined && s.Window(OnCpuB) == [])
    && (f.agentJoined ==> s.Finished(AgentT(s.gen)))
    && (f.sessionJoined ==> s.Finished(SessionT(s.gen)))
    && (!f.sessionJoined ==> SessionT(s.gen) in s.threads)
    && (f.signalJoined ==> s.Finished(SignalT(s.gen)))
    && (f.clientJoined ==> s.Finished(ClientT(s.gen)))
    && (f.tableFresh ==> s.table == [""] && f.memClear && f.stackClear && f.onCpuClear && f.agentJoined)
  }

  ghost predicate ThreadOk(s: Sys, t: Tid, th: Thread) {
    && Safe(t, th.prog, th.held, th.hook, th.body, th.facts, s.gen)
    && (th.hook ==> Gil in th.held && s.memActive && !th.body && (t.Py? || t.AgentT?))
    && (th.body ==> s.agent == Busy && t.Py? && FactsOk(s, th.facts) && (th.facts.killed <==> Kill in s.sent))
    && (!t.Py? ==> t.g <= s.gen && (th.prog != Done ==> t.g == s.gen))
    && ((t.StackT? || t.SessionT?) && th.prog != Done ==> EndsInLoop(th.prog))
    && (t.ClientT? ==> th.prog == CLIENT || th.prog == Done)
    && (forall r | r in th.held && NeedsGil(r) :: Gil in th.held)
  }

  ghost predicate Threads(s: Sys) {
    && (forall t {:trigger ThreadOk(s, t, s.threads[t])} | t in s.threads :: ThreadOk(s, t, s.threads[t]))
    && (forall t, u | t in s.threads && u in s.threads && s.threads[t].body && s.threads[u].body :: t == u)
  }

  ghost predicate Locks(s: Sys) {
    && (forall r | r in s.locks :: s.locks[r] in s.threads && r in s.threads[s.locks[r]].held)
    && (forall t, r | t in s.threads && r in s.threads[t].held :: r in s.locks && s.locks[r] == t)
  }

  ghost predicate Agent(s: Sys) {
    && (s.agent.Idle? ==> FactsOk(s, CLEAN))
    && (s.agent.Busy? ==> exists t :: t in s.threads && s.threads[t].body)
    && (s.agent.Running? ==> s.agent.g == s.gen && Kill !in s.sent && SessionT(s.gen) in s.threads && s.Finished(ClientT(s.gen)))
    && s.runs == s.stops + (if s.agent.Running? then 1 else 0)
  }

  ghost predicate ValidHandle(table: seq<string>, h: Handle) {
    h.0 < |table| && table[h.0] == h.1
  }

  ghost predicate ValidSamples(table: seq<string>, samples: seq<seq<Handle>>) {
    forall x | x in samples :: forall h | h in x :: ValidHandle(table, h)
  }

  ghost predicate Handles(s: Sys) {
    && (forall h | h in s.memHandles :: ValidHandle(s.table, h))
    && (forall h | h in s.stackHandles :: ValidHandle(s.table, h))
    && (forall b | b in s.windows :: IsBuilder(b) && ValidSamples(s.table, s.windows[b]))
    && (s.Finished(StackT(s.gen)) ==> s.stackHandles == {})
    && (forall e | e in s.emitted :: ValidSamples(e.table, e.samples))
  }

  ghost predicate Channel(s: Sys) {
    && s.sent == s.received + s.channel && |s.channel| <= CAPACITY
    && (forall i | 0 <= i < |s.sent| - 1 :: s.sent[i] != Kill)
    && (Kill in s.sent ==> s.Finished(AgentT(s.gen)))
    && (Kill in s.received ==> s.Finished(SessionT(s.gen)))
    && (SessionT(s.gen) in s.threads && s.Finished(SessionT(s.gen)) ==> Kill in s.received)
  }

  ghost predicate Parts(s: Sys) {
    Threads(s) && Locks(s) && Agent(s) && Handles(s) && Channel(s)
  }

  predicate Look(s: Sys) {
    true
  }

  /** All of it, closed: a lemma that only passes it on does not look into it. */
  ghost predicate Inv(s: Sys) {
    forall x {:trigger Look(x)} | x == s && Look(x) :: Parts(x)
  }

  lemma Opened(s: Sys)
    requires Inv(s)
    ensures Parts(s)
  {
    assert Look(s);
  }

  // ---- The programs are safe ----

  /** Outside a claimed call a program depends neither on facts nor on the agent. */
  lemma {:induction false} SafeAnyGen(t: Tid, prog: Program, held: set<Res>, hook: bool, f: Facts, g: nat, f2: Facts, g2: nat)
    requires Safe(t, prog, held, hook, false, f, g)
    ensures Safe(t, prog, held, hook, false, f2, g2)
    decreases prog, 1
  {
    if prog != Done {
      match prog.i
      case Acquire(_) => SafeLocks(t, prog, held, hook, f, g, f2, g2);
      case Release(_) => SafeLocks(t, prog, held, hook, f, g, f2, g2);
      case Gate(_) => SafeLocks(t, prog, held, hook, f, g, f2, g2);
      case _ =>
    }
    if prog != Done && !prog.i.Acquire? && !prog.i.Release? && !prog.i.Gate? { SafeData(t, prog, held, hook, f, g, f2, g2); }
  }

  lemma {:induction false} SafeLocks(t: Tid, prog: Program, held: set<Res>, hook: bool, f: Facts, g: nat, f2: Facts, g2: nat)
    requires prog != Done && (prog.i.Acquire? || prog.i.Release? || prog.i.Gate?) && Safe(t, prog, held, hook, false, f, g)
    ensures Safe(t, prog, held, hook, false, f2, g2)
    decreases prog, 0
  {
    match prog.i
    case Acquire(r) => SafeAnyGen(t, prog.k, held + {r}, hook, f, g, f2, g2);
    case Release(r) => SafeAnyGen(t, prog.k, held - {r}, hook && r != Gil, f, g, f2, g2);
    case Gate(other) =>
      SafeAnyGen(t, prog.k, held, true, f, g, f2, g2);
      SafeAnyGen(t, other, held, hook, f, g, f2, g2);
  }

  lemma {:induction false} SafeData(t: Tid, prog: Program, held: set<Res>, hook: bool, f: Facts, g: nat, f2: Facts, g2: nat)
    requires prog != Done && !prog.i.Acquire? && !prog.i.Release? && !prog.i.Gate? && Safe(t, prog, held, hook, false, f, g)
    ensures Safe(t, prog, held, hook, false, f2, g2)
    decreases prog, 0
  {
    if prog.i.Local? || prog.i.Upload? || prog.i.Send? || prog.i.Intern? || prog.i.Push? || prog.i.Dump? {
      SafeAnyGen(t, prog.k, held, hook, f, g, f2, g2);
    }
  }

  lemma LockedIsSafe(t: Tid, r: Res, i: Instr, k: Program, held: set<Res>, hook: bool, body: bool, f: Facts, g: nat)
    requires r !in held && (forall h | h in held :: Order(h) < Order(r)) && (NeedsGil(r) ==> Gil in held) && r != Gil
    requires Safe(t, Then(i, Then(Release(r), k)), held + {r}, hook, body, f, g)
    ensures Safe(t, Locked(r, i, k), held, hook, body, f, g)
  {
  }

  lemma CallsAreSafe(t: Tid, g: nat)
    requires t.Py?
    ensures Safe(t, RUN_CALL, {}, false, false, NOTHING, g) && Safe(t, STOP_CALL, {}, false, false, NOTHING, g)
    ensures Safe(t, TAG_CALL, {}, false, false, NOTHING, g) && Safe(t, HOOK_CALL, {}, false, false, NOTHING, g)
  {
    assert {Gil} + {StateLock} == {Gil, StateLock};
    assert {} + {Gil} == {Gil};
    TagIsSafe(t, g);
    HookIsSafe(t, g);
  }

  lemma ReturnIsSafe(t: Tid, hook: bool, body: bool, f: Facts, g: nat)
    requires !body
    ensures Safe(t, Then(Release(Gil), Done), {Gil}, hook, body, f, g)
  {
    assert {Gil} - {Gil} == {};
    assert Safe(t, Done, {Gil} - {Gil}, false, body, f, g);
  }

  lemma TagIsSafe(t: Tid, g: nat)
    ensures Safe(t, TAG_CALL, {}, false, false, NOTHING, g)
  {
    ReturnIsSafe(t, false, false, NOTHING, g);
    var ret := Then(Release(Gil), Done);
    assert {Gil} + {StateLock} - {StateLock} == {Gil};
    assert Safe(t, Then(Release(StateLock), ret), {Gil} + {StateLock}, false, false, NOTHING, g);
    LockedIsSafe(t, StateLock, Local, ret, {Gil}, false, false, NOTHING, g);
    assert {} + {Gil} == {Gil};
  }

  /** What a hook does that has passed the gate: intern, then push. */
  lemma PushIsSafe(t: Tid, k: Program, f: Facts, g: nat)
    requires Safe(t, k, {Gil}, true, false, f, g)
    ensures Safe(t, Locked(MemB, Push(MemB), k), {Gil}, true, false, f, g)
  {
    assert {Gil} + {MemB} - {MemB} == {Gil};
    assert Safe(t, Then(Release(MemB), k), {Gil} + {MemB}, true, false, f, g);
    LockedIsSafe(t, MemB, Push(MemB), k, {Gil}, true, false, f, g);
  }

  lemma InternIsSafe(t: Tid, k: Program, f: Facts, g: nat)
    requires Safe(t, k, {Gil}, true, false, f, g)
    ensures Safe(t, Locked(Table, Intern(Mem), k), {Gil}, true, false, f, g)
  {
    assert {Gil} + {Table} - {Table} == {Gil};
    assert Safe(t, Then(Release(Table), k), {Gil} + {Table}, true, false, f, g);
    LockedIsSafe(t, Table, Intern(Mem), k, {Gil}, true, false, f, g);
  }

  /** The gate opens a hook, or leads around it. */
  lemma GateIsSafe(t: Tid, k: Program, other: Program, f: Facts, g: nat)
    requires t.Py? || t.AgentT?
    requires Safe(t, k, {Gil}, true, false, f, g) && Safe(t, other, {Gil}, false, false, f, g)
    ensures Safe(t, Then(Acquire(Gil), Then(Gate(other), k)), {}, false, false, f, g)
  {
    assert {} + {Gil} == {Gil};
    assert Safe(t, Then(Gate(other), k), {Gil}, false, false, f, g);
  }

  lemma HookIsSafe(t: Tid, g: nat)
    requires t.Py?
    ensures Safe(t, HOOK_CALL, {}, false, false, NOTHING, g)
  {
    var ret := Then(Release(Gil), Done);
    ReturnIsSafe(t, true, false, NOTHING, g);
    ReturnIsSafe(t, false, false, NOTHING, g);
    PushIsSafe(t, ret, NOTHING, g);
    InternIsSafe(t, Locked(MemB, Push(MemB), ret), NOTHING, g);
    GateIsSafe(t, Locked(Table, Intern(Mem), Locked(MemB, Push(MemB), ret)), ret, NOTHING, g);
  }

  lemma RefusedIsSafe(t: Tid, f: Facts, g: nat)
    ensures Safe(t, REFUSED, {Gil, StateLock}, false, false, f, g)
  {
    ReturnIsSafe(t, false, false, f, g);
    assert {Gil, StateLock} - {StateLock} == {Gil};
  }

  lemma FinishIsSafe(t: Tid, to: AgentState, f: Facts, g: nat)
    requires f.clientJoined && if to.Idle? then f.tableFresh && f.sessionJoined && f.signalJoined else to == Running(g) && !f.killed && !f.sessionJoined
    ensures Safe(t, Finish(to), {Gil}, false, true, f, g)
  {
    RefusedIsSafe(t, f, g);
    assert {Gil} + {StateLock} == {Gil, StateLock};
    LockedIsSafe(t, StateLock, Commit(to), Then(Release(Gil), Done), {Gil}, false, true, f, g);
  }

  /** Clearing one builder under the GIL and its lock. */
  lemma ClearIsSafe(t: Tid, b: Res, k: Program, f: Facts, g: nat)
    requires IsBuilder(b) && (if b.MemB? then f.memStopped else f.stackJoined)
    requires Safe(t, k, {Gil}, false, true, Cleared(f, b), g)
    ensures Safe(t, Locked(b, Clear(b), k), {Gil}, false, true, f, g)
  {
    assert {Gil} + {b} - {b} == {Gil};
    assert Safe(t, Then(Release(b), k), {Gil} + {b}, false, true, Cleared(f, b), g);
    LockedIsSafe(t, b, Clear(b), k, {Gil}, false, true, f, g);
  }

  lemma ClearTableIsSafe(t: Tid, f: Facts, g: nat)
    requires f.memClear && f.stackClear && f.onCpuClear && f.agentJoined && f.sessionJoined && f.signalJoined && f.clientJoined
    ensures Safe(t, Locked(Table, ClearTable, Finish(Idle)), {Gil}, false, true, f, g)
  {
    var f1 := f.(tableFresh := true);
    FinishIsSafe(t, Idle, f1, g);
    assert {Gil} + {Table} - {Table} == {Gil};
    assert Safe(t, Then(Release(Table), Finish(Idle)), {Gil} + {Table}, false, true, f1, g);
    LockedIsSafe(t, Table, ClearTable, Finish(Idle), {Gil}, false, true, f, g);
  }

  lemma ClearStackIsSafe(t: Tid, f: Facts, g: nat)
    requires f.memClear && f.stackJoined && f.agentJoined && f.sessionJoined && f.signalJoined && f.clientJoined
    ensures Safe(t, ClearStack(), {Gil}, false, true, f, g)
  {
    var f1 := f.(stackClear := true);
    ClearTableIsSafe(t, f1.(onCpuClear := true), g);
    ClearIsSafe(t, OnCpuB, Locked(Table, ClearTable, Finish(Idle)), f1, g);
    ClearIsSafe(t, StackB, Locked(OnCpuB, Clear(OnCpuB), Locked(Table, ClearTable, Finish(Idle))), f, g);
  }

  lemma JoinStackIsSafe(t: Tid, f: Facts, g: nat)
    requires f.memClear && f.agentJoined && f.sessionJoined && f.signalJoined && f.clientJoined
    ensures Safe(t, Then(Release(Gil), JoinStack(g)), {Gil}, false, true, f, g)
  {
    var f1 := f.(stackJoined := true);
    ClearStackIsSafe(t, f1, g);
    assert {Gil} - {Gil} == {} && {} + {Gil} == {Gil};
    assert Safe(t, Then(Acquire(Gil), ClearStack()), {}, false, true, f1, g);
    assert Safe(t, JoinStack(g), {}, false, true, f, g);
  }

  lemma TeardownIsSafe(t: Tid, f: Facts, g: nat)
    requires f.agentJoined && f.sessionJoined && f.signalJoined && f.clientJoined
    ensures Safe(t, Teardown(g), {Gil}, false, true, f, g)
  {
    var f1 := f.(memStopped := true);
    JoinStackIsSafe(t, f1.(memClear := true), g);
    ClearIsSafe(t, MemB, Then(Release(Gil), JoinStack(g)), f1, g);
  }

  lemma KillIsSafe(t: Tid, f: Facts, g: nat)
    requires f.agentJoined && f.signalJoined && f.clientJoined && !f.killed && !f.sessionJoined
    ensures Safe(t, KillSession(g), {}, false, true, f, g)
  {
    var f1 := f.(killed := true);
    var f2 := f1.(sessionJoined := true);
    TeardownIsSafe(t, f2, g);
    assert {} + {Gil} == {Gil};
    assert Safe(t, Then(Acquire(Gil), Teardown(g)), {}, false, true, f2, g);
    assert Safe(t, Then(Join(SessionT(g)), Then(Acquire(Gil), Teardown(g))), {}, false, true, f1, g);
  }

  /** `stop` joins without locks, in an order that leaves nothing running when the table is cleared. */
  lemma StopIsSafe(t: Tid, g: nat)
    ensures Safe(t, StopBody(g), {Gil, StateLock}, false, true, STOPPING, g)
  {
    var f1 := STOPPING.(agentJoined := true);
    var f2 := f1.(signalJoined := true);
    KillIsSafe(t, f2, g);
    assert {Gil} - {Gil} == {} && {Gil, StateLock} - {StateLock} == {Gil};
    assert Safe(t, StopSampler(g), {}, false, true, f1, g);
    assert Safe(t, Then(Join(AgentT(g)), StopSampler(g)), {}, false, true, STOPPING, g);
    assert Safe(t, Then(Release(Gil), Then(Quit(AgentT(g)), Then(Join(AgentT(g)), StopSampler(g)))), {Gil}, false, true, STOPPING, g);
  }

  lemma YieldIsSafe(t: Tid, k: Program, f: Facts, g: nat)
    requires Safe(t, k, {Gil}, false, true, f, g)
    ensures Safe(t, YieldGil(k), {Gil}, false, true, f, g)
  {
    assert {Gil} - {Gil} == {} && {} + {Gil} == {Gil};
    assert Safe(t, Then(Acquire(Gil), k), {}, false, true, f, g);
  }

  lemma StartSessionIsSafe(t: Tid, f: Facts, g: nat)
    requires !f.killed && f.sessionJoined && f.agentJoined && f.clientJoined
    ensures Safe(t, StartSession(g), {Gil}, false, true, f, g)
  {
    var f1 := Spawned(f, SessionT(g));
    var f2 := Spawned(f1, AgentT(g));
    FinishIsSafe(t, Running(g), f2, g);
    assert Safe(t, Then(Spawn(AgentT(g)), Finish(Running(g))), {Gil}, false, true, f1, g);
  }

  lemma BuildAgentIsSafe(t: Tid, c: RunChoice, f: Facts, g: nat)
    requires !f.killed && f.agentJoined && f.sessionJoined && f.signalJoined && f.clientJoined
    ensures Safe(t, BuildAgent(g, c), {Gil}, false, true, f, g)
  {
    if !c.ok {
      TeardownIsSafe(t, f, g);
    } else if c.signal {
      StartSessionIsSafe(t, Spawned(f, SignalT(g)), g);
    } else {
      StartSessionIsSafe(t, f, g);
    }
  }

  lemma StartAgentIsSafe(t: Tid, c: RunChoice, f: Facts, g: nat)
    requires !f.killed && f.agentJoined && f.sessionJoined && f.signalJoined && f.clientJoined
    ensures Safe(t, StartAgent(g, c), {Gil}, false, true, f, g)
  {
    if c.client {
      var f1 := Spawned(f, ClientT(g));
      var f2 := Joined(f1, ClientT(g));
      BuildAgentIsSafe(t, c, f2, g);
      assert Safe(t, Then(Join(ClientT(g)), BuildAgent(g, c)), {Gil}, false, true, f1, g);
      YieldIsSafe(t, BuildClient(g, c), f, g);
    } else {
      TeardownIsSafe(t, f, g);
      YieldIsSafe(t, Teardown(g), f, g);
    }
  }

  /** `run` starts everything from a clean state, or undoes what it started. */
  lemma RunIsSafe(t: Tid, c: RunChoice, g: nat)
    ensures Safe(t, RunBody(g, c), {Gil, StateLock}, false, true, CLEAN, g)
  {
    var f := if c.mem then CLEAN.(memStopped := false, memClear := false, tableFresh := false) else CLEAN;
    var f2 := if c.stack then Spawned(f, StackT(g)) else f;
    StartAgentIsSafe(t, c, f2, g);
    YieldIsSafe(t, if c.stack then Then(Spawn(StackT(g)), StartAgent(g, c)) else StartAgent(g, c), f, g);
    assert {Gil, StateLock} - {StateLock} == {Gil};
    assert Safe(t, StartStack(g, c), {Gil}, false, true, f, g);
  }

  // ---- Background threads ----

  lemma SnapSendIsSafe(h: nat, c: SnapChoice, k: Program, f: Facts, g: nat)
    requires k == Done || k == LOOP
    ensures Safe(AgentT(h), SnapSend(h, c, k), {}, false, false, f, g)
    ensures Safe(AgentT(h), SnapCpu(h, c, k), {}, false, false, f, g)
  {
    var t := AgentT(h);
    assert Safe(t, k, {}, false, false, f, g);
    assert {} + {Buf} - {Buf} == {};
    var send := SnapSend(h, c, k);
    assert Safe(t, send, {}, false, false, f, g);
    assert Safe(t, Then(Release(Buf), send), {} + {Buf}, false, false, f, g);
    LockedIsSafe(t, Buf, Local, send, {}, false, false, f, g);
  }

  /** A dump holds the table, then the builder. */
  lemma DumpIsSafe(h: nat, b: Res, k: Program, held: set<Res>, hook: bool, f: Facts, g: nat)
    requires IsBuilder(b) && held <= {Gil} && (b.MemB? ==> Gil in held) && Safe(AgentT(h), k, held, hook, false, f, g)
    ensures Safe(AgentT(h), Then(Acquire(Table), Locked(b, Dump(b), Then(Release(Table), k))), held, hook, false, f, g)
  {
    var t := AgentT(h);
    assert held + {Table} - {Table} == held && (held + {Table}) + {b} - {b} == held + {Table};
    assert Safe(t, Then(Release(Table), k), held + {Table}, hook, false, f, g);
    assert Safe(t, Then(Release(b), Then(Release(Table), k)), (held + {Table}) + {b}, hook, false, f, g);
    LockedIsSafe(t, b, Dump(b), Then(Release(Table), k), held + {Table}, hook, false, f, g);
  }

  lemma SnapStackIsSafe(h: nat, c: SnapChoice, k: Program, f: Facts, g: nat)
    requires k == Done || k == LOOP
    ensures Safe(AgentT(h), SnapStack(h, c, k), {}, false, false, f, g)
  {
    SnapSendIsSafe(h, c, k, f, g);
    DumpIsSafe(h, if c.oncpu then OnCpuB else StackB, SnapCpu(h, c, k), {}, false, f, g);
  }

  lemma DumpMemIsSafe(h: nat, c: SnapChoice, k: Program, hook: bool, f: Facts, g: nat)
    requires k == Done || k == LOOP
    ensures Safe(AgentT(h), DumpMem(h, c, k), {Gil}, hook, false, f, g)
  {
    var t := AgentT(h);
    SnapStackIsSafe(h, c, k, f, g);
    var rest := Then(Release(Gil), SnapStack(h, c, k));
    assert {Gil} - {Gil} == {};
    assert Safe(t, rest, {Gil}, hook, false, f, g);
    DumpIsSafe(h, MemB, rest, {Gil}, hook, f, g);
  }

  lemma SnapMemIsSafe(h: nat, c: SnapChoice, k: Program, dump: Program, f: Facts, g: nat)
    requires (k == Done || k == LOOP) && dump == DumpMem(h, c, k)
    ensures Safe(AgentT(h), Then(Acquire(Gil), Then(Gate(dump), Locked(MemB, Push(MemB), dump))), {}, false, false, f, g)
  {
    DumpMemIsSafe(h, c, k, false, f, g);
    DumpMemIsSafe(h, c, k, true, f, g);
    PushIsSafe(AgentT(h), dump, f, g);
    GateIsSafe(AgentT(h), Locked(MemB, Push(MemB), dump), dump, f, g);
  }

  lemma SnapshotIsSafe(h: nat, c: SnapChoice, k: Program, f: Facts, g: nat)
    requires k == Done || k == LOOP
    ensures Safe(AgentT(h), Snapshot(h, c, k), {}, false, false, f, g)
  {
    SnapStackIsSafe(h, c, k, f, g);
    SnapMemIsSafe(h, c, k, DumpMem(h, c, k), f, g);
  }

  lemma SignalSamplerIsSafe(h: nat, f: Facts, g: nat)
    ensures Safe(SignalT(h), SAMPLE_SIGNAL, {}, false, false, f, g)
  {
    assert {} + {Buf} - {Buf} == {};
    assert Safe(SignalT(h), LOOP, {}, false, false, f, g);
    assert Safe(SignalT(h), Then(Release(Buf), LOOP), {} + {Buf}, false, false, f, g);
    LockedIsSafe(SignalT(h), Buf, Local, LOOP, {}, false, false, f, g);
  }

  lemma StackSamplerIsSafe(h: nat, oncpu: bool, f: Facts, g: nat)
    ensures Safe(StackT(h), SampleStack(oncpu), {}, false, false, f, g)
  {
    assert forall r: Res :: {} + {r} - {r} == {};
    assert Safe(StackT(h), LOOP, {}, false, false, f, g);
    var b := if oncpu then OnCpuB else StackB;
    assert Safe(StackT(h), Then(Release(b), LOOP), {} + {b}, false, false, f, g);
    LockedIsSafe(StackT(h), b, Push(b), LOOP, {}, false, false, f, g);
    var push := Locked(b, Push(b), LOOP);
    assert Safe(StackT(h), Then(Release(Table), push), {} + {Table}, false, false, f, g);
    LockedIsSafe(StackT(h), Table, Intern(Stack), push, {}, false, false, f, g);
  }

  // ---- One step of one thread ----

  /** Thread `t` moved on, and what any other thread relies on is as it was. */
  ghost predicate OthersKeep(s: Sys, w: Sys, t: Tid) {
    && (forall u | u != t :: (u in w.threads <==> u in s.threads) && (u in s.threads ==> w.threads[u] == s.threads[u]))
    && t in w.threads && t in s.threads && w.gen == s.gen
  }

  /** A step that changes nothing but the thread and the locks. */
  ghost predicate OnlyThread(s: Sys, w: Sys, t: Tid) {
    && OthersKeep(s, w, t)
    && w.agent == s.agent && w.runs == s.runs && w.stops == s.stops
    && w.channel == s.channel && w.sent == s.sent && w.received == s.received
    && w.memActive == s.memActive && w.memHandles == s.memHandles && w.stackHandles == s.stackHandles
    && w.table == s.table && w.windows == s.windows && w.emitted == s.emitted
  }

  lemma {:induction false} OthersStayOk(s: Sys, w: Sys, t: Tid)
    requires Threads(s) && OnlyThread(s, w, t) && !s.Finished(t)
    requires w.threads[t].body == s.threads[t].body && ThreadOk(w, t, w.threads[t])
    ensures Threads(w)
  {
    forall u | u in w.threads
      ensures ThreadOk(w, u, w.threads[u])
    {
      if u != t {
        assert ThreadOk(s, u, s.threads[u]);
        if s.threads[u].body { FactsWith(s, w, s.threads[u].facts, t); }
      }
    }
  }

  lemma {:induction false} AgentStays(s: Sys, w: Sys, t: Tid)
    requires Agent(s) && OnlyThread(s, w, t) && !s.Finished(t) && w.threads[t].body == s.threads[t].body
    ensures Agent(w)
  {
    if s.agent.Busy? {
      var b :| b in s.threads && s.threads[b].body;
      assert b in w.threads && w.threads[b].body;
    }
    if s.agent.Idle? { FactsWith(s, w, CLEAN, t); }
  }

  /** When only the thread itself changes, it is enough that the thread is fine where it is now. */
  lemma {:induction false} ThreadAlone(s: Sys, w: Sys, t: Tid)
    requires Inv(s) && OnlyThread(s, w, t) && !s.Finished(t) && Locks(w)
    requires w.threads[t].body == s.threads[t].body && ThreadOk(w, t, w.threads[t])
    requires t.StackT? || t.SessionT? ==> !w.Finished(t)
    ensures Inv(w)
  {
    Opened(s);
    OthersStayOk(s, w, t);
    AgentStays(s, w, t);
    assert forall u: Tid | u != t :: w.Finished(u) <==> s.Finished(u);
  }

  lemma OneHolder(s: Sys, t: Tid, u: Tid, r: Res)
    requires Locks(s) && t in s.threads && u in s.threads && u != t && r in s.threads[t].held
    ensures r !in s.threads[u].held
  {
    assert s.locks[r] == t;
  }

  lemma {:induction false} LocksMove(s: Sys, w: Sys, t: Tid, held: set<Res>)
    requires Locks(s) && OthersKeep(s, w, t) && w.threads[t].held == held
    requires (exists r :: r !in s.locks && w.locks == s.locks[r := t] && held == s.threads[t].held + {r})
          || (exists r :: r in s.threads[t].held && w.locks == s.locks - {r} && held == s.threads[t].held - {r})
    ensures Locks(w)
  {
    if r :| r !in s.locks && w.locks == s.locks[r := t] && held == s.threads[t].held + {r} {
    } else {
      var r :| r in s.threads[t].held && w.locks == s.locks - {r} && held == s.threads[t].held - {r};
    }
  }

  lemma {:induction false} AcquireThread(s: Sys, t: Tid, th: Thread, r: Res)
    requires ThreadOk(s, t, th) && th.prog != Done && th.prog.i == Acquire(r)
    ensures ThreadOk(s, t, NextThread(th).(held := th.held + {r}))
  {
  }

  lemma {:induction false} ReleaseThread(s: Sys, t: Tid, th: Thread, r: Res)
    requires ThreadOk(s, t, th) && th.prog != Done && th.prog.i == Release(r)
    ensures ThreadOk(s, t, NextThread(th).(held := th.held - {r}, hook := th.hook && r != Gil))
  {
  }

  lemma {:induction false} AcquireKeeps(s: Sys, t: Tid, r: Res)
    requires Inv(s) && Enabled(s, t) && s.threads[t].prog.i == Acquire(r)
    ensures Inv(With(s, t, NextThread(s.threads[t]).(held := s.threads[t].held + {r})).(locks := s.locks[r := t]))
  {
    Opened(s);
    var next := NextThread(s.threads[t]).(held := s.threads[t].held + {r});
    var w := With(s, t, next).(locks := s.locks[r := t]);
    AcquireThread(s, t, s.threads[t], r);
    LocksMove(s, w, t, next.held);
    MoveAlone(s, w, t, next);
  }

  lemma {:induction false} ReleaseKeeps(s: Sys, t: Tid, r: Res)
    requires Inv(s) && Enabled(s, t) && s.threads[t].prog.i == Release(r)
    ensures Inv(With(s, t, NextThread(s.threads[t]).(held := s.threads[t].held - {r}, hook := s.threads[t].hook && r != Gil)).(locks := s.locks - {r}))
  {
    Opened(s);
    var next := NextThread(s.threads[t]).(held := s.threads[t].held - {r}, hook := s.threads[t].hook && r != Gil);
    var w := With(s, t, next).(locks := s.locks - {r});
    ReleaseThread(s, t, s.threads[t], r);
    LocksMove(s, w, t, next.held);
    MoveAlone(s, w, t, next);
  }

  lemma {:induction false} MoveAlone(s: Sys, w: Sys, t: Tid, next: Thread)
    requires Inv(s) && OnlyThread(s, w, t) && !s.Finished(t) && Locks(w)
    requires w.threads[t] == next && next.body == s.threads[t].body && ThreadOk(s, t, next)
    requires t.StackT? || t.SessionT? ==> next.prog != Done
    ensures Inv(w)
  {
    Opened(s);
    if next.body { FactsWith(s, w, next.facts, t); }
    ThreadAlone(s, w, t);
  }

  /** The thread changes but holds what it held. */
  lemma {:induction false} SameLocks(s: Sys, w: Sys, t: Tid)
    requires Locks(s) && OthersKeep(s, w, t) && w.locks == s.locks && w.threads[t].held == s.threads[t].held
    ensures Locks(w)
  {
  }

  lemma {:induction false} MoveKeeps(s: Sys, t: Tid, next: Thread)
    requires Inv(s) && !s.Finished(t)
    requires next.held == s.threads[t].held && next.body == s.threads[t].body && ThreadOk(s, t, next)
    requires t.StackT? || t.SessionT? ==> next.prog != Done
    ensures Inv(With(s, t, next))
  {
    Opened(s);
    var w := With(s, t, next);
    SameLocks(s, w, t);
    MoveAlone(s, w, t, next);
  }

  /** A thread that moves, or even ends, takes nothing away from what a teardown established. */
  lemma {:induction false} FactsWith(s: Sys, w: Sys, f: Facts, t: Tid)
    requires OnlyThread(s, w, t) && !s.Finished(t) && FactsOk(s, f)
    ensures FactsOk(w, f)
  {
  }

  lemma {:induction false} PlainKeeps(s: Sys, t: Tid)
    requires Inv(s) && Enabled(s, t) && (s.threads[t].prog.i.Local? || s.threads[t].prog.i.Quit? || s.threads[t].prog.i.Upload?)
    ensures Inv(With(s, t, NextThread(s.threads[t])))
  {
    Opened(s);
    assert ThreadOk(s, t, s.threads[t]);
    MoveKeeps(s, t, NextThread(s.threads[t]));
  }

  lemma {:induction false} QuitThreads(s: Sys, w: Sys)
    requires Threads(s) && w == s.(quit := w.quit, uploaded := w.uploaded)
    ensures Threads(w)
  {
    forall t | t in w.threads
      ensures ThreadOk(w, t, w.threads[t])
    {
      assert ThreadOk(s, t, s.threads[t]);
    }
  }

  lemma {:induction false} QuitRest(s: Sys, w: Sys)
    requires Locks(s) && Agent(s) && Handles(s) && Channel(s) && w == s.(quit := w.quit, uploaded := w.uploaded)
    ensures Locks(w) && Agent(w) && Handles(w) && Channel(w)
  {
  }

  /** Nothing rests on who was told to quit, nor on what was uploaded. */
  lemma {:induction false} QuitKeeps(s: Sys, w: Sys)
    requires Inv(s) && w == s.(quit := w.quit, uploaded := w.uploaded)
    ensures Inv(w)
  {
    Opened(s);
    QuitThreads(s, w);
    QuitRest(s, w);
  }

  lemma {:induction false} JoinKeeps(s: Sys, t: Tid, u: Tid)
    requires Inv(s) && Enabled(s, t) && s.threads[t].prog.i == Join(u)
    ensures Inv(With(s, t, NextThread(s.threads[t]).(facts := Joined(s.threads[t].facts, u))))
  {
    Opened(s);
    assert ThreadOk(s, t, s.threads[t]);
    BodyFacts(s, t);
    JoinedFacts(s, s.threads[t].facts, u);
    JoinGoesOn(s, t, s.threads[t], u);
    MoveKeeps(s, t, NextThread(s.threads[t]).(facts := Joined(s.threads[t].facts, u)));
  }

  lemma {:induction false} JoinedFacts(s: Sys, f: Facts, u: Tid)
    requires FactsOk(s, f) && s.Finished(u) && !u.Py? && u.g == s.gen
    ensures FactsOk(s, Joined(f, u)) && Joined(f, u).killed == f.killed
  {
  }

  lemma {:induction false} JoinGoesOn(s: Sys, t: Tid, th: Thread, u: Tid)
    requires ThreadOk(s, t, th) && th.prog != Done && th.prog.i == Join(u)
    requires FactsOk(s, Joined(th.facts, u)) && Joined(th.facts, u).killed == th.facts.killed
    ensures ThreadOk(s, t, NextThread(th).(facts := Joined(th.facts, u)))
  {
  }

  lemma {:induction false} GateKeeps(s: Sys, t: Tid, other: Program)
    requires Inv(s) && Enabled(s, t) && s.threads[t].prog.i == Gate(other)
    ensures s.memActive ==> Inv(With(s, t, NextThread(s.threads[t]).(hook := true)))
    ensures Inv(With(s, t, s.threads[t].(prog := other)))
  {
    Opened(s);
    assert ThreadOk(s, t, s.threads[t]);
    if s.memActive {
      MoveKeeps(s, t, NextThread(s.threads[t]).(hook := true));
    }
    MoveKeeps(s, t, s.threads[t].(prog := other));
  }

  lemma {:induction false} RefusedKeeps(s: Sys, t: Tid)
    requires Inv(s) && Enabled(s, t) && (s.threads[t].prog.i.ClaimRun? || s.threads[t].prog.i.ClaimStop?)
    ensures Inv(With(s, t, s.threads[t].(prog := REFUSED)))
  {
    Opened(s);
    assert ThreadOk(s, t, s.threads[t]);
    RefusedIsSafe(t, s.threads[t].facts, s.gen);
    MoveKeeps(s, t, s.threads[t].(prog := REFUSED));
  }

  // ---- Steps that change the tables, the channel or the agent ----

  /** What was established about `s` holds of `w`. */
  ghost predicate FactsStay(s: Sys, w: Sys) {
    forall f: Facts {:trigger FactsOk(w, f)} | FactsOk(s, f) :: FactsOk(w, f)
  }

  /** A thread that did not move, in a world where what it relies on did not change. */
  lemma {:induction false} StillOk(s: Sys, w: Sys, u: Tid, th: Thread)
    requires ThreadOk(s, u, th) && w.gen == s.gen && w.memActive == s.memActive && w.agent == s.agent && w.sent == s.sent
    requires th.body ==> FactsOk(w, th.facts)
    ensures ThreadOk(w, u, th)
  {
  }

  lemma {:induction false} DataThreads(s: Sys, w: Sys, t: Tid)
    requires Threads(s) && OthersKeep(s, w, t) && !s.Finished(t) && w.agent == s.agent && w.memActive == s.memActive
    requires Kill in w.sent <==> Kill in s.sent
    requires !s.threads[t].body && !w.threads[t].body && ThreadOk(w, t, w.threads[t]) && FactsStay(s, w)
    ensures Threads(w)
  {
    forall u | u in w.threads
      ensures ThreadOk(w, u, w.threads[u])
    {
      if u != t { assert ThreadOk(s, u, s.threads[u]); }
    }
  }

  /** A thread outside any claimed call changed the data: what a teardown established must survive it. */
  lemma {:induction false} DataChanges(s: Sys, w: Sys, t: Tid)
    requires Inv(s) && OthersKeep(s, w, t) && !s.Finished(t) && Handles(w) && Channel(w)
    requires w.locks == s.locks && w.threads[t].held == s.threads[t].held
    requires w.agent == s.agent && w.memActive == s.memActive && w.runs == s.runs && w.stops == s.stops
    requires Kill in w.sent <==> Kill in s.sent
    requires !s.threads[t].body && !w.threads[t].body && ThreadOk(w, t, w.threads[t])
    requires FactsStay(s, w)
    ensures Inv(w)
  {
    Opened(s);
    SameLocks(s, w, t);
    DataThreads(s, w, t);
    if s.agent.Busy? {
      var b :| b in s.threads && s.threads[b].body;
      assert b in w.threads && w.threads[b].body;
    }
  }

  /** A thread that interned, pushed or dumped left the channel alone. */
  lemma {:induction false} DataOnly(s: Sys, w: Sys, t: Tid)
    requires Inv(s) && OthersKeep(s, w, t) && !s.Finished(t) && !t.SessionT? && Handles(w) && FactsStay(s, w)
    requires w.threads[t] == NextThread(s.threads[t]) && ThreadOk(s, t, s.threads[t]) && !s.threads[t].body
    requires s.threads[t].prog.i.Intern? || s.threads[t].prog.i.Push? || s.threads[t].prog.i.Dump?
    requires w.locks == s.locks && w.channel == s.channel && w.sent == s.sent && w.received == s.received
    requires w.agent == s.agent && w.memActive == s.memActive && w.runs == s.runs && w.stops == s.stops
    ensures Inv(w)
  {
    Opened(s);
    ChannelStays(s, w, t);
    DataThread(s, w, t, s.threads[t]);
    DataChanges(s, w, t);
  }

  /** The thread of a claimed call changed the world: no other thread relies on what changed. */
  lemma {:induction false} BodyChanges(s: Sys, w: Sys, t: Tid)
    requires Threads(s) && OthersKeep(s, w, t) && s.threads[t].body && Locks(w) && Handles(w) && Channel(w) && Agent(w)
    requires ThreadOk(w, t, w.threads[t])
    requires w.memActive || forall u | u in s.threads && u != t :: !s.threads[u].hook
    ensures Inv(w)
  {
    forall u | u in w.threads
      ensures ThreadOk(w, u, w.threads[u])
    {
      if u != t { assert ThreadOk(s, u, s.threads[u]); }
    }
  }

  /** Only one thread holds the GIL, and a hook holds it from its gate to its end. */
  lemma {:induction false} NoHookElsewhere(s: Sys, t: Tid)
    requires Threads(s) && Locks(s) && t in s.threads && Gil in s.threads[t].held
    ensures forall u | u in s.threads && u != t :: !s.threads[u].hook
  {
    forall u | u in s.threads && u != t
      ensures !s.threads[u].hook
    {
      assert ThreadOk(s, u, s.threads[u]);
      OneHolder(s, t, u, Gil);
    }
  }

  lemma InternedGrows(table: seq<string>, text: string)
    ensures table <= Strings.Interned(table, text)
    ensures ValidHandle(Strings.Interned(table, text), HandleFor(table, text))
  {
  }

  lemma {:induction false} InternAllGrows(table: seq<string>, texts: seq<string>)
    ensures table <= InternAll(table, texts)
    decreases |texts|
  {
    if texts != [] {
      InternedGrows(table, texts[0]);
      InternAllGrows(Strings.Interned(table, texts[0]), texts[1..]);
    }
  }

  lemma {:induction false} HandlesGrow(s: Sys, w: Sys)
    requires Inv(s) && s.table <= w.table && w.windows == s.windows && w.emitted == s.emitted
    requires forall h | h in w.memHandles && h !in s.memHandles :: ValidHandle(w.table, h)
    requires forall h | h in w.stackHandles && h !in s.stackHandles :: ValidHandle(w.table, h)
    requires w.Finished(StackT(w.gen)) ==> w.stackHandles == {}
    ensures Handles(w)
  {
    Opened(s);
  }

  lemma {:induction false} InternKeeps(s: Sys, t: Tid, client: Client, text: string)
    requires Inv(s) && Enabled(s, t) && s.threads[t].prog.i == Intern(client)
    ensures var w := With(s, t, NextThread(s.threads[t])).(table := Strings.Interned(s.table, text));
      var h := HandleFor(s.table, text);
      Inv(if client.Mem? then w.(memHandles := s.memHandles + {h}) else w.(stackHandles := s.stackHandles + {h}))
  {
    var next := NextThread(s.threads[t]);
    var h := HandleFor(s.table, text);
    var w0 := With(s, t, next).(table := Strings.Interned(s.table, text));
    var w := if client.Mem? then w0.(memHandles := s.memHandles + {h}) else w0.(stackHandles := s.stackHandles + {h});
    InternedGrows(s.table, text);
    InternOutsideBody(s, t);
    InternPremise(s, t, client);
    SamplerEndsIn(s, w, t);
    HandlesGrow(s, w);
    InternStays(s, w, t, client);
    DataOnly(s, w, t);
  }

  /** The sampler has ended, and holds nothing, or it has not, before and after. */
  lemma {:induction false} SamplerEndsIn(s: Sys, w: Sys, t: Tid)
    requires Inv(s) && OthersKeep(s, w, t) && !s.Finished(t) && (t == StackT(s.gen) ==> !w.Finished(t))
    ensures s.Finished(StackT(s.gen)) <==> w.Finished(StackT(w.gen))
    ensures s.Finished(StackT(s.gen)) ==> s.stackHandles == {}
  {
    Opened(s);
  }

  lemma {:induction false} InternPremise(s: Sys, t: Tid, client: Client)
    requires Inv(s) && Enabled(s, t) && s.threads[t].prog.i == Intern(client)
    ensures if client.Mem? then s.memActive else t == StackT(s.gen)
    ensures !t.SessionT? && s.threads[t].prog.k != Done
  {
    Opened(s);
    assert ThreadOk(s, t, s.threads[t]);
  }

  lemma {:induction false} InternStays(s: Sys, w: Sys, t: Tid, client: Client)
    requires OthersKeep(s, w, t) && !s.Finished(t) && !w.Finished(t)
    requires w.memActive == s.memActive && w.windows == s.windows
    requires if client.Mem? then s.memActive && w.stackHandles == s.stackHandles else t == StackT(s.gen) && w.memHandles == s.memHandles
    requires w.table == s.table || (client.Mem? || t == StackT(s.gen))
    ensures FactsStay(s, w)
  {
    forall f: Facts | FactsOk(s, f)
      ensures FactsOk(w, f)
    {
      InternFacts(s, w, t, client, f);
    }
  }

  /** No hook runs once memory is stopped, and no sampler once it is joined, so what they own stays empty. */
  lemma {:induction false} InternFacts(s: Sys, w: Sys, t: Tid, client: Client, f: Facts)
    requires FactsOk(s, f) && OthersKeep(s, w, t) && !s.Finished(t) && !w.Finished(t)
    requires w.memActive == s.memActive && w.windows == s.windows
    requires if client.Mem? then s.memActive && w.stackHandles == s.stackHandles else t == StackT(s.gen) && w.memHandles == s.memHandles
    requires w.table == s.table || (client.Mem? || t == StackT(s.gen))
    ensures FactsOk(w, f)
  {
  }

  lemma {:induction false} InternOutsideBody(s: Sys, t: Tid)
    requires Inv(s) && Enabled(s, t) && (s.threads[t].prog.i.Intern? || s.threads[t].prog.i.Push? || s.threads[t].prog.i.Dump?)
    ensures ThreadOk(s, t, s.threads[t]) && !s.threads[t].body
  {
    Opened(s);
    assert ThreadOk(s, t, s.threads[t]);
  }

  /** A thread that interned, pushed or dumped goes on safely whatever that did to the data. */
  lemma {:induction false} DataThread(s: Sys, w: Sys, t: Tid, th: Thread)
    requires ThreadOk(s, t, th) && !th.body && w.memActive == s.memActive && w.gen == s.gen
    requires th.prog != Done && (th.prog.i.Intern? || th.prog.i.Push? || th.prog.i.Dump?)
    ensures ThreadOk(w, t, NextThread(th))
  {
  }

  lemma {:induction false} PushPremise(s: Sys, t: Tid, b: Res)
    requires Inv(s) && Enabled(s, t) && s.threads[t].prog.i == Push(b)
    ensures IsBuilder(b) && (if b.MemB? then s.memActive else t == StackT(s.gen) && s.threads[t].prog.k != Done)
    ensures !t.SessionT? && (t.StackT? ==> t == StackT(s.gen) && s.threads[t].prog.k != Done)
  {
    Opened(s);
    assert ThreadOk(s, t, s.threads[t]);
  }

  lemma {:induction false} ValidStays(table: seq<string>, more: seq<string>, samples: seq<seq<Handle>>)
    requires table <= more && ValidSamples(table, samples)
    ensures ValidSamples(more, samples)
  {
  }

  lemma {:induction false} PushKeeps(s: Sys, t: Tid, b: Res, frames: seq<Handle>)
    requires Inv(s) && Enabled(s, t) && s.threads[t].prog.i == Push(b)
    requires forall h | h in frames :: h in if b.MemB? then s.memHandles else s.stackHandles
    ensures Inv(With(s, t, NextThread(s.threads[t])).(windows := s.windows[b := s.Window(b) + [frames]]))
  {
    var w := With(s, t, NextThread(s.threads[t])).(windows := s.windows[b := s.Window(b) + [frames]]);
    InternOutsideBody(s, t);
    PushPremise(s, t, b);
    SamplerEndsIn(s, w, t);
    PushHandles(s, w, b, frames);
    PushStays(s, w, t, b);
    DataOnly(s, w, t);
  }

  lemma {:induction false} PushStays(s: Sys, w: Sys, t: Tid, b: Res)
    requires OthersKeep(s, w, t) && !s.Finished(t)
    requires w.memActive == s.memActive && w.memHandles == s.memHandles && w.table == s.table
    requires forall r | r != b :: w.Window(r) == s.Window(r)
    requires IsBuilder(b) && if b.MemB? then s.memActive else t == StackT(s.gen)
    ensures FactsStay(s, w)
  {
    forall f: Facts | FactsOk(s, f)
      ensures FactsOk(w, f)
    {
      PushFacts(s, w, t, b, f);
    }
  }

  lemma {:induction false} PushHandles(s: Sys, w: Sys, b: Res, frames: seq<Handle>)
    requires Inv(s) && IsBuilder(b) && forall h | h in frames :: h in if b.MemB? then s.memHandles else s.stackHandles
    requires w.table == s.table && w.windows == s.windows[b := s.Window(b) + [frames]] && w.emitted == s.emitted
    requires w.memHandles == s.memHandles && w.stackHandles == s.stackHandles
    requires w.Finished(StackT(w.gen)) <==> s.Finished(StackT(s.gen))
    ensures Handles(w)
  {
    Opened(s);
    assert ValidSamples(s.table, s.Window(b));
    assert ValidSamples(s.table, s.Window(b) + [frames]);
  }

  lemma {:induction false} PushFacts(s: Sys, w: Sys, t: Tid, b: Res, f: Facts)
    requires FactsOk(s, f) && OthersKeep(s, w, t) && !s.Finished(t)
    requires w.memActive == s.memActive && w.memHandles == s.memHandles && w.table == s.table
    requires forall r | r != b :: w.Window(r) == s.Window(r)
    requires IsBuilder(b) && if b.MemB? then s.memActive else t == StackT(s.gen)
    ensures FactsOk(w, f)
  {
  }

  lemma {:induction false} PushNothingKeeps(s: Sys, t: Tid)
    requires Inv(s) && Enabled(s, t) && s.threads[t].prog.i.Push?
    ensures Inv(With(s, t, NextThread(s.threads[t])))
  {
    Opened(s);
    assert ThreadOk(s, t, s.threads[t]);
    MoveKeeps(s, t, NextThread(s.threads[t]));
  }

  /** A dump emits the window with the table that is current under its lock; every index in it resolves there. */
  lemma {:induction false} DumpKeeps(s: Sys, w: Sys, t: Tid, b: Res, types: seq<string>)
    requires Inv(s) && Enabled(s, t) && s.threads[t].prog.i == Dump(b)
    requires OthersKeep(s, w, t) && w.threads[t] == NextThread(s.threads[t]) && w.locks == s.locks
    requires w.agent == s.agent && w.runs == s.runs && w.stops == s.stops
    requires w.channel == s.channel && w.sent == s.sent && w.received == s.received
    requires w.memActive == s.memActive && w.memHandles == s.memHandles && w.stackHandles == s.stackHandles
    requires w.table == InternAll(s.table, types) && w.windows == s.windows[b := []]
    requires w.emitted == s.emitted || w.emitted == s.emitted + [Emitted(s.Window(b), w.table)]
    ensures Inv(w)
  {
    InternOutsideBody(s, t);
    DumpPremise(s, t, b);
    InternAllGrows(s.table, types);
    SamplerEndsIn(s, w, t);
    DumpHandles(s, w, b, w.table);
    DumpStays(s, w, t, b);
    DataOnly(s, w, t);
  }

  lemma {:induction false} DumpStays(s: Sys, w: Sys, t: Tid, b: Res)
    requires OthersKeep(s, w, t) && t == AgentT(s.gen) && !s.Finished(t)
    requires w.memActive == s.memActive && w.memHandles == s.memHandles && w.windows == s.windows[b := []]
    ensures FactsStay(s, w)
  {
    assert forall r :: w.Window(r) == if r == b then [] else s.Window(r);
    forall f: Facts | FactsOk(s, f)
      ensures FactsOk(w, f)
    {
      DumpFacts(s, w, t, b, f);
    }
  }

  lemma {:induction false} DumpPremise(s: Sys, t: Tid, b: Res)
    requires Inv(s) && Enabled(s, t) && s.threads[t].prog.i == Dump(b)
    ensures IsBuilder(b) && t == AgentT(s.gen)
  {
    Opened(s);
    assert ThreadOk(s, t, s.threads[t]);
  }

  lemma {:induction false} DumpHandles(s: Sys, w: Sys, b: Res, table: seq<string>)
    requires Inv(s) && s.table <= table == w.table && IsBuilder(b) && w.windows == s.windows[b := []]
    requires w.memHandles == s.memHandles && w.stackHandles == s.stackHandles
    requires w.Finished(StackT(w.gen)) <==> s.Finished(StackT(s.gen))
    requires w.emitted == s.emitted || w.emitted == s.emitted + [Emitted(s.Window(b), table)]
    ensures Handles(w)
  {
    Opened(s);
    forall x | x in s.windows
      ensures ValidSamples(table, s.windows[x])
    {
      ValidStays(s.table, table, s.windows[x]);
    }
  }

  lemma {:induction false} DumpFacts(s: Sys, w: Sys, t: Tid, b: Res, f: Facts)
    requires FactsOk(s, f) && OthersKeep(s, w, t) && t == AgentT(s.gen) && !s.Finished(t)
    requires w.memActive == s.memActive && w.memHandles == s.memHandles
    requires forall r :: w.Window(r) == if r == b then [] else s.Window(r)
    ensures FactsOk(w, f)
  {
  }

  // ---- The teardown's own steps ----

  lemma {:induction false} ChannelStays(s: Sys, w: Sys, t: Tid)
    requires Channel(s) && OthersKeep(s, w, t) && !t.SessionT? && !s.Finished(t)
    requires w.channel == s.channel && w.sent == s.sent && w.received == s.received
    ensures Channel(w)
  {
  }

  lemma {:induction false} BodyFacts(s: Sys, t: Tid)
    requires Threads(s) && t in s.threads && s.threads[t].body
    ensures ThreadOk(s, t, s.threads[t]) && s.agent == Busy && t.Py? && FactsOk(s, s.threads[t].facts)
  {
    assert ThreadOk(s, t, s.threads[t]);
  }

  lemma {:induction false} StillBusy(s: Sys, w: Sys, t: Tid)
    requires Agent(s) && s.agent == Busy && w.agent == Busy && w.runs == s.runs && w.stops == s.stops
    requires t in w.threads && w.threads[t].body
    ensures Agent(w)
  {
  }

  /** What a teardown's step leaves alone but for the memory profiler, on a thread inside a claimed call. */
  lemma {:induction false} MemRest(s: Sys, w: Sys, t: Tid, next: Thread)
    requires Parts(s) && !s.Finished(t) && t.Py? && s.threads[t].body && next.body && next.held == s.threads[t].held
    requires w == With(s, t, next).(memActive := w.memActive, memHandles := w.memHandles) && w.memHandles <= s.memHandles
    ensures Locks(w) && Agent(w) && Handles(w) && Channel(w)
  {
    BodyFacts(s, t);
    SameLocks(s, w, t);
    assert forall u: Tid | u != t :: s.Finished(u) <==> w.Finished(u);
    ChannelStays(s, w, t);
    StillBusy(s, w, t);
  }

  lemma {:induction false} StopMemGoesOn(s: Sys, w: Sys, t: Tid, th: Thread, next: Thread)
    requires ThreadOk(s, t, th) && th.body && th.prog != Done && th.prog.i.StopMem? && s.agent == Busy
    requires next == NextThread(th).(facts := th.facts.(memStopped := true))
    requires w == With(s, t, next).(memActive := false, memHandles := {})
    ensures ThreadOk(w, t, next)
  {
    StopMemFacts(s, w, t, th.facts);
  }

  lemma {:induction false} StopMemFacts(s: Sys, w: Sys, t: Tid, f: Facts)
    requires FactsOk(s, f) && t.Py? && !w.memActive && w.memHandles == {} && w.gen == s.gen && (forall u | u != t :: (u in w.threads <==> u in s.threads) && (u in s.threads ==> w.threads[u] == s.threads[u]))
    requires w.table == s.table && w.windows == s.windows
    ensures FactsOk(w, f.(memStopped := true))
  {
  }

  lemma {:induction false} StopMemKeeps(s: Sys, t: Tid)
    requires Inv(s) && Enabled(s, t) && s.threads[t].prog.i.StopMem?
    ensures Inv(With(s, t, NextThread(s.threads[t]).(facts := s.threads[t].facts.(memStopped := true))).(memActive := false, memHandles := {}))
  {
    Opened(s);
    var next := NextThread(s.threads[t]).(facts := s.threads[t].facts.(memStopped := true));
    var w := With(s, t, next).(memActive := false, memHandles := {});
    assert ThreadOk(s, t, s.threads[t]);
    BodyFacts(s, t);
    NoHookElsewhere(s, t);
    MemRest(s, w, t, next);
    StopMemGoesOn(s, w, t, s.threads[t], next);
    BodyChanges(s, w, t);
  }

  lemma {:induction false} StartMemGoesOn(s: Sys, w: Sys, t: Tid, th: Thread, next: Thread)
    requires ThreadOk(s, t, th) && th.body && th.prog != Done && th.prog.i.StartMem? && s.agent == Busy
    requires next == NextThread(th).(facts := th.facts.(memStopped := false, memClear := false, tableFresh := false))
    requires w == With(s, t, next).(memActive := true)
    ensures ThreadOk(w, t, next)
  {
  }

  lemma {:induction false} StartMemKeeps(s: Sys, t: Tid)
    requires Inv(s) && Enabled(s, t) && s.threads[t].prog.i.StartMem?
    ensures Inv(With(s, t, NextThread(s.threads[t]).(facts := s.threads[t].facts.(memStopped := false, memClear := false, tableFresh := false))).(memActive := true))
  {
    Opened(s);
    var next := NextThread(s.threads[t]).(facts := s.threads[t].facts.(memStopped := false, memClear := false, tableFresh := false));
    var w := With(s, t, next).(memActive := true);
    assert ThreadOk(s, t, s.threads[t]);
    BodyFacts(s, t);
    MemRest(s, w, t, next);
    StartMemGoesOn(s, w, t, s.threads[t], next);
    BodyChanges(s, w, t);
  }

  lemma {:induction false} ClearRest(s: Sys, w: Sys, t: Tid, next: Thread, b: Res)
    requires Inv(s) && !s.Finished(t) && t.Py? && s.threads[t].body && next.body && next.held == s.threads[t].held && IsBuilder(b)
    requires w == With(s, t, next).(windows := s.windows[b := []])
    ensures Locks(w) && Agent(w) && Handles(w) && Channel(w)
  {
    Opened(s);
    BodyFacts(s, t);
    SameLocks(s, w, t);
    assert forall u: Tid | u != t :: s.Finished(u) <==> w.Finished(u);
    ChannelStays(s, w, t);
    StillBusy(s, w, t);
    ClearHandles(s, w, b);
  }

  lemma Emptied(s: Sys, w: Sys, b: Res)
    requires w.windows == s.windows[b := []]
    ensures forall r :: w.Window(r) == if r == b then [] else s.Window(r)
  {
  }

  lemma {:induction false} ClearKeeps(s: Sys, t: Tid, b: Res)
    requires Inv(s) && Enabled(s, t) && s.threads[t].prog.i == Clear(b)
    ensures Inv(With(s, t, NextThread(s.threads[t]).(facts := Cleared(s.threads[t].facts, b))).(windows := s.windows[b := []]))
  {
    Opened(s);
    var next := NextThread(s.threads[t]).(facts := Cleared(s.threads[t].facts, b));
    var w := With(s, t, next).(windows := s.windows[b := []]);
    assert ThreadOk(s, t, s.threads[t]);
    BodyFacts(s, t);
    ClearRest(s, w, t, next, b);
    Emptied(s, w, b);
    ClearFacts(s, w, b, s.threads[t].facts);
    NoHookElsewhereOrActive(s, w, t);
    ClearGoesOn(s, w, t, s.threads[t], b);
    BodyChanges(s, w, t);
  }

  lemma {:induction false} ClearGoesOn(s: Sys, w: Sys, t: Tid, th: Thread, b: Res)
    requires ThreadOk(s, t, th) && th.prog != Done && th.prog.i == Clear(b) && w.gen == s.gen && w.agent == Busy
    requires FactsOk(w, Cleared(th.facts, b)) && w.sent == s.sent
    ensures ThreadOk(w, t, NextThread(th).(facts := Cleared(th.facts, b)))
  {
    assert Cleared(th.facts, b).killed == th.facts.killed;
  }

  lemma {:induction false} ClearHandles(s: Sys, w: Sys, b: Res)
    requires Handles(s) && IsBuilder(b) && w.windows == s.windows[b := []] && w.table == s.table && w.emitted == s.emitted
    requires w.memHandles == s.memHandles && w.stackHandles == s.stackHandles
    requires w.Finished(StackT(w.gen)) <==> s.Finished(StackT(s.gen))
    ensures Handles(w)
  {
  }

  lemma {:induction false} ClearFacts(s: Sys, w: Sys, b: Res, f: Facts)
    requires FactsOk(s, f) && IsBuilder(b) && (if b.MemB? then f.memStopped else f.stackJoined)
    requires w.gen == s.gen && (forall x: Tid | !x.Py? :: w.Finished(x) == s.Finished(x))
    requires SessionT(s.gen) in s.threads ==> SessionT(s.gen) in w.threads
    requires w.memActive == s.memActive && w.memHandles == s.memHandles && w.table == s.table
    requires forall r :: w.Window(r) == if r == b then [] else s.Window(r)
    ensures FactsOk(w, Cleared(f, b))
  {
  }

  lemma {:induction false} ClearTableRest(s: Sys, w: Sys, t: Tid, next: Thread)
    requires Parts(s) && !s.Finished(t) && t.Py? && s.threads[t].body && next.body && next.held == s.threads[t].held
    requires s.Finished(StackT(s.gen)) && s.memHandles == {} && w == With(s, t, next).(table := [""])
    requires s.Window(MemB) == [] && s.Window(StackB) == [] && s.Window(OnCpuB) == []
    ensures Locks(w) && Agent(w) && Handles(w) && Channel(w)
  {
    BodyFacts(s, t);
    SameLocks(s, w, t);
    assert forall u: Tid | u != t :: s.Finished(u) <==> w.Finished(u);
    ChannelStays(s, w, t);
    StillBusy(s, w, t);
    ClearTableHandles(s, w);
  }

  lemma {:induction false} ClearTableGoesOn(s: Sys, w: Sys, t: Tid, th: Thread, next: Thread)
    requires ThreadOk(s, t, th) && th.body && th.prog != Done && th.prog.i.ClearTable? && s.agent == Busy
    requires next == NextThread(th).(facts := th.facts.(tableFresh := true)) && w == With(s, t, next).(table := [""])
    ensures ThreadOk(w, t, next)
  {
  }

  /** The table is emptied only when no builder and no profiler holds an index into it. */
  lemma {:induction false} ClearTableKeeps(s: Sys, t: Tid)
    requires Inv(s) && Enabled(s, t) && s.threads[t].prog.i.ClearTable?
    ensures Inv(With(s, t, NextThread(s.threads[t]).(facts := s.threads[t].facts.(tableFresh := true))).(table := [""]))
  {
    Opened(s);
    var next := NextThread(s.threads[t]).(facts := s.threads[t].facts.(tableFresh := true));
    var w := With(s, t, next).(table := [""]);
    assert ThreadOk(s, t, s.threads[t]);
    BodyFacts(s, t);
    ClearTableRest(s, w, t, next);
    NoHookElsewhereOrActive(s, w, t);
    ClearTableGoesOn(s, w, t, s.threads[t], next);
    BodyChanges(s, w, t);
  }

  lemma {:induction false} ClearTableHandles(s: Sys, w: Sys)
    requires Handles(s) && s.Finished(StackT(s.gen)) && s.memHandles == {} && w.emitted == s.emitted && w.windows == s.windows
    requires s.Window(MemB) == [] && s.Window(StackB) == [] && s.Window(OnCpuB) == []
    requires w.memHandles == s.memHandles && w.stackHandles == s.stackHandles
    ensures Handles(w)
  {
    forall b | b in w.windows
      ensures IsBuilder(b) && ValidSamples(w.table, w.windows[b])
    {
      assert s.Window(b) == [];
    }
  }

  // ---- The channel ----

  lemma {:induction false} SendPremise(s: Sys, t: Tid, msg: Msg)
    requires Inv(s) && Enabled(s, t) && s.threads[t].prog.i.Send? && s.threads[t].prog.i.msg == msg
    ensures if msg.Kill? then s.threads[t].body && s.Finished(AgentT(s.gen)) else t == AgentT(s.gen)
    ensures Kill !in s.sent
    ensures msg.Kill? ==> !s.Finished(SessionT(s.gen))
  {
    Opened(s);
    assert ThreadOk(s, t, s.threads[t]);
    if msg.Kill? {
      assert Kill in s.received ==> Kill in s.sent;
    }
  }

  lemma {:induction false} SendChannel(s: Sys, w: Sys, t: Tid, msg: Msg)
    requires Inv(s) && OthersKeep(s, w, t) && t != SessionT(s.gen) && !s.Finished(t)
    requires Kill !in s.sent && !s.Finished(SessionT(s.gen)) && |s.channel| < CAPACITY
    requires msg.Kill? ==> t != AgentT(s.gen) && s.Finished(AgentT(s.gen))
    requires w.channel == s.channel + [msg] && w.sent == s.sent + [msg] && w.received == s.received
    ensures Channel(w)
  {
    Opened(s);
    assert Kill in s.received ==> Kill in s.sent;
  }

  lemma {:induction false} SendSessionKeeps(s: Sys, t: Tid, msg: Msg)
    requires Inv(s) && Enabled(s, t) && s.threads[t].prog.i.Send? && s.threads[t].prog.i.msg == msg && !msg.Kill?
    ensures var w := With(s, t, NextThread(s.threads[t]));
      Inv(if s.Finished(SessionT(s.gen)) then w else w.(channel := s.channel + [msg], sent := s.sent + [msg]))
  {
    SendPremise(s, t, msg);
    SenderGoesOn(s, t);
    if s.Finished(SessionT(s.gen)) {
      MoveKeeps(s, t, NextThread(s.threads[t]));
    } else {
      SentKeeps(s, t, msg);
    }
  }

  lemma {:induction false} SenderGoesOn(s: Sys, t: Tid)
    requires Inv(s) && Enabled(s, t) && s.threads[t].prog.i.Send? && !s.threads[t].prog.i.msg.Kill? && t == AgentT(s.gen)
    ensures ThreadOk(s, t, NextThread(s.threads[t])) && !s.threads[t].body
    ensures forall w: Sys | w.gen == s.gen && w.memActive == s.memActive :: ThreadOk(w, t, NextThread(s.threads[t]))
  {
    Opened(s);
    assert ThreadOk(s, t, s.threads[t]);
  }

  lemma {:induction false} SentKeeps(s: Sys, t: Tid, msg: Msg)
    requires Inv(s) && Enabled(s, t) && s.threads[t].prog.i.Send? && s.threads[t].prog.i.msg == msg && !msg.Kill?
    requires !s.Finished(SessionT(s.gen))
    ensures Inv(With(s, t, NextThread(s.threads[t])).(channel := s.channel + [msg], sent := s.sent + [msg]))
  {
    var w := With(s, t, NextThread(s.threads[t])).(channel := s.channel + [msg], sent := s.sent + [msg]);
    SendPremise(s, t, msg);
    SenderGoesOn(s, t);
    SendChannel(s, w, t, msg);
    SamplerEndsIn(s, w, t);
    HandlesGrow(s, w);
    SentStays(s, w, t);
    DataChanges(s, w, t);
  }

  lemma {:induction false} SentStays(s: Sys, w: Sys, t: Tid)
    requires OthersKeep(s, w, t) && !s.Finished(t)
    requires w.memActive == s.memActive && w.memHandles == s.memHandles && w.table == s.table && w.windows == s.windows
    ensures FactsStay(s, w)
  {
    forall f: Facts | FactsOk(s, f)
      ensures FactsOk(w, f)
    {
      SentFacts(s, w, t, f);
    }
  }

  lemma {:induction false} SentFacts(s: Sys, w: Sys, t: Tid, f: Facts)
    requires FactsOk(s, f) && OthersKeep(s, w, t) && !s.Finished(t)
    requires w.memActive == s.memActive && w.memHandles == s.memHandles && w.table == s.table && w.windows == s.windows
    ensures FactsOk(w, f)
  {
  }

  lemma {:induction false} SendKillRest(s: Sys, w: Sys, t: Tid, next: Thread)
    requires Parts(s) && !s.Finished(t) && t.Py? && s.threads[t].body && next.body && next.held == s.threads[t].held
    requires Kill !in s.sent && !s.Finished(SessionT(s.gen)) && |s.channel| < CAPACITY && s.Finished(AgentT(s.gen))
    requires w == With(s, t, next).(channel := s.channel + [Kill], sent := s.sent + [Kill])
    ensures Locks(w) && Agent(w) && Handles(w) && Channel(w)
  {
    BodyFacts(s, t);
    SameLocks(s, w, t);
    SendChannel(s, w, t, Kill);
    assert s.Finished(StackT(s.gen)) <==> w.Finished(StackT(w.gen));
    StillBusy(s, w, t);
  }

  /** `Kill` is sent after the agent thread is joined, so it is the last message. */
  lemma {:induction false} SendKillKeeps(s: Sys, t: Tid)
    requires Inv(s) && Enabled(s, t) && s.threads[t].prog.i.Send? && s.threads[t].prog.i.msg.Kill?
    ensures !s.Finished(SessionT(s.gen))
    ensures Inv(With(s, t, NextThread(s.threads[t]).(facts := s.threads[t].facts.(killed := true))).(channel := s.channel + [Kill], sent := s.sent + [Kill]))
  {
    Opened(s);
    SendPremise(s, t, Kill);
    BodyFacts(s, t);
    var next := NextThread(s.threads[t]).(facts := s.threads[t].facts.(killed := true));
    var w := With(s, t, next).(channel := s.channel + [Kill], sent := s.sent + [Kill]);
    SendKillRest(s, w, t, next);
    SentFacts(s, w, t, s.threads[t].facts);
    SendKillGoesOn(s, w, t, s.threads[t], next);
    NoHookElsewhereOrActive(s, w, t);
    BodyChanges(s, w, t);
  }

  lemma {:induction false} SendKillGoesOn(s: Sys, w: Sys, t: Tid, th: Thread, next: Thread)
    requires ThreadOk(s, t, th) && th.body && th.prog != Done && th.prog.i.Send? && th.prog.i.msg.Kill? && w.agent == Busy
    requires next == NextThread(th).(facts := th.facts.(killed := true)) && FactsOk(w, th.facts) && Kill in w.sent && w.gen == s.gen
    ensures ThreadOk(w, t, next)
  {
  }

  lemma {:induction false} NoHookElsewhereOrActive(s: Sys, w: Sys, t: Tid)
    requires Threads(s) && w.memActive == s.memActive
    ensures w.memActive || forall u | u in s.threads && u != t :: !s.threads[u].hook
  {
    forall u | u in s.threads && u != t
      ensures w.memActive || !s.threads[u].hook
    {
      assert ThreadOk(s, u, s.threads[u]);
    }
  }

  // ---- The agent ----

  lemma {:induction false} NoBody(s: Sys)
    requires Inv(s) && s.agent != Busy
    ensures forall t | t in s.threads :: !s.threads[t].body
  {
    Opened(s);
    forall t | t in s.threads
      ensures !s.threads[t].body
    {
      assert ThreadOk(s, t, s.threads[t]);
    }
  }

  /** When the agent is idle, no background thread is left. */
  lemma {:induction false} AllFinished(s: Sys)
    requires Inv(s) && s.agent == Idle
    ensures forall t: Tid | !t.Py? :: s.Finished(t)
    ensures SessionT(s.gen + 1) !in s.threads
  {
    Opened(s);
    assert SessionT(s.gen + 1) in s.threads ==> ThreadOk(s, SessionT(s.gen + 1), s.threads[SessionT(s.gen + 1)]);
    forall t: Tid | !t.Py?
      ensures s.Finished(t)
    {
      if t in s.threads { assert ThreadOk(s, t, s.threads[t]); }
    }
  }

  /** The next agent's number is new to every thread there is. */
  lemma {:induction false} OthersAfterClaim(s: Sys, w: Sys, t: Tid, u: Tid)
    requires Inv(s) && s.agent == Idle && u in s.threads && u != t && !s.threads[u].body
    requires w.gen == s.gen + 1 && w.memActive == s.memActive && (!u.Py? ==> s.Finished(u))
    ensures ThreadOk(w, u, s.threads[u])
  {
    Opened(s);
    var th := s.threads[u];
    assert ThreadOk(s, u, th);
    SafeAnyGen(u, th.prog, th.held, th.hook, th.facts, s.gen, th.facts, w.gen);
  }

  lemma {:induction false} CleanAfterClaim(s: Sys, w: Sys, t: Tid)
    requires Inv(s) && s.agent == Idle && t.Py?
    requires w.gen == s.gen + 1 && w.memActive == s.memActive && w.memHandles == s.memHandles && w.table == s.table && w.windows == s.windows
    requires forall u | u != t :: w.Finished(u) <==> s.Finished(u)
    ensures FactsOk(w, CLEAN)
  {
    Opened(s);
    AllFinished(s);
  }

  /** What a claim by `run` leaves: a new agent number, an empty channel, and one thread inside. */
  ghost predicate Claimed(s: Sys, w: Sys, t: Tid, next: Thread)
    requires t in s.threads
  {
    && w.threads == s.threads[t := next] && w.locks == s.locks && next.held == s.threads[t].held && next.body
    && w.agent == Busy && w.gen == s.gen + 1 && w.channel == [] && w.sent == [] && w.received == []
    && w.memActive == s.memActive && w.memHandles == s.memHandles && w.stackHandles == s.stackHandles
    && w.table == s.table && w.windows == s.windows && w.emitted == s.emitted && w.runs == s.runs && w.stops == s.stops
  }

  lemma {:induction false} ClaimedData(s: Sys, w: Sys, t: Tid, next: Thread)
    requires Inv(s) && s.agent == Idle && t in s.threads && t.Py? && Claimed(s, w, t, next)
    ensures Locks(w) && Agent(w) && Handles(w) && Channel(w)
  {
    Opened(s);
    AllFinished(s);
    assert w.threads[t].body;
    assert s.Finished(StackT(s.gen)) && s.stackHandles == {};
    assert SessionT(w.gen) !in w.threads;
  }

  lemma {:induction false} ClaimedThreads(s: Sys, w: Sys, t: Tid, next: Thread)
    requires Inv(s) && s.agent == Idle && t in s.threads && t.Py? && Claimed(s, w, t, next) && ThreadOk(w, t, next)
    ensures Threads(w)
  {
    Opened(s);
    NoBody(s);
    AllFinished(s);
    forall u | u in w.threads
      ensures ThreadOk(w, u, w.threads[u])
    {
      if u != t { OthersAfterClaim(s, w, t, u); }
    }
  }

  lemma {:induction false} ClaimRunKeeps(s: Sys, t: Tid, prog: Program)
    requires Inv(s) && Enabled(s, t) && s.threads[t].prog.i.ClaimRun? && s.agent == Idle
    requires Safe(t, prog, {Gil, StateLock}, false, true, CLEAN, s.gen + 1)
    ensures Inv(With(s, t, s.threads[t].(prog := prog, body := true, facts := CLEAN))
                .(agent := Busy, gen := s.gen + 1, channel := [], sent := [], received := []))
  {
    Opened(s);
    var next := s.threads[t].(prog := prog, body := true, facts := CLEAN);
    var w := With(s, t, next).(agent := Busy, gen := s.gen + 1, channel := [], sent := [], received := []);
    assert ThreadOk(s, t, s.threads[t]);
    CleanAfterClaim(s, w, t);
    ClaimedThreads(s, w, t, next);
    ClaimedData(s, w, t, next);
  }

  lemma {:induction false} ClaimStopThreads(s: Sys, w: Sys, t: Tid, prog: Program, next: Thread)
    requires Parts(s) && !s.Finished(t) && t.Py? && s.agent.Running? && !s.threads[t].hook
    requires Safe(t, prog, {Gil, StateLock}, false, true, STOPPING, s.gen) && s.threads[t].held == {Gil, StateLock}
    requires next == s.threads[t].(prog := prog, body := true, facts := STOPPING)
    requires w == With(s, t, next).(agent := Busy, stops := s.stops + 1)
    ensures Threads(w)
  {
    NoBody(s);
    assert ThreadOk(s, t, s.threads[t]);
    assert FactsOk(w, STOPPING);
    assert ThreadOk(w, t, next);
    forall u | u in w.threads
      ensures ThreadOk(w, u, w.threads[u])
    {
      if u != t { assert ThreadOk(s, u, s.threads[u]); }
    }
  }

  lemma {:induction false} ClaimStopRest(s: Sys, w: Sys, t: Tid, next: Thread)
    requires Parts(s) && !s.Finished(t) && t.Py? && s.agent.Running? && next.body && next.held == s.threads[t].held
    requires w == With(s, t, next).(agent := Busy, stops := s.stops + 1)
    ensures Locks(w) && Agent(w) && Handles(w) && Channel(w)
  {
    assert w.threads[t].body;
    SameLocks(s, w, t);
    ChannelStays(s, w, t);
    assert s.Finished(StackT(s.gen)) <==> w.Finished(StackT(w.gen));
  }

  lemma {:induction false} ClaimStopKeeps(s: Sys, t: Tid, prog: Program)
    requires Inv(s) && Enabled(s, t) && s.threads[t].prog.i.ClaimStop? && s.agent.Running?
    requires Safe(t, prog, {Gil, StateLock}, false, true, STOPPING, s.gen)
    ensures Inv(With(s, t, s.threads[t].(prog := prog, body := true, facts := STOPPING)).(agent := Busy, stops := s.stops + 1))
  {
    Opened(s);
    var next := s.threads[t].(prog := prog, body := true, facts := STOPPING);
    var w := With(s, t, next).(agent := Busy, stops := s.stops + 1);
    assert ThreadOk(s, t, s.threads[t]);
    ClaimStopThreads(s, w, t, prog, next);
    ClaimStopRest(s, w, t, next);
  }

  lemma {:induction false} CommitKeeps(s: Sys, t: Tid, to: AgentState)
    requires Inv(s) && Enabled(s, t) && s.threads[t].prog.i == Commit(to)
    ensures Inv(With(s, t, NextThread(s.threads[t]).(body := false)).(agent := to, runs := if to.Running? then s.runs + 1 else s.runs))
  {
    Opened(s);
    var next := NextThread(s.threads[t]).(body := false);
    var w := With(s, t, next).(agent := to, runs := if to.Running? then s.runs + 1 else s.runs);
    assert ThreadOk(s, t, s.threads[t]);
    BodyFacts(s, t);
    SameLocks(s, w, t);
    ChannelStays(s, w, t);
    assert s.Finished(StackT(s.gen)) <==> w.Finished(StackT(w.gen));
    SentFacts(s, w, t, s.threads[t].facts);
    NoHookElsewhereOrActive(s, w, t);
    assert Agent(w);
    BodyChanges(s, w, t);
  }

  // ---- Threads that come and go ----

  lemma {:induction false} SpawnPremise(s: Sys, t: Tid, u: Tid)
    requires Inv(s) && Enabled(s, t) && s.threads[t].prog.i == Spawn(u)
    ensures t != u && !u.Py? && u.g == s.gen && s.Finished(u) && Kill !in s.sent
    ensures u in s.threads ==> s.threads[u].held == {}
  {
    Opened(s);
    assert ThreadOk(s, t, s.threads[t]);
    BodyFacts(s, t);
    if u in s.threads { assert ThreadOk(s, u, s.threads[u]); }
  }

  lemma {:induction false} FreshIsOk(s: Sys, u: Tid)
    requires !u.Py? && u.g == s.gen
    ensures ThreadOk(s, u, FreshThread(u))
  {
  }

  /** Who else has finished is the same. */
  lemma {:induction false} SpawnFinishes(s: Sys, w: Sys, t: Tid, u: Tid, next: Thread)
    requires w == s.(threads := s.threads[t := next][u := FreshThread(u)]) && t.Py?
    ensures forall x: Tid | x != u && !x.Py? :: w.Finished(x) == s.Finished(x)
  {
  }

  lemma {:induction false} SpawnFacts(s: Sys, w: Sys, u: Tid, f: Facts)
    requires FactsOk(s, f) && !u.Py? && u.g == s.gen && w.gen == s.gen && u in w.threads
    requires forall x: Tid | x != u && !x.Py? :: w.Finished(x) == s.Finished(x)
    requires SessionT(s.gen) in s.threads ==> SessionT(s.gen) in w.threads
    requires w.memActive == s.memActive && w.memHandles == s.memHandles && w.table == s.table && w.windows == s.windows
    ensures FactsOk(w, Spawned(f, u))
  {
    assert forall r :: w.Window(r) == s.Window(r);
  }

  lemma {:induction false} SpawnKeeps(s: Sys, t: Tid, u: Tid)
    requires Inv(s) && Enabled(s, t) && s.threads[t].prog.i == Spawn(u)
    ensures Inv(s.(threads := s.threads[t := NextThread(s.threads[t]).(facts := Spawned(s.threads[t].facts, u))][u := FreshThread(u)]))
  {
    Opened(s);
    var next := NextThread(s.threads[t]).(facts := Spawned(s.threads[t].facts, u));
    var w := s.(threads := s.threads[t := next][u := FreshThread(u)]);
    assert ThreadOk(s, t, s.threads[t]);
    SpawnPremise(s, t, u);
    BodyFacts(s, t);
    SpawnFinishes(s, w, t, u, next);
    SpawnFacts(s, w, u, s.threads[t].facts);
    SpawnGoesOn(s, w, t, u, s.threads[t], next);
    SpawnThreads(s, w, t, u, next);
    SpawnLocks(s, w, t, u, next);
    SpawnRest(s, w, t, u, next);
  }

  lemma {:induction false} SpawnGoesOn(s: Sys, w: Sys, t: Tid, u: Tid, th: Thread, next: Thread)
    requires ThreadOk(s, t, th) && th.body && th.prog != Done && th.prog.i == Spawn(u) && next == NextThread(th).(facts := Spawned(th.facts, u))
    requires FactsOk(w, Spawned(th.facts, u)) && w.agent == Busy && w.gen == s.gen && w.sent == s.sent
    ensures ThreadOk(w, t, next)
  {
  }

  lemma {:induction false} SpawnThreads(s: Sys, w: Sys, t: Tid, u: Tid, next: Thread)
    requires Threads(s) && t in s.threads && s.threads[t].body && ThreadOk(w, t, next) && t != u && !u.Py? && u.g == s.gen
    requires w == s.(threads := s.threads[t := next][u := FreshThread(u)])
    ensures Threads(w)
  {
    forall x | x in w.threads
      ensures ThreadOk(w, x, w.threads[x])
    {
      SpawnThread(s, w, t, u, next, x);
    }
  }

  lemma {:induction false} SpawnThread(s: Sys, w: Sys, t: Tid, u: Tid, next: Thread, x: Tid)
    requires Threads(s) && t in s.threads && s.threads[t].body && ThreadOk(w, t, next) && t != u && !u.Py? && u.g == s.gen
    requires w == s.(threads := s.threads[t := next][u := FreshThread(u)]) && x in w.threads
    ensures ThreadOk(w, x, w.threads[x])
  {
    if x == u {
      FreshIsOk(w, u);
    } else if x != t {
      assert ThreadOk(s, x, s.threads[x]);
      StillOk(s, w, x, s.threads[x]);
    }
  }

  lemma {:induction false} SpawnLocks(s: Sys, w: Sys, t: Tid, u: Tid, next: Thread)
    requires Locks(s) && t in s.threads && next.held == s.threads[t].held && t != u
    requires u in s.threads ==> s.threads[u].held == {}
    requires w == s.(threads := s.threads[t := next][u := FreshThread(u)])
    ensures Locks(w)
  {
  }

  lemma {:induction false} SpawnRest(s: Sys, w: Sys, t: Tid, u: Tid, next: Thread)
    requires Agent(s) && Handles(s) && Channel(s) && t in s.threads && s.threads[t].body && next.body && s.agent == Busy && t.Py?
    requires t != u && !u.Py? && u.g == s.gen && s.Finished(u) && Kill !in s.sent
    requires w == s.(threads := s.threads[t := next][u := FreshThread(u)])
    ensures Agent(w) && Handles(w) && Channel(w)
  {
    assert w.threads[t].body;
    assert Kill in s.received ==> Kill in s.sent;
  }

  lemma {:induction false} LoopPremise(s: Sys, t: Tid)
    requires Threads(s) && Enabled(s, t) && s.threads[t].prog.i.Loop?
    ensures !t.Py? && t.g == s.gen && s.threads[t].held == {} && !s.threads[t].hook && !s.threads[t].body
    ensures ThreadOk(s, t, s.threads[t])
  {
    assert ThreadOk(s, t, s.threads[t]);
  }

  lemma {:induction false} AgentLoopKeeps(s: Sys, t: Tid, snap: SnapChoice, k: Program)
    requires Inv(s) && Enabled(s, t) && s.threads[t].prog.i.Loop? && t.AgentT? && (k == Done || k == LOOP)
    ensures Inv(With(s, t, s.threads[t].(prog := Snapshot(t.g, snap, k))))
  {
    Opened(s);
    LoopPremise(s, t);
    SnapshotIsSafe(t.g, snap, k, s.threads[t].facts, s.gen);
    MoveKeeps(s, t, s.threads[t].(prog := Snapshot(t.g, snap, k)));
  }

  lemma {:induction false} SignalLoopKeeps(s: Sys, t: Tid)
    requires Inv(s) && Enabled(s, t) && s.threads[t].prog.i.Loop? && t.SignalT?
    ensures Inv(With(s, t, s.threads[t].(prog := Done))) && Inv(With(s, t, s.threads[t].(prog := SAMPLE_SIGNAL)))
  {
    Opened(s);
    LoopPremise(s, t);
    SignalSamplerIsSafe(t.g, s.threads[t].facts, s.gen);
    MoveKeeps(s, t, s.threads[t].(prog := Done));
    MoveKeeps(s, t, s.threads[t].(prog := SAMPLE_SIGNAL));
  }

  lemma {:induction false} StackLoopKeeps(s: Sys, t: Tid, oncpu: bool)
    requires Inv(s) && Enabled(s, t) && s.threads[t].prog.i.Loop? && t.StackT?
    ensures Inv(With(s, t, s.threads[t].(prog := SampleStack(oncpu))))
  {
    Opened(s);
    LoopPremise(s, t);
    StackSamplerIsSafe(t.g, oncpu, s.threads[t].facts, s.gen);
    assert EndsInLoop(SampleStack(oncpu));
    MoveKeeps(s, t, s.threads[t].(prog := SampleStack(oncpu)));
  }

  /** The stack sampler ends and its indices with it. */
  lemma {:induction false} StackEndKeeps(s: Sys, t: Tid)
    requires Inv(s) && Enabled(s, t) && s.threads[t].prog.i.Loop? && t.StackT?
    ensures Inv(With(s, t, s.threads[t].(prog := Done)).(stackHandles := {}))
  {
    Opened(s);
    LoopPremise(s, t);
    var next := s.threads[t].(prog := Done);
    var w := With(s, t, next).(stackHandles := {});
    SameLocks(s, w, t);
    ChannelStays(s, w, t);
    SentStays(s, w, t);
    EndIsOk(s, w, t, s.threads[t]);
    HandlesGrow(s, w);
    DataChanges(s, w, t);
  }

  lemma {:induction false} EndIsOk(s: Sys, w: Sys, t: Tid, th: Thread)
    requires ThreadOk(s, t, th) && th.held == {} && !th.hook && !th.body && w.gen == s.gen
    ensures ThreadOk(w, t, th.(prog := Done))
  {
  }

  lemma {:induction false} ReceiveRest(s: Sys, w: Sys, t: Tid, next: Thread)
    requires Parts(s) && t == SessionT(s.gen) && !s.Finished(t) && s.channel != [] && next.held == s.threads[t].held
    requires next.prog == Done <==> s.channel[0].Kill?
    requires w == With(s, t, next).(channel := s.channel[1..], received := s.received + [s.channel[0]])
    ensures Locks(w) && Handles(w) && Channel(w)
  {
    SameLocks(s, w, t);
    ReceiveChannel(s, w, t);
    assert s.Finished(StackT(s.gen)) <==> w.Finished(StackT(w.gen));
  }

  /** The session thread takes the oldest message, and `Kill` ends it. */
  lemma {:induction false} SessionLoopKeeps(s: Sys, t: Tid)
    requires Inv(s) && Enabled(s, t) && s.threads[t].prog.i.Loop? && t.SessionT?
    ensures s.channel != []
    ensures Inv(With(s, t, s.threads[t].(prog := if s.channel[0].Kill? then Done else Then(Upload(s.channel[0].n), LOOP)))
                .(channel := s.channel[1..], received := s.received + [s.channel[0]]))
  {
    Opened(s);
    LoopPremise(s, t);
    var next := s.threads[t].(prog := if s.channel[0].Kill? then Done else Then(Upload(s.channel[0].n), LOOP));
    var w := With(s, t, next).(channel := s.channel[1..], received := s.received + [s.channel[0]]);
    ReceiveRest(s, w, t, next);
    SentStays(s, w, t);
    EndIsOk(s, w, t, s.threads[t]);
    if s.channel[0].Session? { AgainIsOk(s, w, t, s.threads[t], s.channel[0].n); }
    DataChanges(s, w, t);
  }

  /** One message is handled, and then comes the next. */
  lemma {:induction false} AgainIsOk(s: Sys, w: Sys, t: Tid, th: Thread, n: nat)
    requires ThreadOk(s, t, th) && th.held == {} && !th.hook && !th.body && w.gen == s.gen && t == SessionT(s.gen)
    ensures ThreadOk(w, t, th.(prog := Then(Upload(n), LOOP)))
  {
    assert Safe(t, LOOP, {}, false, false, th.facts, w.gen);
  }

  lemma {:induction false} ReceiveChannel(s: Sys, w: Sys, t: Tid)
    requires Channel(s) && OthersKeep(s, w, t) && t == SessionT(s.gen) && !s.Finished(t) && s.channel != []
    requires w.channel == s.channel[1..] && w.received == s.received + [s.channel[0]] && w.sent == s.sent
    requires w.Finished(t) <==> s.channel[0].Kill?
    ensures Channel(w)
  {
    assert Kill !in s.received;
    assert s.sent == w.received + w.channel;
  }

  lemma {:induction false} EnterKeeps(s: Sys, n: nat, prog: Program)
    requires Inv(s) && s.Finished(Py(n)) && Safe(Py(n), prog, {}, false, false, NOTHING, s.gen)
    ensures Inv(With(s, Py(n), Thread(prog, {}, false, false, NOTHING)))
  {
    Opened(s);
    var t := Py(n);
    var next := Thread(prog, {}, false, false, NOTHING);
    var w := With(s, t, next);
    assert t in s.threads ==> ThreadOk(s, t, s.threads[t]);
    assert t in s.threads ==> s.threads[t].held == {} && !s.threads[t].body;
    assert forall u: Tid | u != t :: s.Finished(u) <==> w.Finished(u);
    EnterThreads(s, w, t, next);
    EnterLocks(s, w, t, next);
    EnterRest(s, w, t, next);
  }

  lemma {:induction false} EnterThreads(s: Sys, w: Sys, t: Tid, next: Thread)
    requires Inv(s) && t.Py? && w == With(s, t, next) && ThreadOk(s, t, next) && !next.body
    ensures Threads(w)
  {
    Opened(s);
    forall u | u in w.threads
      ensures ThreadOk(w, u, w.threads[u])
    {
      if u != t {
        assert ThreadOk(s, u, s.threads[u]);
        if s.threads[u].body { EnterFacts(s, w, t, next, s.threads[u].facts); }
        StillOk(s, w, u, s.threads[u]);
      }
    }
  }

  lemma {:induction false} EnterFacts(s: Sys, w: Sys, t: Tid, next: Thread, f: Facts)
    requires FactsOk(s, f) && t.Py? && w == With(s, t, next)
    ensures FactsOk(w, f)
  {
    assert forall u: Tid | !u.Py? :: s.Finished(u) <==> w.Finished(u);
    assert forall r :: w.Window(r) == s.Window(r);
  }

  lemma {:induction false} EnterLocks(s: Sys, w: Sys, t: Tid, next: Thread)
    requires Locks(s) && w == With(s, t, next) && next.held == {} && (t in s.threads ==> s.threads[t].held == {})
    ensures Locks(w)
  {
  }

  lemma {:induction false} EnterRest(s: Sys, w: Sys, t: Tid, next: Thread)
    requires Agent(s) && Handles(s) && Channel(s) && t.Py? && w == With(s, t, next) && !next.body
    requires t in s.threads ==> !s.threads[t].body
    ensures Agent(w) && Handles(w) && Channel(w)
  {
    assert forall u: Tid | !u.Py? :: s.Finished(u) <==> w.Finished(u);
    if s.agent.Busy? {
      var b :| b in s.threads && s.threads[b].body;
      assert w.threads[b].body;
    }
  }

  lemma StartIsOk()
    ensures Inv(StartState)
  {
  }

  // ---- Every step ----

  lemma {:induction false} LockStepKeeps(s: Sys, t: Tid, c: Choice)
    requires Inv(s) && Enabled(s, t)
    requires var i := s.threads[t].prog.i; i.Acquire? || i.Release? || i.Local? || i.Quit? || i.Upload? || i.Join? || i.Gate?
    ensures Inv(Step(s, t, c))
  {
    match s.threads[t].prog.i
    case Acquire(r) => AcquireKeeps(s, t, r);
    case Release(r) => ReleaseKeeps(s, t, r);
    case Local => PlainKeeps(s, t);
    case Quit(u) =>
      PlainKeeps(s, t);
      QuitKeeps(With(s, t, NextThread(s.threads[t])), With(s, t, NextThread(s.threads[t])).(quit := s.quit + {u}));
    case Upload(n) =>
      PlainKeeps(s, t);
      QuitKeeps(With(s, t, NextThread(s.threads[t])), With(s, t, NextThread(s.threads[t])).(uploaded := s.uploaded + [n]));
    case Join(u) => JoinKeeps(s, t, u);
    case Gate(other) => GateKeeps(s, t, other);
  }

  lemma {:induction false} RunStepKeeps(s: Sys, t: Tid, c: Choice)
    requires Inv(s) && Enabled(s, t) && s.threads[t].prog.i.ClaimRun?
    ensures Inv(Step(s, t, c))
  {
    if s.agent == Idle {
      RunIsSafe(t, c.run, s.gen + 1);
      ClaimRunKeeps(s, t, RunBody(s.gen + 1, c.run));
      var w := With(s, t, s.threads[t].(prog := RunBody(s.gen + 1, c.run), body := true, facts := CLEAN))
               .(agent := Busy, gen := s.gen + 1, channel := [], sent := [], received := []);
      QuitKeeps(w, w.(uploaded := []));
    } else {
      RefusedKeeps(s, t);
    }
  }

  lemma {:induction false} StopStepKeeps(s: Sys, t: Tid, c: Choice)
    requires Inv(s) && Enabled(s, t) && s.threads[t].prog.i.ClaimStop?
    ensures Inv(Step(s, t, c))
  {
    Opened(s);
    if s.agent.Running? {
      StopIsSafe(t, s.gen);
      ClaimStopKeeps(s, t, StopBody(s.gen));
    } else {
      RefusedKeeps(s, t);
    }
  }

  lemma {:induction false} AgentStepKeeps(s: Sys, t: Tid, c: Choice)
    requires Inv(s) && Enabled(s, t) && (s.threads[t].prog.i.Commit? || s.threads[t].prog.i.Spawn?)
    ensures Inv(Step(s, t, c))
  {
    match s.threads[t].prog.i
    case Commit(to) => CommitKeeps(s, t, to);
    case Spawn(u) => SpawnKeeps(s, t, u);
  }

  lemma {:induction false} MemStepKeeps(s: Sys, t: Tid, c: Choice)
    requires Inv(s) && Enabled(s, t) && (s.threads[t].prog.i.StartMem? || s.threads[t].prog.i.StopMem?)
    ensures Inv(Step(s, t, c))
  {
    if s.threads[t].prog.i.StartMem? { StartMemKeeps(s, t); } else { StopMemKeeps(s, t); }
  }

  lemma {:induction false} SendStepKeeps(s: Sys, t: Tid, c: Choice)
    requires Inv(s) && Enabled(s, t) && (s.threads[t].prog.i.Send? || s.threads[t].prog.i.Intern?)
    ensures Inv(Step(s, t, c))
  {
    match s.threads[t].prog.i
    case Send(_, msg) =>
      if msg.Kill? { SendKillKeeps(s, t); } else { SendSessionKeeps(s, t, msg); }
    case Intern(client) => InternKeeps(s, t, client, c.text);
  }

  lemma {:induction false} DumpStepKeeps(s: Sys, t: Tid, c: Choice)
    requires Inv(s) && Enabled(s, t) && s.threads[t].prog.i.Dump?
    ensures Inv(Step(s, t, c))
  {
    DumpKeeps(s, Step(s, t, c), t, s.threads[t].prog.i.b, c.types);
  }

  lemma {:induction false} BuilderStepKeeps(s: Sys, t: Tid, c: Choice)
    requires Inv(s) && Enabled(s, t)
    requires var i := s.threads[t].prog.i; i.Push? || i.Clear? || i.ClearTable?
    ensures Inv(Step(s, t, c))
  {
    match s.threads[t].prog.i
    case Push(b) =>
      if forall h | h in c.frames :: h in if b.MemB? then s.memHandles else s.stackHandles {
        PushKeeps(s, t, b, c.frames);
      } else {
        PushNothingKeeps(s, t);
      }
    case Clear(b) => ClearKeeps(s, t, b);
    case ClearTable => ClearTableKeeps(s, t);
  }

  lemma {:induction false} LoopStepKeeps(s: Sys, t: Tid, c: Choice)
    requires Inv(s) && Enabled(s, t) && s.threads[t].prog.i.Loop?
    ensures Inv(Step(s, t, c))
  {
    Opened(s);
    LoopPremise(s, t);
    match t
    case AgentT(g) => AgentLoopKeeps(s, t, c.snap, if t in s.quit || c.snap.fails then Done else LOOP);
    case SessionT(_) => SessionLoopKeeps(s, t);
    case SignalT(_) => SignalLoopKeeps(s, t);
    case StackT(_) =>
      if t in s.quit { StackEndKeeps(s, t); } else { StackLoopKeeps(s, t, c.oncpu); }
  }

  lemma {:induction false} StepKeeps(s: Sys, t: Tid, c: Choice)
    requires Inv(s)
    ensures Inv(Step(s, t, c))
  {
    if Enabled(s, t) {
      match s.threads[t].prog.i
      case Loop => LoopStepKeeps(s, t, c);
      case ClaimRun => RunStepKeeps(s, t, c);
      case ClaimStop => StopStepKeeps(s, t, c);
      case Commit(_) => AgentStepKeeps(s, t, c);
      case StartMem => MemStepKeeps(s, t, c);
      case StopMem => MemStepKeeps(s, t, c);
      case Spawn(_) => AgentStepKeeps(s, t, c);
      case Send(_, _) => SendStepKeeps(s, t, c);
      case Intern(_) => SendStepKeeps(s, t, c);
      case Push(_) => BuilderStepKeeps(s, t, c);
      case Dump(_) => DumpStepKeeps(s, t, c);
      case Clear(_) => BuilderStepKeeps(s, t, c);
      case ClearTable => BuilderStepKeeps(s, t, c);
      case _ => LockStepKeeps(s, t, c);
    }
  }

  lemma {:induction false} EnterKeepsInv(s: Sys, n: nat, call: Call)
    requires Inv(s)
    ensures Inv(Enter(s, n, call))
  {
    CallsAreSafe(Py(n), s.gen);
    if s.Finished(Py(n)) {
      EnterKeeps(s, n, match call case RunCall => RUN_CALL case StopCall => STOP_CALL case TagCall => TAG_CALL case HookCall => HOOK_CALL);
    }
  }

  // ---- Deadlock freedom ----

  /** The session thread with nothing to do. */
  ghost predicate AwaitsWork(s: Sys, t: Tid) {
    !s.Finished(t) && t.SessionT? && s.threads[t].prog.i.Loop? && s.channel == []
  }

  /** `t` cannot go on before `u` does. */
  ghost predicate WaitsFor(s: Sys, t: Tid, u: Tid) {
    && !s.Finished(t) && !Enabled(s, t)
    && match s.threads[t].prog.i
       case Acquire(r) => r in s.locks && s.locks[r] == u
       case Join(v) => u == v
       case Send(_, _) => u == SessionT(s.gen)
       case _ => false
  }

  /** Waiting goes upwards in this order: joins on the agent, the channel, then the locks as they nest, then the client. */
  ghost function Rank(s: Sys, t: Tid): nat
    requires !s.Finished(t)
    ensures Rank(s, t) <= 9
  {
    match s.threads[t].prog.i
    case Join(u) => if u.AgentT? then 0 else if u.ClientT? then 8 else 1
    case Send(_, _) => 1
    case Acquire(r) => 2 + Order(r)
    case _ => 9
  }

  /** `u` is where `t` waits, and it is further up. */
  ghost predicate Blocks(s: Sys, t: Tid, u: Tid) {
    !s.Finished(t) && WaitsFor(s, t, u) && !s.Finished(u) && !AwaitsWork(s, u) && Rank(s, u) > Rank(s, t)
  }

  /** A thread that holds a lock joins no one but the client thread, sends nothing, and asks only for locks further in. */
  lemma {:induction false} HolderRanksHigher(s: Sys, u: Tid, r: Res)
    requires u in s.threads && ThreadOk(s, u, s.threads[u]) && r in s.threads[u].held
    ensures !s.Finished(u) && !AwaitsWork(s, u) && Rank(s, u) > 2 + Order(r)
  {
    var th := s.threads[u];
    assert th.prog != Done;
    match th.prog.i
    case Acquire(q) => assert Order(r) < Order(q);
    case _ =>
  }

  /** A thread that is joined waits at most for the channel or for locks. */
  lemma {:induction false} JoinedRanksHigher(s: Sys, t: Tid, u: Tid)
    requires Inv(s) && !s.Finished(t) && s.threads[t].prog.i == Join(u) && !s.Finished(u)
    ensures !AwaitsWork(s, u) && Rank(s, u) > Rank(s, t)
  {
    Opened(s);
    assert ThreadOk(s, t, s.threads[t]);
    assert ThreadOk(s, u, s.threads[u]);
    BodyFacts(s, t);
    if u.SessionT? { KillIsWaiting(s); }
    BackgroundRank(s, u);
  }

  /** A background thread joins nothing; only the agent thread sends. */
  lemma {:induction false} BackgroundRank(s: Sys, u: Tid)
    requires !s.Finished(u) && !u.Py? && ThreadOk(s, u, s.threads[u])
    ensures Rank(s, u) >= 1 && (!u.AgentT? ==> Rank(s, u) >= 2)
  {
    var th := s.threads[u];
    assert !th.body;
    match th.prog.i
    case Join(v) => assert false;
    case Send(_, msg) =>
    case _ =>
  }

  lemma {:induction false} BlockerRanksHigher(s: Sys, t: Tid) returns (u: Tid)
    requires Inv(s) && !s.Finished(t) && !Enabled(s, t) && !AwaitsWork(s, t)
    ensures Blocks(s, t, u)
  {
    Opened(s);
    match s.threads[t].prog.i
    case Acquire(r) =>
      u := s.locks[r];
      assert ThreadOk(s, u, s.threads[u]);
      HolderRanksHigher(s, u, r);
    case Join(v) =>
      u := v;
      JoinedRanksHigher(s, t, u);
    case Send(_, msg) =>
      u := SessionT(s.gen);
      assert ThreadOk(s, u, s.threads[u]);
      BackgroundRank(s, u);
  }

  lemma {:induction false} KillIsWaiting(s: Sys)
    requires Channel(s) && Kill in s.sent && !s.Finished(SessionT(s.gen))
    ensures s.channel != []
  {
    assert s.channel == [] ==> s.received + s.channel == s.received;
  }

  ghost predicate WaitChain(s: Sys, path: seq<Tid>) {
    && path != [] && Enabled(s, path[|path| - 1])
    && forall i | 0 <= i < |path| - 1 :: WaitsFor(s, path[i], path[i + 1])
  }

  lemma {:induction false} ChainFrom(s: Sys, t: Tid) returns (path: seq<Tid>)
    requires Inv(s) && !s.Finished(t) && !AwaitsWork(s, t)
    ensures WaitChain(s, path) && path[0] == t
    decreases 9 - Rank(s, t)
  {
    Opened(s);
    if Enabled(s, t) {
      path := [t];
    } else {
      var u := BlockerRanksHigher(s, t);
      var rest := ChainFrom(s, u);
      path := [t] + rest;
      assert path[|path| - 1] == rest[|rest| - 1];
      forall i | 0 <= i < |path| - 1
        ensures WaitsFor(s, path[i], path[i + 1])
      {
        if i > 0 { assert WaitsFor(s, rest[i - 1], rest[i]); }
      }
    }
  }
}
