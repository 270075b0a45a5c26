/**
 The threads of the profiler around one agent: Python threads that call `run`, `stop`, the tag functions or
 run an allocation hook; the agent thread with its snapshots; the session thread behind its bounded channel;
 the signal sampler thread; the stack sampler thread; the thread a run builds its HTTP client on. What each of them does is written down as a program of
 lock, channel, join and table operations, and a step runs the next operation of one thread.
 */
module Lifecycle {
  import Strings

  // ---- Locks, in the order they nest ----

  datatype Res = Gil | StateLock | Table | MemB | StackB | OnCpuB | Buf

  function Order(r: Res): nat {
    match r
    case Gil => 0
    case StateLock => 1
    case Table => 2
    case Buf => 4
    case _ => 3
  }

  predicate IsBuilder(r: Res) {
    r.MemB? || r.StackB? || r.OnCpuB?
  }

  // ---- Threads ----

  datatype Tid = Py(n: nat) | AgentT(g: nat) | SessionT(g: nat) | SignalT(g: nat) | StackT(g: nat) | ClientT(g: nat)

  datatype Msg = Session(n: nat) | Kill

  datatype AgentState = Idle | Busy | Running(g: nat)

  datatype Client = Mem | Stack

  datatype Instr =
    | Acquire(r: Res)
    | Release(r: Res)
    | Local                      // work that touches nothing shared
    | ClaimRun                   // Idle becomes Busy, or the call is refused
    | ClaimStop                  // Running becomes Busy, or the call is refused
    | Commit(to: AgentState)
    | StartMem
    | StopMem
    | Gate(other: Program)       // a hook goes on only while the memory profiler runs; else it does `other`
    | Spawn(u: Tid)
    | Quit(u: Tid)
    | Join(u: Tid)
    | Send(h: nat, msg: Msg)
    | Upload(n: nat)             // one session goes to the server, or fails to
    | Intern(c: Client)
    | Push(b: Res)
    | Dump(b: Res)
    | Clear(b: Res)
    | ClearTable
    | Loop                       // where a background thread decides what to do next

  /** The operations a thread still has to do. */
  datatype Program = Done | Then(i: Instr, k: Program)

  /** How a start turns out: what was enabled, whether it came to building its client, and whether it succeeded. */
  datatype RunChoice = RunChoice(mem: bool, stack: bool, client: bool, signal: bool, ok: bool)

  /** What one snapshot finds: which profiles it dumps, whether there is something to send, whether it fails. */
  datatype SnapChoice = SnapChoice(mem: bool, stack: bool, oncpu: bool, cpu: bool, send: bool, n: nat, fails: bool)

  // ---- The programs ----

  /** `i` under the lock `r`, then `k`. */
  function Locked(r: Res, i: Instr, k: Program): Program {
    Then(Acquire(r), Then(i, Then(Release(r), k)))
  }

  /** Other threads may take the GIL here. */
  function YieldGil(k: Program): Program {
    Then(Release(Gil), Then(Acquire(Gil), k))
  }

  const RUN_CALL := Then(Acquire(Gil), Then(Acquire(StateLock), Then(ClaimRun, Done)))
  const STOP_CALL := Then(Acquire(Gil), Then(Acquire(StateLock), Then(ClaimStop, Done)))
  const TAG_CALL := Then(Acquire(Gil), Locked(StateLock, Local, Then(Release(Gil), Done)))
  const HOOK_CALL := Then(Acquire(Gil), Then(Gate(Then(Release(Gil), Done)), Locked(Table, Intern(Mem), Locked(MemB, Push(MemB), Then(Release(Gil), Done)))))
  const REFUSED := Then(Release(StateLock), Then(Release(Gil), Done))

  /** Leaves the state as `to` and returns. */
  function Finish(to: AgentState): Program {
    Locked(StateLock, Commit(to), Then(Release(Gil), Done))
  }

  /** Memory first, then the stack sampler, then the shared table, and the agent is gone. */
  function Teardown(g: nat): Program {
    Then(StopMem, Locked(MemB, Clear(MemB), Then(Release(Gil), JoinStack(g))))
  }

  /** The stack sampler is joined without the GIL. */
  function JoinStack(g: nat): Program {
    Then(Quit(StackT(g)), Then(Join(StackT(g)), Then(Acquire(Gil), ClearStack())))
  }

  function ClearStack(): Program {
    Locked(StackB, Clear(StackB), Locked(OnCpuB, Clear(OnCpuB), Locked(Table, ClearTable, Finish(Idle))))
  }

  /** `run` after it claimed the state. Starting may run Python code, which may hand the GIL to others. */
  function RunBody(g: nat, c: RunChoice): Program {
    Then(Release(StateLock), if c.mem then Then(StartMem, StartStack(g, c)) else StartStack(g, c))
  }

  function StartStack(g: nat, c: RunChoice): Program {
    YieldGil(if c.stack then Then(Spawn(StackT(g)), StartAgent(g, c)) else StartAgent(g, c))
  }

  function StartAgent(g: nat, c: RunChoice): Program {
    YieldGil(if c.client then BuildClient(g, c) else Teardown(g))
  }

  /** The HTTP client is built on a thread of its own, which the caller waits for with the GIL in its hands. */
  function BuildClient(g: nat, c: RunChoice): Program {
    Then(Spawn(ClientT(g)), Then(Join(ClientT(g)), BuildAgent(g, c)))
  }

  function BuildAgent(g: nat, c: RunChoice): Program {
    if !c.ok then Teardown(g)
    else if c.signal then Then(Spawn(SignalT(g)), StartSession(g))
    else StartSession(g)
  }

  function StartSession(g: nat): Program {
    Then(Spawn(SessionT(g)), Then(Spawn(AgentT(g)), Finish(Running(g))))
  }

  /** `stop` after it claimed the agent: the joins happen without the GIL and without the state lock. */
  function StopBody(g: nat): Program {
    Then(Release(StateLock), Then(Release(Gil), Then(Quit(AgentT(g)), Then(Join(AgentT(g)), StopSampler(g)))))
  }

  function StopSampler(g: nat): Program {
    Then(Quit(SignalT(g)), Then(Join(SignalT(g)), KillSession(g)))
  }

  function KillSession(g: nat): Program {
    Then(Send(g, Kill), Then(Join(SessionT(g)), Then(Acquire(Gil), Teardown(g))))
  }

  /** One snapshot, then `k`: memory with the GIL, then the stack profiler, then the reporter, then the channel. */
  function Snapshot(g: nat, c: SnapChoice, k: Program): Program {
    if c.mem then
      Then(Acquire(Gil), Then(Gate(DumpMem(g, c, k)), Locked(MemB, Push(MemB), DumpMem(g, c, k))))
    else SnapStack(g, c, k)
  }

  function DumpMem(g: nat, c: SnapChoice, k: Program): Program {
    Then(Acquire(Table), Locked(MemB, Dump(MemB), Then(Release(Table), Then(Release(Gil), SnapStack(g, c, k)))))
  }

  function SnapStack(g: nat, c: SnapChoice, k: Program): Program {
    if c.stack then
      var b := if c.oncpu then OnCpuB else StackB;
      Then(Acquire(Table), Locked(b, Dump(b), Then(Release(Table), SnapCpu(g, c, k))))
    else SnapCpu(g, c, k)
  }

  function SnapCpu(g: nat, c: SnapChoice, k: Program): Program {
    if c.cpu then Locked(Buf, Local, SnapSend(g, c, k)) else SnapSend(g, c, k)
  }

  function SnapSend(g: nat, c: SnapChoice, k: Program): Program {
    if c.send then Then(Send(g, Session(c.n)), k) else k
  }

  const LOOP := Then(Loop, Done)
  const CLIENT := Then(Local, Done)
  const SAMPLE_SIGNAL := Locked(Buf, Local, LOOP)

  function SampleStack(oncpu: bool): Program {
    var b := if oncpu then OnCpuB else StackB;
    Locked(Table, Intern(Stack), Locked(b, Push(b), LOOP))
  }

  // ---- The state ----

  /** What the program of a teardown has established so far. */
  datatype Facts = Facts(memStopped: bool, memClear: bool, stackJoined: bool, stackClear: bool, onCpuClear: bool,
                         agentJoined: bool, killed: bool, sessionJoined: bool, signalJoined: bool, clientJoined: bool, tableFresh: bool)

  const NOTHING := Facts(false, false, false, false, false, false, false, false, false, false, false)
  const CLEAN := Facts(true, true, true, true, true, true, false, true, true, true, true)
  const STOPPING := NOTHING.(clientJoined := true)

  datatype Thread = Thread(prog: Program, held: set<Res>, hook: bool, body: bool, facts: Facts)

  /** An interned index together with the string it was handed out for. */
  type Handle = (nat, string)

  datatype Emitted = Emitted(samples: seq<seq<Handle>>, table: seq<string>)

  datatype Sys = Sys(
    locks: map<Res, Tid>,
    threads: map<Tid, Thread>,
    agent: AgentState,
    gen: nat,
    quit: set<Tid>,
    channel: seq<Msg>,          // the channel of the current agent, with what went in and what came out
    sent: seq<Msg>,
    received: seq<Msg>,
    uploaded: seq<nat>,
    memActive: bool,
    memHandles: set<Handle>,
    stackHandles: set<Handle>,
    table: seq<string>,
    windows: map<Res, seq<seq<Handle>>>,
    emitted: seq<Emitted>,
    runs: nat,                  // committed runs
    stops: nat)                 // claimed stops
  {
    predicate Finished(t: Tid) {
      t !in threads || threads[t].prog == Done
    }

    function Window(b: Res): seq<seq<Handle>> {
      if b in windows then windows[b] else []
    }
  }

  const CAPACITY := 10

  /** Whether the next operation of `t` can happen now. */
  predicate Enabled(s: Sys, t: Tid) {
    && !s.Finished(t)
    && match s.threads[t].prog.i
       case Acquire(r) => r !in s.locks
       case Join(u) => s.Finished(u)
       case Send(_, _) => |s.channel| < CAPACITY || s.Finished(SessionT(s.gen))
       case Loop => t.SessionT? ==> s.channel != []
       case _ => true
  }

  /** What is left to chance: outcomes, texts, and which handles a sample uses. */
  datatype Choice = Choice(run: RunChoice, snap: SnapChoice, oncpu: bool, text: string, frames: seq<Handle>, types: seq<string>)

  function InternAll(table: seq<string>, texts: seq<string>): seq<string>
    decreases |texts|
  {
    if texts == [] then table else InternAll(Strings.Interned(table, texts[0]), texts[1..])
  }

  function IndexOf(table: seq<string>, s: string): nat
    requires s in table
    ensures IndexOf(table, s) < |table| && table[IndexOf(table, s)] == s
  {
    if table[0] == s then 0 else 1 + IndexOf(table[1..], s)
  }

  function HandleFor(table: seq<string>, text: string): Handle {
    var t := Strings.Interned(table, text);
    assert text in t by { if text !in table { assert t[|table|] == text; } }
    (IndexOf(t, text), text)
  }

  /** Thread `t` goes on with `th`. */
  function With(s: Sys, t: Tid, th: Thread): Sys {
    s.(threads := s.threads[t := th])
  }

  function NextThread(th: Thread): Thread
    requires th.prog != Done
  {
    th.(prog := th.prog.k)
  }

  function FreshThread(u: Tid): Thread {
    Thread(if u.ClientT? then CLIENT else LOOP, {}, false, false, NOTHING)
  }

  /** The facts a join leaves behind. */
  function Joined(f: Facts, u: Tid): Facts {
    f.(agentJoined := f.agentJoined || u.AgentT?,
       sessionJoined := f.sessionJoined || u.SessionT?,
       signalJoined := f.signalJoined || u.SignalT?,
       stackJoined := f.stackJoined || u.StackT?,
       clientJoined := f.clientJoined || u.ClientT?)
  }

  /** A thread that was started is not known to be gone, and it may fill what was empty. */
  function Spawned(f: Facts, u: Tid): Facts {
    f.(agentJoined := f.agentJoined && !u.AgentT?,
       sessionJoined := f.sessionJoined && !u.SessionT?,
       signalJoined := f.signalJoined && !u.SignalT?,
       clientJoined := f.clientJoined && !u.ClientT?,
       stackJoined := f.stackJoined && !u.StackT?,
       stackClear := f.stackClear && !u.StackT?,
       onCpuClear := f.onCpuClear && !u.StackT?,
       tableFresh := f.tableFresh && !u.AgentT? && !u.StackT?)
  }

  function Cleared(f: Facts, b: Res): Facts {
    match b
    case MemB => f.(memClear := true)
    case StackB => f.(stackClear := true)
    case OnCpuB => f.(onCpuClear := true)
    case _ => f
  }

  /** One operation of thread `t`; a thread that cannot go on stays where it is. */
  function Step(s: Sys, t: Tid, c: Choice): Sys {
    if !Enabled(s, t) then s
    else
      var th := s.threads[t];
      var next := NextThread(th);
      match th.prog.i
      case Acquire(r) => With(s, t, next.(held := th.held + {r})).(locks := s.locks[r := t])
      case Release(r) => With(s, t, next.(held := th.held - {r}, hook := th.hook && r != Gil)).(locks := s.locks - {r})
      case Local => With(s, t, next)
      case ClaimRun =>
        if s.agent == Idle then
          With(s, t, th.(prog := RunBody(s.gen + 1, c.run), body := true, facts := CLEAN))
          .(agent := Busy, gen := s.gen + 1, channel := [], sent := [], received := []).(uploaded := [])
        else With(s, t, th.(prog := REFUSED))
      case ClaimStop =>
        if s.agent.Running? then
          With(s, t, th.(prog := StopBody(s.agent.g), body := true, facts := STOPPING)).(agent := Busy, stops := s.stops + 1)
        else With(s, t, th.(prog := REFUSED))
      case Commit(to) =>
        With(s, t, next.(body := false)).(agent := to, runs := if to.Running? then s.runs + 1 else s.runs)
      case StartMem => With(s, t, next.(facts := th.facts.(memStopped := false, memClear := false, tableFresh := false))).(memActive := true)
      case StopMem => With(s, t, next.(facts := th.facts.(memStopped := true))).(memActive := false, memHandles := {})
      case Gate(other) => if s.memActive then With(s, t, next.(hook := true)) else With(s, t, th.(prog := other))
      case Spawn(u) =>
        var w := With(s, t, next.(facts := Spawned(th.facts, u)));
        w.(threads := w.threads[u := FreshThread(u)])
      case Quit(u) => With(s, t, next).(quit := s.quit + {u})
      case Join(u) => With(s, t, next.(facts := Joined(th.facts, u)))
      case Send(_, msg) =>
        var w := With(s, t, next.(facts := if msg.Kill? then th.facts.(killed := true) else th.facts));
        if s.Finished(SessionT(s.gen)) then w else w.(channel := s.channel + [msg], sent := s.sent + [msg])
      case Upload(n) => With(s, t, next).(uploaded := s.uploaded + [n])
      case Intern(client) =>
        var w := With(s, t, next).(table := Strings.Interned(s.table, c.text));
        var h := HandleFor(s.table, c.text);
        if client.Mem? then w.(memHandles := s.memHandles + {h}) else w.(stackHandles := s.stackHandles + {h})
      case Push(b) =>
        var known := if b.MemB? then s.memHandles else s.stackHandles;
        if forall h | h in c.frames :: h in known then
          With(s, t, next).(windows := s.windows[b := s.Window(b) + [c.frames]])
        else With(s, t, next)
      case Dump(b) =>
        var table := InternAll(s.table, c.types);
        var w := With(s, t, next).(table := table, windows := s.windows[b := []]);
        if s.Window(b) == [] then w else w.(emitted := s.emitted + [Emitted(s.Window(b), table)])
      case Clear(b) => With(s, t, next.(facts := Cleared(th.facts, b))).(windows := s.windows[b := []])
      case ClearTable => With(s, t, next.(facts := th.facts.(tableFresh := true))).(table := [""])
      case Loop =>
        match t
        case Py(_) => With(s, t, next)
        case ClientT(_) => With(s, t, next)
        case AgentT(g) =>
          With(s, t, th.(prog := Snapshot(g, c.snap, if t in s.quit || c.snap.fails then Done else LOOP)))
        case SessionT(_) =>
          var w := With(s, t, th.(prog := if s.channel[0].Kill? then Done else Then(Upload(s.channel[0].n), LOOP)));
          w.(channel := s.channel[1..], received := s.received + [s.channel[0]])
        case SignalT(_) => With(s, t, th.(prog := if t in s.quit then Done else SAMPLE_SIGNAL))
        case StackT(_) =>
          if t in s.quit then With(s, t, th.(prog := Done)).(stackHandles := {})
          else With(s, t, th.(prog := SampleStack(c.oncpu)))
  }

  datatype Call = RunCall | StopCall | TagCall | HookCall

  const StartState := Sys(map[], map[], Idle, 0, {}, [], [], [], [], false, {}, {}, [""], map[], [], 0, 0)

  /** A Python thread enters the extension. */
  function Enter(s: Sys, n: nat, call: Call): Sys {
    if s.Finished(Py(n)) then
      With(s, Py(n), Thread(match call case RunCall => RUN_CALL case StopCall => STOP_CALL case TagCall => TAG_CALL case HookCall => HOOK_CALL,
                            {}, false, false, NOTHING))
    else s
  }
}
