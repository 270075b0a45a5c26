/**
 Forking. The child has the forking thread and a copy of everything else: locks whose owners did not come
 along, builders, handles, the string table. Until the extension's fork hook has run, Python code in the child
 may allocate and so run the inherited allocation hook. The fork hook replaces the locks with what they guard,
 one after the other, and then stops what the child inherited.
 */
module Fork {
  import opened Lifecycle
  import Strings

  datatype ChildInstr =
    | Take(r: Res)
    | Give(r: Res)
    | InternSample
    | PushSample
    | Forget(r: Res)       // leaves the mutex behind, with its contents, for a new one
    | StopMemory
    | StopSampler
    | Empty(b: Res)
    | EmptyTable

  /** An allocation that is sampled: the hook interns, then pushes. */
  const ALLOCATION: seq<ChildInstr> := [Take(Table), InternSample, Give(Table), Take(MemB), PushSample, Give(MemB)]

  /** The fork hook: forget the builders, the table, tear down as `stop_profilers` does, forget the agent. */
  const HOOK: seq<ChildInstr> := [
    Forget(MemB), Forget(StackB), Forget(OnCpuB), Forget(Table),
    StopMemory, Take(MemB), Empty(MemB), Give(MemB),
    StopSampler, Take(StackB), Empty(StackB), Give(StackB), Take(OnCpuB), Empty(OnCpuB), Give(OnCpuB),
    Take(Table), EmptyTable, Give(Table),
    Forget(StateLock)]

  /** The child of a fork by Python thread `n`: what it has to do, the locks it took, and whether that is the hook. */
  datatype Child = Child(sys: Sys, n: nat, todo: seq<ChildInstr>, held: set<Res>, hook: bool)
  {
    /** The next operation of the only thread can happen. */
    predicate CanGoOn() {
      todo != [] && (todo[0].Take? ==> todo[0].r !in sys.locks)
    }
  }

  /** A process: the profiler with its threads, or the child of a fork that has not finished its fork hook. */
  datatype Process = Live(s: Sys) | Forked(c: Child)

  datatype Action =
    | Call(n: nat, call: Call)
    | Move(t: Tid, choice: Choice)
    | ForkBy(n: nat)                                  // go on in the child
    | Allocate
    | RunHook
    | ChildMove(text: string, frames: seq<Handle>)

  /** What is behind a mutex that was replaced. */
  function Forgotten(s: Sys, r: Res): Sys {
    var w := s.(locks := s.locks - {r});
    match r
    case Table => w.(table := [""])
    case StateLock => w.(agent := Idle)
    case _ => if r.MemB? || r.StackB? || r.OnCpuB? then w.(windows := s.windows[r := []]) else w
  }

  function ChildDoes(s: Sys, n: nat, i: ChildInstr, text: string, frames: seq<Handle>): Sys {
    match i
    case Take(r) => s.(locks := s.locks[r := Py(n)])
    case Give(r) => s.(locks := s.locks - {r})
    case InternSample =>
      s.(table := Strings.Interned(s.table, text), memHandles := s.memHandles + {HandleFor(s.table, text)})
    case PushSample =>
      if forall h | h in frames :: h in s.memHandles then s.(windows := s.windows[MemB := s.Window(MemB) + [frames]]) else s
    case Forget(r) => Forgotten(s, r)
    case StopMemory => s.(memActive := false, memHandles := {})
    case StopSampler => s.(stackHandles := {})
    case Empty(b) => s.(windows := s.windows[b := []])
    case EmptyTable => s.(table := [""])
  }

  function ChildStep(c: Child, text: string, frames: seq<Handle>): Child {
    if !c.CanGoOn() then c
    else
      var i := c.todo[0];
      Child(ChildDoes(c.sys, c.n, i, text, frames), c.n, c.todo[1..],
            if i.Take? then c.held + {i.r} else if i.Give? then c.held - {i.r} else c.held, c.hook)
  }

  /** A fork while no Python thread is inside the extension with the GIL. Only the forking thread comes along. */
  function ChildOf(s: Sys, n: nat): Child {
    Child(s.(threads := map[]), n, [], {}, false)
  }

  /** The child after its fork hook. The agent, its buffer and its channel are left behind, and calls are counted anew. */
  function Adopted(s: Sys): Sys {
    s.(locks := s.locks - {Buf}, channel := [], sent := [], received := [], uploaded := [], quit := {}, runs := 0, stops := 0)
  }

  function Do(p: Process, a: Action): Process {
    match p
    case Live(s) =>
      (match a
       case Call(n, call) => Live(Enter(s, n, call))
       case Move(t, choice) => Live(Step(s, t, choice))
       case ForkBy(n) => if Gil in s.locks || !s.Finished(Py(n)) then p else Forked(ChildOf(s, n))
       case _ => p)
    case Forked(c) =>
      (match a
       case Allocate => if c.todo == [] && !c.hook && c.sys.memActive then Forked(c.(todo := ALLOCATION)) else p
       case RunHook => if c.todo == [] && !c.hook then Forked(c.(todo := HOOK, hook := true)) else p
       case ChildMove(text, frames) =>
         if c.todo == [] && c.hook then Live(Adopted(c.sys)) else Forked(ChildStep(c, text, frames))
       case _ => p)
  }

  ghost function Run(actions: seq<Action>): Process
    decreases |actions|
  {
    if actions == [] then Live(StartState) else Do(Run(actions[..|actions| - 1]), actions[|actions| - 1])
  }
}
