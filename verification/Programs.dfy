/**
 What the threads do, operation by operation, and which locks they have in their hands when they do it: the table that
 the programs are to be read against the original by.
 */
module Programs {
  import opened Lifecycle
  import opened LifecycleSafety
  import opened Calls

  type Work = seq<(Instr, set<Res>)>

  /** The operations of a program that are not about locks, each with the locks that are held. Gates are passed. */
  ghost function WorkOf(prog: Program, held: set<Res>): Work {
    match prog
    case Done => []
    case Then(i, k) =>
      match i
      case Acquire(r) => WorkOf(k, held + {r})
      case Release(r) => WorkOf(k, held - {r})
      case Gate(_) => WorkOf(k, held)
      case _ => [(i, held)] + WorkOf(k, held)
  }

  /** One operation under one more lock. */
  lemma WorkLocked(r: Res, i: Instr, k: Program, held: set<Res>)
    requires !i.Acquire? && !i.Release? && !i.Gate? && r !in held
    ensures WorkOf(Locked(r, i, k), held) == [(i, held + {r})] + WorkOf(k, held)
  {
    assert held + {r} - {r} == held;
    assert WorkOf(Then(Release(r), k), held + {r}) == WorkOf(k, held);
    assert WorkOf(Then(i, Then(Release(r), k)), held + {r}) == [(i, held + {r})] + WorkOf(k, held);
  }

  lemma WorkDump(b: Res, k: Program, held: set<Res>)
    requires Table !in held && b !in held && b != Table
    ensures WorkOf(Then(Acquire(Table), Locked(b, Dump(b), Then(Release(Table), k))), held) == [(Dump(b), held + {Table, b})] + WorkOf(k, held)
  {
    assert held + {Table} - {Table} == held && held + {Table} + {b} == held + {Table, b};
    WorkLocked(b, Dump(b), Then(Release(Table), k), held + {Table});
  }

  /** Setting a tag happens under the state lock. */
  lemma TagWork()
    ensures WorkOf(TAG_CALL, {}) == [(Local, {Gil, StateLock})]
  {
    var ret := Then(Release(Gil), Done);
    assert {} + {Gil} == {Gil} && {Gil} + {StateLock} == {Gil, StateLock};
    assert WorkOf(ret, {Gil}) == [];
    WorkLocked(StateLock, Local, ret, {Gil});
  }

  /** An allocation hook interns under the table's lock, then pushes under the builder's, both under the GIL. */
  lemma HookWork()
    ensures WorkOf(HOOK_CALL, {}) == [(Intern(Mem), {Gil, Table}), (Push(MemB), {Gil, MemB})]
    ensures HOOK_CALL.k.i.Gate? && WorkOf(HOOK_CALL.k.i.other, {Gil}) == []
  {
    var ret := Then(Release(Gil), Done);
    assert {} + {Gil} == {Gil} && {Gil} + {MemB} == {Gil, MemB} && {Gil} + {Table} == {Gil, Table};
    assert WorkOf(ret, {Gil}) == [];
    WorkLocked(MemB, Push(MemB), ret, {Gil});
    WorkLocked(Table, Intern(Mem), Locked(MemB, Push(MemB), ret), {Gil});
    assert WorkOf(Then(Gate(ret), Locked(Table, Intern(Mem), Locked(MemB, Push(MemB), ret))), {Gil})
        == [(Intern(Mem), {Gil, Table})] + ([(Push(MemB), {Gil, MemB})] + []);
  }

  /** A round of the stack sampler, and one of the signal sampler. */
  lemma SamplerWork(oncpu: bool)
    ensures var b := if oncpu then OnCpuB else StackB;
      WorkOf(SampleStack(oncpu), {}) == [(Intern(Stack), {Table}), (Push(b), {b}), (Loop, {})]
    ensures WorkOf(SAMPLE_SIGNAL, {}) == [(Local, {Buf}), (Loop, {})]
  {
    var b := if oncpu then OnCpuB else StackB;
    assert WorkOf(LOOP, {}) == [(Loop, {})];
    assert {} + {b} == {b} && {} + {Table} == {Table} && {} + {Buf} == {Buf};
    WorkLocked(b, Push(b), LOOP, {});
    WorkLocked(Table, Intern(Stack), Locked(b, Push(b), LOOP), {});
    WorkLocked(Buf, Local, LOOP, {});
  }

  lemma CpuWork(g: nat, c: SnapChoice)
    ensures WorkOf(SnapCpu(g, c, Done), {}) == (if c.cpu then [(Local, {Buf})] else []) + (if c.send then [(Send(g, Session(c.n)), {})] else [])
  {
    assert {} + {Buf} == {Buf};
    assert WorkOf(SnapSend(g, c, Done), {}) == if c.send then [(Send(g, Session(c.n)), {})] else [];
    WorkLocked(Buf, Local, SnapSend(g, c, Done), {});
  }

  lemma StackWork(g: nat, c: SnapChoice)
    ensures WorkOf(SnapStack(g, c, Done), {}) == StackPart(c) + WorkOf(SnapCpu(g, c, Done), {})
  {
    var b := if c.oncpu then OnCpuB else StackB;
    assert {} + {Table, b} == {Table, b};
    WorkDump(b, SnapCpu(g, c, Done), {});
    assert [] + WorkOf(SnapCpu(g, c, Done), {}) == WorkOf(SnapCpu(g, c, Done), {});
  }

  ghost function StackPart(c: SnapChoice): Work {
    var b := if c.oncpu then OnCpuB else StackB;
    if c.stack then [(Dump(b), {Table, b})] else []
  }

  /**
   A snapshot: the memory sample and profile under the GIL, the stack profile without it, the reporter's buffer under its
   lock, and the session with no lock at all.
   */
  lemma SnapshotWork(g: nat, c: SnapChoice)
    ensures WorkOf(Snapshot(g, c, Done), {})
         == (if c.mem then [(Push(MemB), {Gil, MemB}), (Dump(MemB), {Gil, Table, MemB})] else []) + StackPart(c)
            + ((if c.cpu then [(Local, {Buf})] else []) + (if c.send then [(Send(g, Session(c.n)), {})] else []))
  {
    StackWork(g, c);
    CpuWork(g, c);
    if c.mem {
      MemWork(g, c);
    } else {
      assert [] + StackPart(c) == StackPart(c);
    }
  }

  lemma MemWork(g: nat, c: SnapChoice)
    requires c.mem
    ensures WorkOf(Snapshot(g, c, Done), {}) == [(Push(MemB), {Gil, MemB}), (Dump(MemB), {Gil, Table, MemB})] + WorkOf(SnapStack(g, c, Done), {})
  {
    var stack, dump := SnapStack(g, c, Done), DumpMem(g, c, Done);
    assert {} + {Gil} == {Gil} && {Gil} - {Gil} == {} && {Gil} + {MemB} == {Gil, MemB} && {Gil} + {Table, MemB} == {Gil, Table, MemB};
    assert WorkOf(Then(Release(Gil), stack), {Gil}) == WorkOf(stack, {});
    WorkDump(MemB, Then(Release(Gil), stack), {Gil});
    WorkLocked(MemB, Push(MemB), dump, {Gil});
    assert WorkOf(Then(Gate(dump), Locked(MemB, Push(MemB), dump)), {Gil}) == WorkOf(Locked(MemB, Push(MemB), dump), {Gil});
    assert WorkOf(Snapshot(g, c, Done), {}) == [(Push(MemB), {Gil, MemB})] + ([(Dump(MemB), {Gil, Table, MemB})] + WorkOf(stack, {}));
  }

  /** A hook goes on exactly while memory is being profiled; otherwise it goes the other way, and records nothing. */
  lemma {:induction false} GateOpens(s: Sys, t: Tid, c: Choice)
    requires Inv(s) && Enabled(s, t) && s.threads[t].prog.i.Gate?
    ensures var w, prog := Step(s, t, c), s.threads[t].prog;
      && t in w.threads && Gil in w.threads[t].held && (w.threads[t].hook <==> s.memActive)
      && w.threads[t].prog == if s.memActive then prog.k else prog.i.other
  {
    Opened(s);
    assert ThreadOk(s, t, s.threads[t]);
  }
}
