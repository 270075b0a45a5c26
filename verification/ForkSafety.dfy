/** What the child of a fork keeps, operation by operation, until its fork hook has run. */
module ForkSafety {
  import opened Lifecycle
  import opened LifecycleSafety
  import opened Fork

  /** Every index in a window or in an emitted profile resolves. */
  ghost predicate DataResolves(s: Sys) {
    && (forall e | e in s.emitted :: ValidSamples(e.table, e.samples))
    && (forall b | b in s.windows :: IsBuilder(b) && ValidSamples(s.table, s.windows[b]))
  }

  ghost predicate HandlesResolve(s: Sys) {
    forall h | h in s.memHandles + s.stackHandles :: ValidHandle(s.table, h)
  }

  /** Which locks the thread took itself; the others are orphans. */
  ghost predicate OwnLocks(c: Child) {
    forall r :: r in c.held <==> r in c.sys.locks && c.sys.locks[r] == Py(c.n)
  }

  /** Nobody left `r` locked. */
  ghost predicate NoOrphan(c: Child, r: Res) {
    r in c.sys.locks ==> r in c.held
  }

  ghost predicate LocksOk(c: Child) {
    Gil !in c.sys.locks && OwnLocks(c) && NoOrphan(c, MemB) && NoOrphan(c, StateLock)
  }

  ghost predicate ChildOk(c: Child) {
    && c.sys.threads == map[] && LocksOk(c) && DataResolves(c.sys)
    && if c.hook then HookOk(c) else BeforeHook(c)
  }

  ghost predicate BeforeHook(c: Child) {
    && |c.todo| <= |ALLOCATION| && c.todo == ALLOCATION[|ALLOCATION| - |c.todo|..]
    && c.held == HeldInAllocation(|ALLOCATION| - |c.todo|)
    && HandlesResolve(c.sys) && (c.todo != [] ==> c.sys.memActive)
  }

  function HeldInAllocation(i: nat): set<Res> {
    if 1 <= i <= 2 then {Table} else if 4 <= i <= 5 then {MemB} else {}
  }

  function HeldInHook(i: nat): set<Res> {
    if 6 <= i <= 7 then {MemB}
    else if 10 <= i <= 11 then {StackB}
    else if 13 <= i <= 14 then {OnCpuB}
    else if 16 <= i <= 17 then {Table}
    else {}
  }

  /** What the first `i` operations of the hook have done. */
  ghost predicate HookData(s: Sys, i: nat) {
    && (i >= 1 ==> s.Window(MemB) == [])
    && (i >= 2 ==> s.Window(StackB) == [])
    && (i >= 3 ==> s.Window(OnCpuB) == [])
    && (if i < 4 then HandlesResolve(s) else s.table == [""])
    && (i >= 5 ==> !s.memActive && s.memHandles == {})
    && (i >= 9 ==> s.stackHandles == {})
    && (i >= |HOOK| ==> s.agent == Idle)
  }

  ghost predicate HookLocks(c: Child, i: nat) {
    && c.held == HeldInHook(i)
    && (i >= 2 ==> NoOrphan(c, StackB)) && (i >= 3 ==> NoOrphan(c, OnCpuB)) && (i >= 4 ==> NoOrphan(c, Table))
  }

  ghost predicate HookOk(c: Child) {
    && |c.todo| <= |HOOK| && c.todo == HOOK[|HOOK| - |c.todo|..]
    && HookData(c.sys, |HOOK| - |c.todo|) && HookLocks(c, |HOOK| - |c.todo|)
  }

  // ---- The fork ----

  /** A lock that is taken under the GIL only is never left behind: the forking thread has the GIL. */
  lemma {:induction false} LocksAtFork(s: Sys, n: nat)
    requires Inv(s) && Gil !in s.locks && s.Finished(Py(n))
    ensures forall r | r in s.locks :: !NeedsGil(r) && s.locks[r] != Py(n)
  {
    Opened(s);
    forall r | r in s.locks
      ensures !NeedsGil(r) && s.locks[r] != Py(n)
    {
      assert ThreadOk(s, s.locks[r], s.threads[s.locks[r]]);
    }
  }

  lemma {:induction false} ForkIsOk(s: Sys, n: nat)
    requires Inv(s) && Gil !in s.locks && s.Finished(Py(n))
    ensures ChildOk(ChildOf(s, n))
  {
    Opened(s);
    LocksAtFork(s, n);
  }

  // ---- One operation of an allocation ----

  lemma TodoNext(all: seq<ChildInstr>, todo: seq<ChildInstr>)
    requires 0 < |todo| <= |all| && todo == all[|all| - |todo|..]
    ensures todo[0] == all[|all| - |todo|] && todo[1..] == all[|all| - |todo| + 1..]
  {
  }

  lemma {:induction false} AllocationKeeps(c: Child, text: string, frames: seq<Handle>)
    requires ChildOk(c) && !c.hook && c.CanGoOn()
    ensures ChildOk(ChildStep(c, text, frames))
  {
    TodoNext(ALLOCATION, c.todo);
    match c.todo[0]
    case InternSample => InternResolves(c.sys, text);
    case PushSample => PushResolves(c.sys, frames);
    case _ =>
  }

  lemma {:induction false} InternResolves(s: Sys, text: string)
    requires DataResolves(s) && HandlesResolve(s)
    ensures var w := ChildDoes(s, 0, InternSample, text, []); DataResolves(w) && HandlesResolve(w)
  {
    InternedGrows(s.table, text);
    var table := ChildDoes(s, 0, InternSample, text, []).table;
    forall h | h in s.memHandles + s.stackHandles
      ensures ValidHandle(table, h)
    {
      assert ValidHandle(s.table, h);
    }
    forall b | b in s.windows
      ensures ValidSamples(table, s.windows[b])
    {
      ValidStays(s.table, table, s.windows[b]);
    }
  }

  lemma {:induction false} PushResolves(s: Sys, frames: seq<Handle>)
    requires DataResolves(s) && HandlesResolve(s)
    ensures DataResolves(ChildDoes(s, 0, PushSample, "", frames))
  {
    assert ValidSamples(s.table, s.Window(MemB));
    if forall h | h in frames :: h in s.memHandles {
      assert ValidSamples(s.table, s.Window(MemB) + [frames]);
    }
  }

  // ---- One operation of the hook ----

  lemma {:induction false} HookKeeps(c: Child, text: string, frames: seq<Handle>)
    requires ChildOk(c) && c.hook && c.CanGoOn()
    ensures ChildOk(ChildStep(c, text, frames))
  {
    var i := |HOOK| - |c.todo|;
    var d := ChildStep(c, text, frames);
    TodoNext(HOOK, c.todo);
    HookTakesAndGives(c, text, frames, i);
    HookChangesData(c.sys, c.n, text, frames, i);
    HookAt(d, i + 1);
  }

  lemma HookAt(c: Child, i: nat)
    requires i <= |HOOK| && c.hook && c.todo == HOOK[i..] && c.sys.threads == map[]
    requires LocksOk(c) && HookLocks(c, i) && DataResolves(c.sys) && HookData(c.sys, i)
    ensures ChildOk(c)
  {
    assert |HOOK| - |c.todo| == i;
  }

  lemma {:induction false} HookChangesData(s: Sys, n: nat, text: string, frames: seq<Handle>, i: nat)
    requires i < |HOOK| && s.threads == map[] && DataResolves(s) && HookData(s, i)
    ensures var w := ChildDoes(s, n, HOOK[i], text, frames); DataResolves(w) && HookData(w, i + 1) && w.threads == map[]
  {
    if i < 5 {
      HookForgets(s, n, text, frames, i);
    } else if i < 9 {
      HookStops(s, n, text, frames, i);
    } else if i < 15 {
      HookClears(s, n, text, frames, i);
    } else {
      HookEnds(s, n, text, frames, i);
    }
    ThreadsStay(s, n, HOOK[i], text, frames);
  }

  lemma ThreadsStay(s: Sys, n: nat, i: ChildInstr, text: string, frames: seq<Handle>)
    ensures ChildDoes(s, n, i, text, frames).threads == s.threads
  {
  }

  /** The hook gives back what it takes, and each lock it takes is a new one. */
  lemma {:induction false} HookTakesAndGives(c: Child, text: string, frames: seq<Handle>, i: nat)
    requires LocksOk(c) && c.CanGoOn() && i < |HOOK| && c.todo[0] == HOOK[i] && HookLocks(c, i)
    ensures var d := ChildStep(c, text, frames); LocksOk(d) && HookLocks(d, i + 1)
  {
    match HOOK[i]
    case Take(r) => HookTakes(c, text, frames, i, r);
    case Give(r) => HookGives(c, text, frames, i, r);
    case Forget(r) => HookForgetsLock(c, text, frames, i, r);
    case _ => HookLeavesLocks(c, text, frames, i);
  }

  lemma {:induction false} HookTakes(c: Child, text: string, frames: seq<Handle>, i: nat, r: Res)
    requires LocksOk(c) && c.CanGoOn() && i < |HOOK| && c.todo[0] == HOOK[i] == Take(r) && HookLocks(c, i)
    ensures var d := ChildStep(c, text, frames); LocksOk(d) && HookLocks(d, i + 1)
  {
  }

  lemma {:induction false} HookGives(c: Child, text: string, frames: seq<Handle>, i: nat, r: Res)
    requires LocksOk(c) && c.CanGoOn() && i < |HOOK| && c.todo[0] == HOOK[i] == Give(r) && HookLocks(c, i)
    ensures var d := ChildStep(c, text, frames); LocksOk(d) && HookLocks(d, i + 1)
  {
  }

  lemma {:induction false} HookForgetsLock(c: Child, text: string, frames: seq<Handle>, i: nat, r: Res)
    requires LocksOk(c) && c.CanGoOn() && i < |HOOK| && c.todo[0] == HOOK[i] == Forget(r) && HookLocks(c, i)
    ensures var d := ChildStep(c, text, frames); LocksOk(d) && HookLocks(d, i + 1)
  {
  }

  lemma {:induction false} HookLeavesLocks(c: Child, text: string, frames: seq<Handle>, i: nat)
    requires LocksOk(c) && c.CanGoOn() && i < |HOOK| && c.todo[0] == HOOK[i] && HookLocks(c, i)
    requires !HOOK[i].Take? && !HOOK[i].Give? && !HOOK[i].Forget?
    ensures var d := ChildStep(c, text, frames); LocksOk(d) && HookLocks(d, i + 1)
  {
    var d := ChildStep(c, text, frames);
    assert d.sys.locks == c.sys.locks && d.held == c.held;
  }

  lemma {:induction false} HookForgets(s: Sys, n: nat, text: string, frames: seq<Handle>, i: nat)
    requires i < 5 && DataResolves(s) && HookData(s, i)
    ensures var w := ChildDoes(s, n, HOOK[i], text, frames); DataResolves(w) && HookData(w, i + 1)
  {
    if i == 3 { NothingLeft(s); }
  }

  lemma {:induction false} HookStops(s: Sys, n: nat, text: string, frames: seq<Handle>, i: nat)
    requires 5 <= i < 9 && DataResolves(s) && HookData(s, i)
    ensures var w := ChildDoes(s, n, HOOK[i], text, frames); DataResolves(w) && HookData(w, i + 1)
  {
  }

  lemma {:induction false} HookClears(s: Sys, n: nat, text: string, frames: seq<Handle>, i: nat)
    requires 9 <= i < 15 && DataResolves(s) && HookData(s, i)
    ensures var w := ChildDoes(s, n, HOOK[i], text, frames); DataResolves(w) && HookData(w, i + 1)
  {
  }

  lemma {:induction false} HookEnds(s: Sys, n: nat, text: string, frames: seq<Handle>, i: nat)
    requires 15 <= i < |HOOK| && DataResolves(s) && HookData(s, i)
    ensures var w := ChildDoes(s, n, HOOK[i], text, frames); DataResolves(w) && HookData(w, i + 1)
  {
    NothingLeft(s);
  }

  /** With all windows empty, the table may go. */
  lemma {:induction false} NothingLeft(s: Sys)
    requires DataResolves(s) && s.Window(MemB) == [] && s.Window(StackB) == [] && s.Window(OnCpuB) == []
    ensures (forall b :: s.Window(b) == []) && DataResolves(s.(table := [""]))
  {
    forall b
      ensures s.Window(b) == []
    {
      if b in s.windows { assert IsBuilder(b); }
    }
  }

  /** After the hook the child is a process like any other: idle, with everything fresh. */
  lemma {:induction false} AdoptedIsOk(c: Child)
    requires ChildOk(c) && c.hook && c.todo == []
    ensures Inv(Adopted(c.sys))
  {
    var w := Adopted(c.sys);
    forall r
      ensures r !in w.locks
    {
      match r
      case Gil => case StateLock => case Table => case MemB => case StackB => case OnCpuB => case Buf =>
    }
    assert forall t: Tid :: w.Finished(t);
  }
}
