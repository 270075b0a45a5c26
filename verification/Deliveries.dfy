/**
 What goes through the profiler in any run: the sessions that were sent and uploaded, the samples that were pushed and
 left their builder, the profiles that were emitted, and the last snapshot of an agent. Each history is read off the
 actions and the states they met, not off what the steps did.
 */
module Deliveries {
  import Strings
  import opened Lifecycle
  import opened LifecycleSafety
  import opened Fork
  import opened ForkSafety
  import opened ProfilerRuns
  import opened Calls

  // ---- What an action does ----

  /** An action as it meets the state: an operation of a thread, the end of a fork hook, or nothing of interest here. */
  datatype Deed = Did(s: Sys, t: Tid, i: Instr, c: Choice) | Adopts | Nothing

  function DeedOf(p: Process, a: Action): Deed {
    match p
    case Live(s) => if a.Move? && Enabled(s, a.t) then Did(s, a.t, s.threads[a.t].prog.i, a.choice) else Nothing
    case Forked(c) => if Do(p, a).Live? then Adopts else Nothing
  }

  /** The messages offered to the channel of the current agent while somebody listens. */
  ghost function Offered(actions: seq<Action>): seq<Msg>
    decreases |actions|
  {
    if actions == [] then []
    else
      var before := Offered(actions[..|actions| - 1]);
      match DeedOf(Run(actions[..|actions| - 1]), actions[|actions| - 1])
      case Did(s, _, Send(_, msg), _) => if s.Finished(SessionT(s.gen)) then before else before + [msg]
      case Did(s, _, ClaimRun, _) => if s.agent == Idle then [] else before
      case Adopts => []
      case _ => before
  }

  /** What was pushed to a builder, in order. */
  ghost function PushedTo(b: Res, actions: seq<Action>): seq<seq<Handle>>
    decreases |actions|
  {
    if actions == [] then []
    else
      var before := PushedTo(b, actions[..|actions| - 1]);
      match DeedOf(Run(actions[..|actions| - 1]), actions[|actions| - 1])
      case Did(s, _, Push(r), c) => if r == b && Known(s, b, c.frames) then before + [c.frames] else before
      case Adopts => []
      case _ => before
  }

  /** A sample uses only indices its profiler holds. */
  ghost predicate Known(s: Sys, b: Res, frames: seq<Handle>) {
    forall h | h in frames :: h in if b.MemB? then s.memHandles else s.stackHandles
  }

  /** What a dump or a teardown took from a builder, in order. */
  ghost function TakenFrom(b: Res, actions: seq<Action>): seq<seq<Handle>>
    decreases |actions|
  {
    if actions == [] then []
    else
      var before := TakenFrom(b, actions[..|actions| - 1]);
      match DeedOf(Run(actions[..|actions| - 1]), actions[|actions| - 1])
      case Did(s, _, Dump(r), _) => if r == b then before + s.Window(b) else before
      case Did(s, _, Clear(r), _) => if r == b then before + s.Window(b) else before
      case Adopts => []
      case _ => before
  }

  /** The windows that were dumped while there was something in them, with the table of that moment. */
  ghost function Dumped(actions: seq<Action>): seq<Emitted>
    decreases |actions|
  {
    if actions == [] then []
    else
      var before := Dumped(actions[..|actions| - 1]);
      match DeedOf(Run(actions[..|actions| - 1]), actions[|actions| - 1])
      case Did(s, _, Dump(b), c) => if s.Window(b) == [] then before else before + [Emitted(s.Window(b), InternAll(s.table, c.types))]
      case _ => before
  }

  /** The indices a profiler was handed and has not given up. */
  ghost function Handed(client: Client, actions: seq<Action>): set<Handle>
    decreases |actions|
  {
    if actions == [] then {}
    else
      var before := Handed(client, actions[..|actions| - 1]);
      match DeedOf(Run(actions[..|actions| - 1]), actions[|actions| - 1])
      case Did(s, _, Intern(r), c) => if r == client then before + {HandleFor(s.table, c.text)} else before
      case Did(s, _, StopMem, _) => if client.Mem? then {} else before
      case Did(s, StackT(g), Loop, _) => if client.Stack? && StackT(g) in s.quit then {} else before
      case Adopts => {}
      case _ => before
  }

  // ---- What each operation leaves alone ----

  ghost predicate SameChannel(s: Sys, w: Sys) {
    w.sent == s.sent && w.received == s.received && w.uploaded == s.uploaded && w.gen == s.gen
  }

  ghost predicate SameSamples(s: Sys, w: Sys) {
    && w.windows == s.windows && w.emitted == s.emitted
    && w.memHandles == s.memHandles && w.stackHandles == s.stackHandles
  }

  lemma {:induction false} LocksLeave(s: Sys, t: Tid, c: Choice)
    requires Enabled(s, t) && OnLocks(s.threads[t].prog.i)
    ensures SameChannel(s, Step(s, t, c)) && SameSamples(s, Step(s, t, c))
  {
  }

  lemma {:induction false} AgentLeaves(s: Sys, t: Tid, c: Choice)
    requires Enabled(s, t) && OnAgent(s.threads[t].prog.i)
    ensures var w, i := Step(s, t, c), s.threads[t].prog.i;
      && (if i.ClaimRun? && s.agent == Idle then w.sent == w.received == [] && w.uploaded == [] && w.gen == s.gen + 1 else SameChannel(s, w))
      && w.windows == s.windows && w.emitted == s.emitted && w.stackHandles == s.stackHandles
      && w.memHandles == if i.StopMem? then {} else s.memHandles
  {
  }

  lemma {:induction false} FillLeaves(s: Sys, t: Tid, c: Choice)
    requires Enabled(s, t) && (s.threads[t].prog.i.Intern? || s.threads[t].prog.i.Push?)
    ensures var w, i := Step(s, t, c), s.threads[t].prog.i;
      && SameChannel(s, w) && w.emitted == s.emitted
      && w.memHandles == (if i == Intern(Mem) then s.memHandles + {HandleFor(s.table, c.text)} else s.memHandles)
      && w.stackHandles == (if i == Intern(Stack) then s.stackHandles + {HandleFor(s.table, c.text)} else s.stackHandles)
      && w.windows == if i.Push? && Known(s, i.b, c.frames) then s.windows[i.b := s.Window(i.b) + [c.frames]] else s.windows
  {
  }

  lemma {:induction false} DrainLeaves(s: Sys, t: Tid, c: Choice)
    requires Enabled(s, t) && (s.threads[t].prog.i.Dump? || s.threads[t].prog.i.Clear? || s.threads[t].prog.i.ClearTable?)
    ensures var w, i := Step(s, t, c), s.threads[t].prog.i;
      && SameChannel(s, w) && w.memHandles == s.memHandles && w.stackHandles == s.stackHandles
      && w.windows == (if i.ClearTable? then s.windows else s.windows[i.b := []])
      && w.emitted == if i.Dump? && s.Window(i.b) != [] then s.emitted + [Emitted(s.Window(i.b), InternAll(s.table, c.types))] else s.emitted
  {
  }

  lemma {:induction false} RestLeaves(s: Sys, t: Tid, c: Choice)
    requires Enabled(s, t) && (s.threads[t].prog.i.Send? || s.threads[t].prog.i.Upload? || s.threads[t].prog.i.Loop?)
    ensures var w, i := Step(s, t, c), s.threads[t].prog.i;
      && w.gen == s.gen && w.windows == s.windows && w.emitted == s.emitted && w.memHandles == s.memHandles
      && w.sent == (if i.Send? && !s.Finished(SessionT(s.gen)) then s.sent + [i.msg] else s.sent)
      && w.uploaded == (if i.Upload? then s.uploaded + [i.n] else s.uploaded)
      && w.received == (if i.Loop? && t.SessionT? then s.received + [s.channel[0]] else s.received)
      && w.stackHandles == if i.Loop? && t.StackT? && t in s.quit then {} else s.stackHandles
  {
  }

  /** All of it: what a step does to the channel, the samples and the indices. */
  ghost predicate Leaves(s: Sys, w: Sys, t: Tid, i: Instr, c: Choice)
    requires i.Loop? && t.SessionT? ==> s.channel != []
  {
    && (if i.ClaimRun? && s.agent == Idle then w.gen == s.gen + 1 && w.sent == w.received == [] && w.uploaded == []
        else
          && w.gen == s.gen
          && w.sent == (if i.Send? && !s.Finished(SessionT(s.gen)) then s.sent + [i.msg] else s.sent)
          && w.uploaded == (if i.Upload? then s.uploaded + [i.n] else s.uploaded)
          && w.received == (if i.Loop? && t.SessionT? then s.received + [s.channel[0]] else s.received))
    && w.windows == (if i.Push? && Known(s, i.b, c.frames) then s.windows[i.b := s.Window(i.b) + [c.frames]]
                     else if i.Dump? || i.Clear? then s.windows[i.b := []] else s.windows)
    && w.emitted == (if i.Dump? && s.Window(i.b) != [] then s.emitted + [Emitted(s.Window(i.b), InternAll(s.table, c.types))] else s.emitted)
    && w.memHandles == (if i == Intern(Mem) then s.memHandles + {HandleFor(s.table, c.text)} else if i.StopMem? then {} else s.memHandles)
    && w.stackHandles == (if i == Intern(Stack) then s.stackHandles + {HandleFor(s.table, c.text)}
                          else if i.Loop? && t.StackT? && t in s.quit then {} else s.stackHandles)
  }

  lemma {:induction false} StepLeaves(s: Sys, t: Tid, c: Choice)
    requires Enabled(s, t)
    ensures Leaves(s, Step(s, t, c), t, s.threads[t].prog.i, c)
  {
    var i := s.threads[t].prog.i;
    if OnLocks(i) {
      LocksLeave(s, t, c);
    } else if OnAgent(i) {
      AgentLeaves(s, t, c);
    } else if i.Intern? || i.Push? {
      FillLeaves(s, t, c);
    } else if OnData(i) {
      DrainLeaves(s, t, c);
    } else {
      RestLeaves(s, t, c);
    }
  }

  // ---- Sessions ----

  /** What went into the channel is what was offered to it. */
  lemma {:induction false} SentIsOffered(actions: seq<Action>)
    ensures Run(actions).Live? ==> Run(actions).s.sent == Offered(actions)
    decreases |actions|
  {
    if actions != [] {
      var front, a := actions[..|actions| - 1], actions[|actions| - 1];
      SentIsOffered(front);
      if Run(front).Live? && Run(actions).Live? { SentStep(Run(front).s, a); }
    }
  }

  lemma {:induction false} SentStep(s: Sys, a: Action)
    requires Do(Live(s), a).Live?
    ensures var w := Do(Live(s), a).s;
      w.sent == match DeedOf(Live(s), a)
                case Did(_, _, Send(_, msg), _) => if s.Finished(SessionT(s.gen)) then s.sent else s.sent + [msg]
                case Did(_, _, ClaimRun, _) => if s.agent == Idle then [] else s.sent
                case _ => s.sent
  {
    if a.Move? && Enabled(s, a.t) { StepLeaves(s, a.t, a.choice); }
  }

  /** The numbers of the sessions among the messages. */
  ghost function SessionsIn(msgs: seq<Msg>): seq<nat> {
    if msgs == [] then []
    else
      var front, last := SessionsIn(msgs[..|msgs| - 1]), msgs[|msgs| - 1];
      if last.Session? then front + [last.n] else front
  }

  /** The session the session thread has in its hands. */
  ghost function InHand(s: Sys): seq<nat> {
    var t := SessionT(s.gen);
    if t in s.threads && s.threads[t].prog != Done && s.threads[t].prog.i.Upload? then [s.threads[t].prog.i.n] else []
  }

  /** The session thread is at its loop, at the upload of one session, or at its end; and nothing went past it. */
  ghost predicate UploadsOk(s: Sys) {
    var t := SessionT(s.gen);
    && (if t in s.threads then
          var prog := s.threads[t].prog;
          prog == Done || prog == LOOP || (prog.i.Upload? && prog.k == LOOP)
        else s.received == [] && s.uploaded == [])
    && SessionsIn(s.received) == s.uploaded + InHand(s)
  }

  lemma {:induction false} OneMoreMessage(msgs: seq<Msg>, m: Msg)
    ensures SessionsIn(msgs + [m]) == SessionsIn(msgs) + if m.Session? then [m.n] else []
  {
    assert (msgs + [m])[..|msgs|] == msgs;
  }

  /** Only the session thread receives and uploads. */
  lemma {:induction false} OnlySessions(s: Sys, t: Tid)
    requires Inv(s) && Enabled(s, t)
    ensures s.threads[t].prog.i.Upload? ==> t.SessionT?
    ensures t.SessionT? ==> t.g == s.gen && !s.threads[t].body
  {
    Opened(s);
    assert ThreadOk(s, t, s.threads[t]);
  }

  /** The session thread receives, uploads, and starts over. */
  lemma {:induction false} SessionGoesOn(s: Sys, c: Choice)
    requires Inv(s) && UploadsOk(s) && Enabled(s, SessionT(s.gen))
    ensures UploadsOk(Step(s, SessionT(s.gen), c))
  {
    var t := SessionT(s.gen);
    RestLeaves(s, t, c);
    if s.threads[t].prog.i.Loop? { OneMoreMessage(s.received, s.channel[0]); }
  }

  lemma {:induction false} UploadsStep(s: Sys, t: Tid, c: Choice)
    requires Inv(s) && UploadsOk(s) && Enabled(s, t)
    ensures UploadsOk(Step(s, t, c))
  {
    OnlySessions(s, t);
    if t == SessionT(s.gen) {
      SessionGoesOn(s, c);
    } else {
      StepLeaves(s, t, c);
      if s.threads[t].prog.i == Spawn(SessionT(s.gen)) {
        SpawnsFresh(s, t, c);
      } else {
        StepsApart(s, t, c);
        NoNextSession(s);
        OnlyInBody(s, t);
        OthersUpload(s, Step(s, t, c), t, s.threads[t].prog.i, c);
      }
    }
  }

  lemma {:induction false} NoNextSession(s: Sys)
    requires Inv(s)
    ensures SessionT(s.gen + 1) !in s.threads
  {
    Opened(s);
    NoneOfNext(s);
  }

  lemma {:induction false} SpawnsFresh(s: Sys, t: Tid, c: Choice)
    requires Inv(s) && Enabled(s, t) && s.threads[t].prog.i == Spawn(SessionT(s.gen)) && UploadsOk(s)
    ensures var w := Step(s, t, c); SessionT(s.gen) in w.threads && w.threads[SessionT(s.gen)].prog == LOOP && s.Finished(SessionT(s.gen))
  {
    Opened(s);
    SpawnPremise(s, t, SessionT(s.gen));
  }

  lemma {:induction false} OthersUpload(s: Sys, w: Sys, t: Tid, i: Instr, c: Choice)
    requires UploadsOk(s) && t != SessionT(s.gen) && !t.SessionT? && Leaves(s, w, t, i, c) && Apart(s, w, t, i) && !i.Upload?
    requires SessionT(s.gen + 1) !in s.threads && i != Spawn(SessionT(s.gen)) && i != Spawn(SessionT(s.gen + 1))
    ensures UploadsOk(w)
  {
  }

  lemma {:induction false} UploadsRun(actions: seq<Action>)
    ensures Run(actions).Live? ==> UploadsOk(Run(actions).s)
    decreases |actions|
  {
    if actions != [] {
      var front, a := actions[..|actions| - 1], actions[|actions| - 1];
      UploadsRun(front);
      RunKeepsOk(front);
      if Run(front).Live? {
        if a.Move? && Enabled(Run(front).s, a.t) { UploadsStep(Run(front).s, a.t, a.choice); }
      } else if Run(actions).Live? {
        AdoptedUploads(Run(front).c, a);
      }
    }
  }

  lemma {:induction false} AdoptedUploads(c: Child, a: Action)
    requires ChildOk(c) && Do(Forked(c), a).Live?
    ensures UploadsOk(Do(Forked(c), a).s)
  {
  }

  /**
   Every session that the session thread receives is uploaded, in order, each once; it has at most one in its hands. And
   what it can receive is what was offered while it listened.
   */
  lemma {:induction false} SessionsAreUploaded(actions: seq<Action>, s: Sys)
    requires Run(actions) == Live(s)
    ensures s.sent == Offered(actions) && s.sent == s.received + s.channel
    ensures SessionsIn(s.received) == s.uploaded + InHand(s) && |InHand(s)| <= 1
    ensures s.Finished(SessionT(s.gen)) ==> SessionsIn(s.received) == s.uploaded
  {
    SentIsOffered(actions);
    UploadsRun(actions);
    RunKeepsOk(actions);
    Opened(s);
  }

  /** When a call is about to leave the agent idle, every session that was offered has been uploaded. */
  lemma {:induction false} AllIsUploaded(actions: seq<Action>, s: Sys, t: Tid)
    requires Run(actions) == Live(s) && Enabled(s, t) && s.threads[t].prog.i == Commit(Idle) && SessionT(s.gen) in s.threads
    ensures s.uploaded == SessionsIn(Offered(actions))
  {
    StopAfterDelivery(actions, s, t);
    SessionsAreUploaded(actions, s);
  }

  // ---- Samples ----

  /** Every sample that was pushed is still in its window, or a dump or a teardown took it: each once, and in order. */
  lemma {:induction false} SamplesAreKept(b: Res, actions: seq<Action>)
    ensures Run(actions).Live? ==> PushedTo(b, actions) == TakenFrom(b, actions) + Run(actions).s.Window(b)
    decreases |actions|
  {
    if actions == [] {
    } else if Run(actions).Live? {
      var front, a := actions[..|actions| - 1], actions[|actions| - 1];
      SamplesAreKept(b, front);
      RunKeepsOk(front);
      if Run(front).Live? {
        WindowStep(Run(front).s, a, b);
        Regroup(TakenFrom(b, front), Run(front).s.Window(b));
      } else {
        ProfilerRuns.Adopts(Run(front).c, a, Run(actions).s);
      }
    }
  }

  lemma Regroup<T>(a: seq<T>, b: seq<T>)
    ensures forall c: seq<T> :: a + b + c == a + (b + c)
    ensures a + b + [] == a + b
  {
  }

  lemma {:induction false} WindowStep(s: Sys, a: Action, b: Res)
    requires Do(Live(s), a).Live?
    ensures var w := Do(Live(s), a).s;
      w.Window(b) == match DeedOf(Live(s), a)
                     case Did(_, _, Push(r), c) => if r == b && Known(s, b, c.frames) then s.Window(b) + [c.frames] else s.Window(b)
                     case Did(_, _, Dump(r), _) => if r == b then [] else s.Window(b)
                     case Did(_, _, Clear(r), _) => if r == b then [] else s.Window(b)
                     case _ => s.Window(b)
  {
    if a.Move? && Enabled(s, a.t) {
      MoveWindow(s, a.t, a.choice, b);
    } else {
      StillWindows(s, a);
    }
  }

  lemma {:induction false} MoveWindow(s: Sys, t: Tid, c: Choice, b: Res)
    requires Enabled(s, t)
    ensures var i := s.threads[t].prog.i;
      Step(s, t, c).Window(b) == if i == Push(b) && Known(s, b, c.frames) then s.Window(b) + [c.frames]
                                 else if i == Dump(b) || i == Clear(b) then [] else s.Window(b)
  {
    StepLeaves(s, t, c);
    WindowOf(s, Step(s, t, c), t, s.threads[t].prog.i, c, b);
  }

  lemma {:induction false} StillWindows(s: Sys, a: Action)
    requires Do(Live(s), a).Live? && !(a.Move? && Enabled(s, a.t))
    ensures Do(Live(s), a).s.windows == s.windows
  {
  }

  lemma {:induction false} WindowOf(s: Sys, w: Sys, t: Tid, i: Instr, c: Choice, b: Res)
    requires (i.Loop? && t.SessionT? ==> s.channel != []) && Leaves(s, w, t, i, c)
    ensures w.Window(b) == if i == Push(b) && Known(s, b, c.frames) then s.Window(b) + [c.frames]
                           else if i == Dump(b) || i == Clear(b) then [] else s.Window(b)
  {
  }

  ghost function SysOf(p: Process): Sys {
    match p case Live(s) => s case Forked(c) => c.sys
  }

  /** What was emitted is what was dumped, window by window, each with the table of its moment. A child adds nothing until its hook is over. */
  lemma {:induction false} EmittedIsDumped(actions: seq<Action>)
    ensures SysOf(Run(actions)).emitted == Dumped(actions)
    decreases |actions|
  {
    if actions != [] {
      var front, a := actions[..|actions| - 1], actions[|actions| - 1];
      EmittedIsDumped(front);
      if Run(front).Live? {
        EmittedStep(Run(front).s, a);
      } else {
        ChildStepEmitsNothing(Run(front).c, a);
      }
    }
  }

  lemma {:induction false} EmittedStep(s: Sys, a: Action)
    ensures SysOf(Do(Live(s), a)).emitted == match DeedOf(Live(s), a)
      case Did(_, _, Dump(b), c) => if s.Window(b) == [] then s.emitted else s.emitted + [Emitted(s.Window(b), InternAll(s.table, c.types))]
      case _ => s.emitted
  {
    if a.Move? && Enabled(s, a.t) { StepLeaves(s, a.t, a.choice); }
  }

  /** A profiler holds just the indices it was handed since it was last stopped. */
  lemma {:induction false} HandlesAreHanded(client: Client, actions: seq<Action>)
    ensures Run(actions).Live? ==> HeldBy(Run(actions).s, client) == Handed(client, actions)
    decreases |actions|
  {
    if actions != [] && Run(actions).Live? {
      var front, a := actions[..|actions| - 1], actions[|actions| - 1];
      HandlesAreHanded(client, front);
      RunKeepsOk(front);
      if Run(front).Live? {
        HandedStep(Run(front).s, a, client);
      } else {
        ProfilerRuns.Adopts(Run(front).c, a, Run(actions).s);
      }
    }
  }

  ghost function HeldBy(s: Sys, client: Client): set<Handle> {
    if client.Mem? then s.memHandles else s.stackHandles
  }

  lemma {:induction false} HandedStep(s: Sys, a: Action, client: Client)
    requires Do(Live(s), a).Live?
    ensures HeldBy(Do(Live(s), a).s, client) == match DeedOf(Live(s), a)
      case Did(_, _, Intern(r), c) => if r == client then HeldBy(s, client) + {HandleFor(s.table, c.text)} else HeldBy(s, client)
      case Did(_, _, StopMem, _) => if client.Mem? then {} else HeldBy(s, client)
      case Did(_, StackT(g), Loop, _) => if client.Stack? && StackT(g) in s.quit then {} else HeldBy(s, client)
      case _ => HeldBy(s, client)
  {
    if a.Move? && Enabled(s, a.t) { StepLeaves(s, a.t, a.choice); }
  }

  // ---- The last snapshot ----

  /** The thread of the agent `g` began its last snapshot: it was told to quit, or the snapshot fails. */
  ghost predicate Flushes(actions: seq<Action>, g: nat)
    decreases |actions|
  {
    if actions == [] then false
    else
      match DeedOf(Run(actions[..|actions| - 1]), actions[|actions| - 1])
      case Did(s, t, Loop, c) => if t == AgentT(g) then t in s.quit || c.snap.fails else Flushes(actions[..|actions| - 1], g)
      case Did(s, _, Spawn(u), _) => u != AgentT(g) && Flushes(actions[..|actions| - 1], g)
      case _ => Flushes(actions[..|actions| - 1], g)
  }

  /** The program comes back to its loop, whatever gates it meets. */
  ghost predicate ComesBack(prog: Program)
    decreases prog
  {
    match prog
    case Done => false
    case Then(i, k) => prog == LOOP || (!i.Loop? && ComesBack(k) && match i case Gate(other) => ComesBack(other) case _ => true)
  }

  ghost predicate NeverLoops(prog: Program)
    decreases prog
  {
    match prog
    case Done => true
    case Then(i, k) => !i.Loop? && NeverLoops(k) && match i case Gate(other) => NeverLoops(other) case _ => true
  }

  lemma SnapshotEnds(g: nat, c: SnapChoice)
    ensures NeverLoops(Snapshot(g, c, Done)) && ComesBack(Snapshot(g, c, LOOP))
  {
    SnapshotTail(g, c, Done);
    SnapshotTail(g, c, LOOP);
  }

  /** A snapshot loops just if what follows it does. */
  ghost predicate Alike(prog: Program, k: Program) {
    (NeverLoops(k) ==> NeverLoops(prog)) && (ComesBack(k) ==> ComesBack(prog))
  }

  lemma Alike1(i: Instr, prog: Program, k: Program)
    requires Alike(prog, k) && !i.Loop? && !i.Gate?
    ensures Alike(Then(i, prog), k)
  {
  }

  lemma AlikeLocked(r: Res, i: Instr, prog: Program, k: Program)
    requires Alike(prog, k) && !i.Loop? && !i.Gate?
    ensures Alike(Locked(r, i, prog), k)
  {
    Alike1(Release(r), prog, k);
    Alike1(i, Then(Release(r), prog), k);
    Alike1(Acquire(r), Then(i, Then(Release(r), prog)), k);
  }

  lemma SnapshotTail(g: nat, c: SnapChoice, k: Program)
    ensures Alike(Snapshot(g, c, k), k)
  {
    Alike1(Send(g, Session(c.n)), k, k);
    AlikeLocked(Buf, Local, SnapSend(g, c, k), k);
    assert Alike(SnapCpu(g, c, k), k);
    DumpAlike(if c.oncpu then OnCpuB else StackB, SnapCpu(g, c, k), k);
    assert Alike(SnapStack(g, c, k), k);
    Alike1(Release(Gil), SnapStack(g, c, k), k);
    DumpAlike(MemB, Then(Release(Gil), SnapStack(g, c, k)), k);
    var dump := DumpMem(g, c, k);
    AlikeLocked(MemB, Push(MemB), dump, k);
    AlikeGate(dump, Locked(MemB, Push(MemB), dump), k);
    Alike1(Acquire(Gil), Then(Gate(dump), Locked(MemB, Push(MemB), dump)), k);
  }

  lemma AlikeGate(other: Program, prog: Program, k: Program)
    requires Alike(prog, k) && Alike(other, k)
    ensures Alike(Then(Gate(other), prog), k)
  {
  }

  lemma DumpAlike(b: Res, prog: Program, k: Program)
    requires Alike(prog, k)
    ensures Alike(Then(Acquire(Table), Locked(b, Dump(b), Then(Release(Table), prog))), k)
  {
    Alike1(Release(Table), prog, k);
    AlikeLocked(b, Dump(b), Then(Release(Table), prog), k);
    Alike1(Acquire(Table), Locked(b, Dump(b), Then(Release(Table), prog)), k);
  }

  /** Until its last snapshot the agent's thread comes back to its loop, and from then on it never does. */
  ghost predicate AgentOk(s: Sys, g: nat, flushes: bool) {
    AgentT(g) in s.threads ==> if flushes then NeverLoops(s.threads[AgentT(g)].prog) else ComesBack(s.threads[AgentT(g)].prog)
  }

  /** The agent's thread does the next operation of its program. */
  lemma {:induction false} AgentMoves(s: Sys, g: nat, c: Choice)
    requires Inv(s) && Enabled(s, AgentT(g)) && !s.threads[AgentT(g)].prog.i.Loop?
    ensures var w, prog := Step(s, AgentT(g), c), s.threads[AgentT(g)].prog;
      AgentT(g) in w.threads && (w.threads[AgentT(g)].prog == prog.k || (prog.i.Gate? && w.threads[AgentT(g)].prog == prog.i.other))
  {
    Opened(s);
    assert ThreadOk(s, AgentT(g), s.threads[AgentT(g)]);
  }

  lemma {:induction false} AgentLoops(s: Sys, g: nat, c: Choice)
    requires Enabled(s, AgentT(g)) && s.threads[AgentT(g)].prog.i.Loop?
    ensures AgentOk(Step(s, AgentT(g), c), g, AgentT(g) in s.quit || c.snap.fails)
  {
    SnapshotEnds(g, c.snap);
  }

  lemma {:induction false} AgentStep(s: Sys, t: Tid, c: Choice, g: nat, flushes: bool)
    requires Inv(s) && Enabled(s, t) && AgentOk(s, g, flushes)
    ensures var i := s.threads[t].prog.i;
      AgentOk(Step(s, t, c), g, if t == AgentT(g) && i.Loop? then t in s.quit || c.snap.fails else if i == Spawn(AgentT(g)) then false else flushes)
  {
    var i := s.threads[t].prog.i;
    if t != AgentT(g) {
      if i == Spawn(AgentT(g)) { SpawnedLoops(s, t, c, g); } else { StepsApart(s, t, c); }
    } else if i.Loop? {
      AgentLoops(s, g, c);
    } else {
      AgentMoves(s, g, c);
      OnlyInBody(s, t);
      Opened(s);
      assert ThreadOk(s, t, s.threads[t]);
    }
  }

  lemma {:induction false} SpawnedLoops(s: Sys, t: Tid, c: Choice, g: nat)
    requires Enabled(s, t) && s.threads[t].prog.i == Spawn(AgentT(g))
    ensures var w := Step(s, t, c); AgentT(g) in w.threads && w.threads[AgentT(g)].prog == LOOP
  {
  }

  /**
   An agent's thread ends only by a last snapshot: one it begins when it has been told to quit, or one that fails. Behind
   it there is no other.
   */
  lemma {:induction false} AgentFlushes(actions: seq<Action>, s: Sys, g: nat)
    requires Run(actions) == Live(s)
    ensures AgentT(g) in s.threads && s.Finished(AgentT(g)) ==> Flushes(actions, g)
    ensures AgentT(g) in s.threads && Flushes(actions, g) ==> NeverLoops(s.threads[AgentT(g)].prog)
  {
    AgentRun(actions, g);
  }

  lemma {:induction false} AgentRun(actions: seq<Action>, g: nat)
    ensures Run(actions).Live? ==> AgentOk(Run(actions).s, g, Flushes(actions, g))
    decreases |actions|
  {
    if actions != [] {
      var front, a := actions[..|actions| - 1], actions[|actions| - 1];
      AgentRun(front, g);
      RunKeepsOk(front);
      if Run(front).Live? && a.Move? && Enabled(Run(front).s, a.t) {
        AgentStep(Run(front).s, a.t, a.choice, g, Flushes(front, g));
      }
    }
  }

  /** The last snapshot is a whole one: what it does is the program of a snapshot with nothing behind it. */
  lemma {:induction false} LastSnapshotIsWhole(actions: seq<Action>, s: Sys, g: nat, c: Choice)
    requires Run(actions) == Live(s) && Enabled(s, AgentT(g)) && s.threads[AgentT(g)].prog.i.Loop? && AgentT(g) in s.quit
    ensures var w := Step(s, AgentT(g), c); AgentT(g) in w.threads && w.threads[AgentT(g)].prog == Snapshot(g, c.snap, Done)
  {
  }

  // ---- What a snapshot does ----

  /** The builders a program dumps, and the messages it sends, in order. A gate only leads around the sample behind it. */
  ghost function Dumps(prog: Program): seq<Res> {
    match prog
    case Done => []
    case Then(i, k) => (if i.Dump? then [i.b] else []) + Dumps(k)
  }

  ghost function Sends(prog: Program): seq<Msg> {
    match prog
    case Done => []
    case Then(i, k) => (if i.Send? then [i.msg] else []) + Sends(k)
  }

  /** Whatever its gate decides, the program dumps `bs` and sends `ms`. */
  ghost predicate Yields(prog: Program, bs: seq<Res>, ms: seq<Msg>) {
    Dumps(prog) == bs && Sends(prog) == ms && GatesYield(prog, bs, ms)
  }

  ghost predicate GatesYield(prog: Program, bs: seq<Res>, ms: seq<Msg>) {
    match prog
    case Done => true
    case Then(i, k) => GatesYield(k, bs, ms) && (i.Gate? ==> Dumps(i.other) == bs && Sends(i.other) == ms)
  }

  ghost predicate NoGates(prog: Program) {
    match prog
    case Done => true
    case Then(i, k) => !i.Gate? && NoGates(k)
  }

  lemma {:induction false} NoGatesYield(prog: Program, bs: seq<Res>, ms: seq<Msg>)
    requires NoGates(prog)
    ensures GatesYield(prog, bs, ms)
  {
    if prog != Done { NoGatesYield(prog.k, bs, ms); }
  }

  /** Without gates: what it dumps and sends. */
  ghost predicate Plainly(prog: Program, bs: seq<Res>, ms: seq<Msg>) {
    NoGates(prog) && Dumps(prog) == bs && Sends(prog) == ms
  }

  lemma Plain1(i: Instr, k: Program, bs: seq<Res>, ms: seq<Msg>)
    requires Plainly(k, bs, ms) && !i.Gate?
    ensures Plainly(Then(i, k), (if i.Dump? then [i.b] else []) + bs, (if i.Send? then [i.msg] else []) + ms)
  {
  }

  lemma Plain0(i: Instr, k: Program, bs: seq<Res>, ms: seq<Msg>)
    requires Plainly(k, bs, ms) && !i.Gate? && !i.Dump? && !i.Send?
    ensures Plainly(Then(i, k), bs, ms)
  {
    assert [] + bs == bs && [] + ms == ms;
  }

  lemma PlainDump(b: Res, k: Program, bs: seq<Res>, ms: seq<Msg>)
    requires Plainly(k, bs, ms)
    ensures Plainly(Then(Acquire(Table), Locked(b, Dump(b), Then(Release(Table), k))), [b] + bs, ms)
  {
    Plain0(Release(Table), k, bs, ms);
    Plain0(Release(b), Then(Release(Table), k), bs, ms);
    Plain1(Dump(b), Then(Release(b), Then(Release(Table), k)), bs, ms);
    assert [] + ms == ms;
    var dump := Then(Dump(b), Then(Release(b), Then(Release(Table), k)));
    Plain0(Acquire(b), dump, [b] + bs, ms);
    Plain0(Acquire(Table), Then(Acquire(b), dump), [b] + bs, ms);
  }

  lemma CpuYields(g: nat, c: SnapChoice)
    ensures Plainly(SnapCpu(g, c, Done), [], if c.send then [Session(c.n)] else [])
  {
    var ms := if c.send then [Session(c.n)] else [];
    if c.send { Plain1(Send(g, Session(c.n)), Done, [], []); }
    assert [] + [Session(c.n)] == [Session(c.n)] && [Session(c.n)] + [] == [Session(c.n)];
    var send := SnapSend(g, c, Done);
    assert Plainly(send, [], ms);
    Plain0(Release(Buf), send, [], ms);
    Plain0(Local, Then(Release(Buf), send), [], ms);
    Plain0(Acquire(Buf), Then(Local, Then(Release(Buf), send)), [], ms);
  }

  lemma StackYields(g: nat, c: SnapChoice)
    ensures Plainly(SnapStack(g, c, Done), if c.stack then [if c.oncpu then OnCpuB else StackB] else [], if c.send then [Session(c.n)] else [])
  {
    CpuYields(g, c);
    var b := if c.oncpu then OnCpuB else StackB;
    PlainDump(b, SnapCpu(g, c, Done), [], if c.send then [Session(c.n)] else []);
    assert [b] + [] == [b];
  }

  lemma MemYields(g: nat, c: SnapChoice)
    ensures Plainly(DumpMem(g, c, Done), [MemB] + if c.stack then [if c.oncpu then OnCpuB else StackB] else [], if c.send then [Session(c.n)] else [])
  {
    StackYields(g, c);
    var bs, ms := if c.stack then [if c.oncpu then OnCpuB else StackB] else [], if c.send then [Session(c.n)] else [];
    Plain0(Release(Gil), SnapStack(g, c, Done), bs, ms);
    PlainDump(MemB, Then(Release(Gil), SnapStack(g, c, Done)), bs, ms);
  }

  /**
   A snapshot dumps the memory profile if there is one, then the profile of the stack sampler in use if there is one, and
   sends its session if it has anything to send, whether or not memory is being profiled at that moment.
   */
  lemma SnapshotYields(g: nat, c: SnapChoice)
    ensures Yields(Snapshot(g, c, Done),
                   (if c.mem then [MemB] else []) + (if c.stack then [if c.oncpu then OnCpuB else StackB] else []),
                   if c.send then [Session(c.n)] else [])
  {
    var bs, ms := if c.stack then [if c.oncpu then OnCpuB else StackB] else [], if c.send then [Session(c.n)] else [];
    if c.mem {
      MemYields(g, c);
      var dump := DumpMem(g, c, Done);
      Plain0(Release(MemB), dump, [MemB] + bs, ms);
      Plain0(Push(MemB), Then(Release(MemB), dump), [MemB] + bs, ms);
      Plain0(Acquire(MemB), Then(Push(MemB), Then(Release(MemB), dump)), [MemB] + bs, ms);
      var push := Locked(MemB, Push(MemB), dump);
      NoGatesYield(push, [MemB] + bs, ms);
      GateYields(dump, push, [MemB] + bs, ms);
    } else {
      StackYields(g, c);
      NoGatesYield(SnapStack(g, c, Done), bs, ms);
      assert [] + bs == bs;
    }
  }

  lemma GateYields(dump: Program, push: Program, bs: seq<Res>, ms: seq<Msg>)
    requires Plainly(dump, bs, ms) && Yields(push, bs, ms)
    ensures Yields(Then(Acquire(Gil), Then(Gate(dump), push)), bs, ms)
  {
    assert [] + bs == bs && [] + ms == ms;
    assert Yields(Then(Gate(dump), push), bs, ms);
  }

  lemma {:induction false} InternedAll(table: seq<string>, texts: seq<string>)
    ensures table <= InternAll(table, texts) && forall x | x in texts :: x in InternAll(table, texts)
    decreases |texts|
  {
    if texts != [] {
      InternedGrows(table, texts[0]);
      InternedAll(Strings.Interned(table, texts[0]), texts[1..]);
    }
  }

  /** The table a profile is emitted with has the names of its types, and every index handed out before means what it meant. */
  lemma {:induction false} EmittedTableIsComplete(s: Sys, t: Tid, c: Choice)
    requires Enabled(s, t) && s.threads[t].prog.i.Dump? && s.Window(s.threads[t].prog.i.b) != []
    ensures var w := Step(s, t, c);
      && |w.emitted| == |s.emitted| + 1
      && var e := w.emitted[|s.emitted|];
         s.table <= e.table && forall x | x in c.types :: x in e.table
  {
    DrainLeaves(s, t, c);
    InternedAll(s.table, c.types);
  }
}
