/**
 Signal sampling sessions: the `SIGPROF` guard, the `ACTIVE` flag, the timers, and the registry that feeds
 Python threads to a `CTimer` session. Any number of sessions may be started at the same time. The thread
 hooks and `attach` run under the GIL one after the other; detaching and dropping a session happens on its
 sampler thread, at any moment. A step is one critical section, or one system call where more than one happens
 under a lock.
 */
module SignalSession {
  import opened Options

  type Tid = nat

  datatype Mode = ITimer | CTimer

  /** What the process does with a `SIGPROF`. `Initial` is the default action nobody chose. */
  datatype Disposition = Initial | Ours | Ignored | Foreign(default: bool)

  /** Where a session is, from `start` to the end of its drop. */
  datatype Pc =
    | Absent
    | Install(mode: Mode)     // about to install the handler
    | Activate(mode: Mode)    // about to claim `ACTIVE`
    | Arm(mode: Mode)         // about to start the timer
    | NeedAttach              // a `CTimer` that the registry does not know yet
    | Running(mode: Mode)
    | Detaching
    | Deleting(mode: Mode)    // holds the lock of its timer and stops it
    | Deactivate
    | Unguard                 // about to ask whether the action is still our handler
    | Ignore                  // it was: about to ignore the signal
    | Ended
  {
    predicate Guarded() {
      !Absent? && !Install? && !Ended?
    }

    predicate HoldsActive() {
      Guarded() && !Activate? && !Unguard? && !Ignore?
    }

    predicate Starting() {
      Install? || Activate? || Arm? || NeedAttach?
    }

    predicate Releasing() {
      Deactivate? || Unguard? || Ignore?
    }

    /** A `Timer` exists. */
    predicate HasTimer() {
      NeedAttach? || Running? || Detaching? || Deleting?
    }

    predicate HasThreadTimers() {
      NeedAttach? || this == Running(CTimer) || Detaching? || this == Deleting(CTimer)
    }
  }

  /** What the thread that has the GIL is doing in a hook or in `attach`. */
  datatype GilPc =
    | Free
    | RegLock(previous: Option<Tid>, tid: Tid)            // the live map is updated, the slot not yet locked
    | RegRemove(n: nat, previous: Option<Tid>, tid: Tid)  // the slot is locked from here on
    | RegCreate(n: nat, tid: Tid)
    | UnregLock(tid: Tid)
    | UnregRemove(n: nat, tid: Tid)
    | AttachCaller(n: nat, caller: Tid)
    | AttachRest(n: nat, caller: Tid, todo: set<Tid>)
  {
    /** The slot of the current timer stays locked. */
    predicate SlotLocked() {
      RegRemove? || RegCreate? || UnregRemove? || AttachCaller? || AttachRest?
    }
  }

  datatype Sys = Sys(
    sessions: map<nat, Pc>,
    handled: bool,                  // `HANDLED_SIGNALS` contains the signal
    disposition: Disposition,
    active: bool,                   // `ACTIVE`
    process: bool,                  // the process-wide timer is armed
    timers: set<(nat, Tid)>,        // armed thread timers, by session
    slot: Option<nat>,              // the timer the hooks know, `TIMER`
    live: map<nat, Tid>,            // `LIVE`
    failed: set<Tid>,               // threads whose last arming in the current session failed
    gil: GilPc,
    pending: nat,                   // ticks on their way
    delivered: seq<Disposition>)    // what was in place when each tick arrived
  {
    function At(n: nat): Pc {
      if n in sessions then sessions[n] else Absent
    }

    predicate AnyTimer(n: nat) {
      exists t | t in timers :: t.0 == n
    }

    function Go(n: nat, pc: Pc): (r: Sys)
      ensures r.At(n) == pc && forall m: nat | m != n :: r.At(m) == At(m)
    {
      this.(sessions := sessions[n := pc])
    }
  }

  datatype Action =
    | Start(n: nat, mode: Mode)
    | Move(n: nat, ok: bool, tid: Tid)    // a session goes on; `ok` is how a system call turns out
    | Register(id: nat, tid: Tid)
    | Unregister(id: nat)
    | Attach(n: nat, id: nat, caller: Tid)
    | GilMove(ok: bool, tid: Tid)         // the thread with the GIL goes on
    | SetForeign(default: bool)           // other code in the process sets the action
    | Reinstall                           // other code puts a saved copy of our handler back
    | Tick
    | Deliver

  /** `SignalHandlerSession::start`, up to a running session or the release of what it had. */
  function StartStep(s: Sys, n: nat, ok: bool): Sys {
    match s.At(n)
    case Install(mode) =>
      if s.handled || !ok then s.Go(n, Ended)
      else s.Go(n, Activate(mode)).(handled := true, disposition := Ours)
    case Activate(mode) => if s.active || !ok then s.Go(n, Unguard) else s.Go(n, Arm(mode)).(active := true)
    case Arm(mode) =>
      if mode == CTimer then s.Go(n, NeedAttach)
      else if ok then s.Go(n, Running(ITimer)).(process := true)
      else s.Go(n, Deactivate)
    case NeedAttach =>  // refused when no hooks are installed
      if ok || s.gil.AttachCaller? || s.gil.AttachRest? then s else s.Go(n, Deleting(CTimer))
    case _ => s
  }

  /** Dropping a timer stops it; of a `CTimer`, one thread after the other, in any order. */
  function DeleteStep(s: Sys, n: nat, mode: Mode, tid: Tid): Sys {
    if mode == ITimer then s.Go(n, Deactivate).(process := false)
    else if (n, tid) in s.timers then s.(timers := s.timers - {(n, tid)})
    else if s.AnyTimer(n) then s
    else s.Go(n, Deactivate)
  }

  /** The end of a session: detach, and stop the timers. */
  function EndStep(s: Sys, n: nat, tid: Tid): Sys {
    match s.At(n)
    case Running(mode) => s.Go(n, if mode == CTimer then Detaching else Deleting(ITimer))
    case Detaching => if s.gil.SlotLocked() then s else s.Go(n, Deleting(CTimer)).(slot := None)
    case Deleting(mode) => DeleteStep(s, n, mode, tid)
    case _ => s
  }

  /** Then the flag and the handler. The action is queried and set by two system calls; other code may come in between. */
  function ReleaseStep(s: Sys, n: nat): Sys {
    match s.At(n)
    case Deactivate => s.Go(n, Unguard).(active := false)
    case Unguard => if s.disposition == Ours then s.Go(n, Ignore) else s.Go(n, Ended).(handled := false)
    case Ignore => s.Go(n, Ended).(handled := false, disposition := Ignored)
    case _ => s
  }

  function SessionStep(s: Sys, n: nat, ok: bool, tid: Tid): Sys {
    if s.At(n).Starting() then StartStep(s, n, ok)
    else if s.At(n).Releasing() then ReleaseStep(s, n)
    else EndStep(s, n, tid)
  }

  /** `thread_created` in session `n`: nothing if the thread has a timer, and a timer unless the kernel refuses. */
  function Create(s: Sys, n: nat, tid: Tid, ok: bool): (r: Sys)
    ensures r.sessions == s.sessions && r.disposition == s.disposition
  {
    if !s.At(n).HasTimer() then s
    else if ok || (n, tid) in s.timers then s.(timers := s.timers + {(n, tid)}, failed := s.failed - {tid})
    else s.(failed := s.failed + {tid})
  }

  function Remove(s: Sys, n: nat, tid: Tid): (r: Sys)
    ensures r.sessions == s.sessions && r.disposition == s.disposition
  {
    s.(timers := s.timers - {(n, tid)})
  }

  /** The next step under the GIL. It waits where it needs the lock of a timer that is being dropped. */
  function GilStep(s: Sys, ok: bool, tid: Tid): Sys {
    match s.gil
    case Free => s
    case RegLock(previous, t) =>
      if s.slot.None? then s.(gil := Free) else s.(gil := RegRemove(s.slot.value, previous, t))
    case RegRemove(n, previous, t) =>
      if s.At(n).Deleting? then s
      else (if previous.Some? && previous.value != t then Remove(s, n, previous.value) else s).(gil := RegCreate(n, t))
    case RegCreate(n, t) => if s.At(n).Deleting? then s else Create(s, n, t, ok).(gil := Free)
    case UnregLock(t) => if s.slot.None? then s.(gil := Free) else s.(gil := UnregRemove(s.slot.value, t))
    case UnregRemove(n, t) => if s.At(n).Deleting? then s else Remove(s, n, t).(gil := Free)
    case AttachCaller(n, caller) =>
      if s.At(n).Deleting? then s
      else if ok then Create(s, n, caller, true).(gil := AttachRest(n, caller, s.live.Values - {caller}))
      else s.Go(n, Deleting(CTimer)).(gil := Free)
    case AttachRest(n, caller, todo) =>
      if todo == {} then s.Go(n, Running(CTimer)).(slot := Some(n), gil := Free)
      else if tid in todo then Create(s, n, tid, ok).(gil := AttachRest(n, caller, todo - {tid}))
      else s
  }

  /** No other live thread has this OS thread id. */
  predicate FreeTid(live: map<nat, Tid>, id: nat, tid: Tid) {
    forall i | i in live && i != id :: live[i] != tid
  }

  function Do(s: Sys, a: Action): Sys {
    match a
    case Start(n, mode) => if s.At(n).Absent? then s.Go(n, Install(mode)) else s
    case Move(n, ok, tid) => SessionStep(s, n, ok, tid)
    case Register(id, tid) =>
      if s.gil.Free? && FreeTid(s.live, id, tid) then
        s.(live := s.live[id := tid], gil := RegLock(if id in s.live then Some(s.live[id]) else None, tid))
      else s
    case Unregister(id) =>
      if s.gil.Free? && id in s.live then s.(live := s.live - {id}, gil := UnregLock(s.live[id])) else s
    case Attach(n, id, caller) =>
      if s.gil.Free? && s.At(n).NeedAttach? && FreeTid(s.live, id, caller) then
        s.(live := s.live[id := caller], failed := {}, gil := AttachCaller(n, caller))
      else s
    case GilMove(ok, tid) => GilStep(s, ok, tid)
    case SetForeign(default) => s.(disposition := Foreign(default))
    case Reinstall => s.(disposition := Ours)
    case Tick => if s.process || s.timers != {} then s.(pending := s.pending + 1) else s
    case Deliver => if s.pending > 0 then s.(pending := s.pending - 1, delivered := s.delivered + [s.disposition]) else s
  }

  ghost function Run(actions: seq<Action>): Sys
    decreases |actions|
  {
    if actions == [] then Sys(map[], false, Initial, false, false, {}, None, map[], {}, Free, 0, [])
    else Do(Run(actions[..|actions| - 1]), actions[|actions| - 1])
  }

  // ---- The invariant ----

  /** What a session may claim of the process, each behind one flag. */
  datatype Claim = Guard | Active | Process

  predicate Has(c: Claim, pc: Pc) {
    match c
    case Guard => pc.Guarded()
    case Active => pc.HoldsActive()
    case Process => pc == Running(ITimer) || pc == Deleting(ITimer)
  }

  predicate FlagOf(c: Claim, s: Sys) {
    match c
    case Guard => s.handled
    case Active => s.active
    case Process => s.process
  }

  /** At most one session has the claim, and the flag says whether one does. */
  ghost predicate Claimed(s: Sys, c: Claim) {
    && (forall m: nat, n: nat | Has(c, s.At(m)) && Has(c, s.At(n)) :: m == n)
    && (FlagOf(c, s) <==> exists n: nat :: Has(c, s.At(n)))
  }

  ghost predicate Exclusive(s: Sys) {
    Claimed(s, Guard) && Claimed(s, Active) && Claimed(s, Process)
  }

  ghost predicate Armed(s: Sys) {
    forall t | t in s.timers :: s.At(t.0).HasThreadTimers()
  }

  ghost predicate Slot(s: Sys) {
    forall n: nat :: s.slot == Some(n) <==> HasSlot(s.At(n))
  }

  ghost predicate Actions(s: Sys) {
    && (s.handled ==> s.disposition == Ours || s.disposition.Foreign?)
    && (s.disposition == Initial ==> !s.handled && s.pending == 0)
    && (forall d | d in s.delivered :: d != Initial)
  }

  /** The thread timers of `n` are those of the live threads, but for `open` and where arming failed. */
  ghost predicate Agree(s: Sys, n: nat, open: set<Tid>) {
    forall t | t !in open :: (n, t) in s.timers <==> t in s.live.Values && t !in s.failed
  }

  ghost predicate Attached(s: Sys, n: nat) {
    s.slot == Some(n)
  }

  ghost predicate Registry(s: Sys) {
    && (forall i, j | i in s.live && j in s.live && s.live[i] == s.live[j] :: i == j)
    && match s.gil
       case Free => forall n: nat | Attached(s, n) :: Agree(s, n, {})
       case RegLock(previous, t) => RegOpen(s, previous, t) && forall n: nat | Attached(s, n) :: Agree(s, n, Opened(previous, t))
       case RegRemove(n, previous, t) => Attached(s, n) && RegOpen(s, previous, t) && Agree(s, n, Opened(previous, t))
       case RegCreate(n, t) => Attached(s, n) && t in s.live.Values && Agree(s, n, {t})
       case UnregLock(t) => t !in s.live.Values && forall n: nat | Attached(s, n) :: Agree(s, n, {t})
       case UnregRemove(n, t) => Attached(s, n) && t !in s.live.Values && Agree(s, n, {t})
       case AttachCaller(n, caller) =>
         s.At(n).NeedAttach? && caller in s.live.Values && s.failed == {} && forall t :: (n, t) !in s.timers
       case AttachRest(n, caller, todo) =>
         s.At(n).NeedAttach? && todo <= s.live.Values && (forall t | t in todo :: (n, t) !in s.timers) && Agree(s, n, todo)
  }

  /** A registered thread is live, and the id it replaces is not. */
  ghost predicate RegOpen(s: Sys, previous: Option<Tid>, t: Tid) {
    t in s.live.Values && (previous.Some? && previous.value != t ==> previous.value !in s.live.Values)
  }

  function Opened(previous: Option<Tid>, t: Tid): set<Tid> {
    if previous.Some? then {previous.value, t} else {t}
  }

  /** A session that nobody attached has no thread timers yet, unless `attach` is at work on it. */
  ghost predicate Unattached(s: Sys) {
    forall n: nat | s.At(n).NeedAttach? && (exists t :: (n, t) in s.timers) :: InAttach(s, n)
  }

  ghost predicate Inv(s: Sys) {
    Exclusive(s) && Armed(s) && Slot(s) && Actions(s) && Registry(s) && Unattached(s)
  }

  // ---- Steps of a session ----

  /** What a step of session `n` from `s` to `r` leaves alone: the other sessions, the registry and the ticks. */
  ghost predicate OnlySession(s: Sys, r: Sys, n: nat) {
    && (forall m: nat | m != n :: r.At(m) == s.At(m))
    && r.live == s.live && r.failed == s.failed && r.gil == s.gil && r.pending == s.pending && r.delivered == s.delivered
  }

  /** One session takes a free claim, gives its own back, or leaves the claim as it is. */
  ghost predicate Moves(s: Sys, r: Sys, n: nat, c: Claim) {
    || (Has(c, s.At(n)) == Has(c, r.At(n)) && FlagOf(c, s) == FlagOf(c, r))
    || (!FlagOf(c, s) && FlagOf(c, r) && Has(c, r.At(n)))
    || (Has(c, s.At(n)) && !Has(c, r.At(n)) && !FlagOf(c, r))
  }

  lemma {:induction false} ClaimMoves(s: Sys, r: Sys, n: nat, c: Claim)
    requires Claimed(s, c) && (forall m: nat | m != n :: r.At(m) == s.At(m)) && Moves(s, r, n, c)
    ensures Claimed(r, c)
  {
    if FlagOf(c, s) && FlagOf(c, r) {
      var m: nat :| Has(c, s.At(m));
      assert Has(c, r.At(m));
    }
    if FlagOf(c, r) && !FlagOf(c, s) {
      assert Has(c, r.At(n));
    }
    forall m: nat | Has(c, r.At(m))
      ensures FlagOf(c, r) && (Has(c, r.At(n)) ==> m == n)
    {
      if m != n { assert Has(c, s.At(m)); }
    }
  }

  lemma {:induction false} StartMoves(s: Sys, n: nat, ok: bool, c: Claim)
    requires s.process ==> Has(Process, s.At(n)) || !s.At(n).HoldsActive()
    ensures OnlySession(s, StartStep(s, n, ok), n) && (s.At(n).Starting() ==> Moves(s, StartStep(s, n, ok), n, c))
  {
    StartFrame(s, n, ok);
    if s.At(n).Starting() { StartClaims(s, n, ok, c); }
  }

  lemma {:induction false} StartFrame(s: Sys, n: nat, ok: bool)
    ensures OnlySession(s, StartStep(s, n, ok), n)
  {
  }

  lemma {:induction false} StartClaims(s: Sys, n: nat, ok: bool, c: Claim)
    requires s.At(n).Starting() && (s.process ==> Has(Process, s.At(n)) || !s.At(n).HoldsActive())
    ensures Moves(s, StartStep(s, n, ok), n, c)
  {
  }

  lemma {:induction false} DeleteMoves(s: Sys, n: nat, mode: Mode, tid: Tid, c: Claim)
    requires s.At(n) == Deleting(mode)
    ensures OnlySession(s, DeleteStep(s, n, mode, tid), n) && Moves(s, DeleteStep(s, n, mode, tid), n, c)
  {
  }

  lemma {:induction false} ReleaseMoves(s: Sys, n: nat, c: Claim)
    ensures OnlySession(s, ReleaseStep(s, n), n) && Moves(s, ReleaseStep(s, n), n, c)
  {
    ReleaseFrame(s, n);
    ReleaseClaims(s, n, c);
  }

  lemma {:induction false} ReleaseFrame(s: Sys, n: nat)
    ensures OnlySession(s, ReleaseStep(s, n), n)
  {
  }

  lemma {:induction false} ReleaseClaims(s: Sys, n: nat, c: Claim)
    ensures Moves(s, ReleaseStep(s, n), n, c)
  {
  }

  lemma {:induction false} EndMoves(s: Sys, n: nat, tid: Tid, c: Claim)
    requires !s.At(n).Starting() && !s.At(n).Releasing()
    ensures OnlySession(s, EndStep(s, n, tid), n) && Moves(s, EndStep(s, n, tid), n, c)
  {
    if s.At(n).Deleting? { DeleteMoves(s, n, s.At(n).mode, tid, c); }
  }

  lemma {:induction false} StepMoves(s: Sys, n: nat, ok: bool, tid: Tid, c: Claim)
    requires Exclusive(s)
    ensures OnlySession(s, SessionStep(s, n, ok, tid), n) && Moves(s, SessionStep(s, n, ok, tid), n, c)
  {
    if s.process {
      var m: nat :| Has(Process, s.At(m));
      assert Has(Active, s.At(m));
    }
    if s.At(n).Starting() {
      StartMoves(s, n, ok, c);
    } else if s.At(n).Releasing() {
      ReleaseMoves(s, n, c);
    } else {
      EndMoves(s, n, tid, c);
    }
  }

  lemma {:induction false} ExclusiveStep(s: Sys, n: nat, ok: bool, tid: Tid)
    requires Exclusive(s)
    ensures OnlySession(s, SessionStep(s, n, ok, tid), n) && Exclusive(SessionStep(s, n, ok, tid))
  {
    var r := SessionStep(s, n, ok, tid);
    StepMoves(s, n, ok, tid, Guard);
    StepMoves(s, n, ok, tid, Active);
    StepMoves(s, n, ok, tid, Process);
    ClaimMoves(s, r, n, Guard);
    ClaimMoves(s, r, n, Active);
    ClaimMoves(s, r, n, Process);
  }

  /** A guarded session is the only one. */
  lemma OnlyOne(s: Sys, m: nat, n: nat)
    requires Exclusive(s) && s.At(m).Guarded() && s.At(n).Guarded()
    ensures m == n && s.handled
  {
    assert Has(Guard, s.At(m)) && Has(Guard, s.At(n));
  }

  lemma {:induction false} ArmedStep(s: Sys, n: nat, ok: bool, tid: Tid)
    requires Inv(s)
    ensures Armed(SessionStep(s, n, ok, tid))
  {
    var r := SessionStep(s, n, ok, tid);
    StepMoves(s, n, ok, tid, Guard);
    forall t | t in r.timers
      ensures r.At(t.0).HasThreadTimers()
    {
      ArmedTimer(s, n, ok, tid, t.0, t.1);
    }
  }

  lemma {:induction false} ArmedTimer(s: Sys, n: nat, ok: bool, tid: Tid, m: nat, at: Tid)
    requires Inv(s) && (m, at) in SessionStep(s, n, ok, tid).timers
    ensures SessionStep(s, n, ok, tid).At(m).HasThreadTimers()
  {
    TimersShrink(s, n, ok, tid);
    if m == n { TimersHeld(s, n, ok, tid, at); } else { StepMoves(s, n, ok, tid, Guard); }
  }

  lemma TimersShrink(s: Sys, n: nat, ok: bool, tid: Tid)
    ensures SessionStep(s, n, ok, tid).timers <= s.timers
  {
    if s.At(n).Starting() {
      StartTimers(s, n, ok);
    } else if s.At(n).Releasing() {
      ReleaseTimers(s, n);
    } else {
      EndTimers(s, n, tid);
    }
  }

  lemma StartTimers(s: Sys, n: nat, ok: bool)
    ensures StartStep(s, n, ok).timers <= s.timers
  {
  }

  lemma ReleaseTimers(s: Sys, n: nat)
    ensures ReleaseStep(s, n).timers <= s.timers
  {
  }

  lemma EndTimers(s: Sys, n: nat, tid: Tid)
    ensures EndStep(s, n, tid).timers <= s.timers
  {
  }

  /** A session leaves the state in which it may have thread timers when it has none. */
  lemma {:induction false} TimersHeld(s: Sys, n: nat, ok: bool, tid: Tid, at: Tid)
    requires s.At(n).HasThreadTimers() && (n, at) in s.timers && (n, at) in SessionStep(s, n, ok, tid).timers
    ensures SessionStep(s, n, ok, tid).At(n).HasThreadTimers()
  {
    assert s.At(n).Deleting? ==> s.AnyTimer(n);
  }

  /** The slot, and who has it, change only when the session that has it detaches. */
  ghost predicate SlotMoved(s: Sys, r: Sys, n: nat) {
    && (r.slot == s.slot || (s.At(n).Detaching? && r.slot == None && !s.gil.SlotLocked()))
    && (HasSlot(r.At(n)) ==> HasSlot(s.At(n)) && r.slot == s.slot)
    && (HasSlot(s.At(n)) ==> HasSlot(r.At(n)) || r.slot == None)
  }

  lemma {:induction false} StartSlot(s: Sys, n: nat, ok: bool)
    requires s.At(n).Starting()
    ensures SlotMoved(s, StartStep(s, n, ok), n)
  {
  }

  lemma {:induction false} EndSlot(s: Sys, n: nat, tid: Tid)
    ensures SlotMoved(s, EndStep(s, n, tid), n)
  {
  }

  lemma {:induction false} SlotMoves(s: Sys, n: nat, ok: bool, tid: Tid)
    ensures SlotMoved(s, SessionStep(s, n, ok, tid), n)
  {
    if s.At(n).Starting() {
      StartSlot(s, n, ok);
    } else if !s.At(n).Releasing() {
      EndSlot(s, n, tid);
    }
  }

  predicate HasSlot(pc: Pc) {
    pc == Running(CTimer) || pc.Detaching?
  }

  lemma {:induction false} SlotStep(s: Sys, n: nat, ok: bool, tid: Tid)
    requires Inv(s)
    ensures Slot(SessionStep(s, n, ok, tid))
  {
    var r := SessionStep(s, n, ok, tid);
    StepMoves(s, n, ok, tid, Guard);
    SlotMoves(s, n, ok, tid);
    forall m: nat
      ensures r.slot == Some(m) <==> HasSlot(r.At(m))
    {
      assert s.slot == Some(m) <==> HasSlot(s.At(m));
      assert s.slot == Some(n) <==> HasSlot(s.At(n));
      if m != n && s.At(n).Detaching? && s.slot == Some(m) { OnlyOne(s, m, n); }
    }
  }

  lemma {:induction false} StartActions(s: Sys, n: nat, ok: bool)
    requires Actions(s)
    ensures Actions(StartStep(s, n, ok))
  {
  }

  lemma {:induction false} EndActions(s: Sys, n: nat, tid: Tid)
    requires Actions(s)
    ensures Actions(EndStep(s, n, tid))
  {
  }

  lemma {:induction false} ReleaseActions(s: Sys, n: nat)
    requires Actions(s)
    ensures Actions(ReleaseStep(s, n))
  {
  }

  lemma {:induction false} ActionsStep(s: Sys, n: nat, ok: bool, tid: Tid)
    requires Actions(s)
    ensures Actions(SessionStep(s, n, ok, tid))
  {
    StartActions(s, n, ok);
    EndActions(s, n, tid);
    ReleaseActions(s, n);
  }

  /** The session `attach` is working on. */
  ghost predicate InAttach(s: Sys, n: nat) {
    (s.gil.AttachCaller? || s.gil.AttachRest?) && s.gil.n == n
  }

  lemma {:induction false} RegistryFrame(s: Sys, r: Sys)
    requires Registry(s) && r.live == s.live && r.failed == s.failed && r.gil == s.gil && r.timers == s.timers
    requires r.slot == s.slot || (r.slot == None && !s.gil.SlotLocked())
    requires forall m: nat | InAttach(s, m) :: r.At(m).NeedAttach?
    ensures Registry(r)
  {
    match s.gil
    case Free =>
      forall n: nat | Attached(r, n) ensures Agree(r, n, {}) { assert Attached(s, n); }
    case RegLock(previous, t) =>
      forall n: nat | Attached(r, n) ensures Agree(r, n, Opened(previous, t)) { assert Attached(s, n); }
    case UnregLock(t) =>
      forall n: nat | Attached(r, n) ensures Agree(r, n, {t}) { assert Attached(s, n); }
    case AttachCaller(n, caller) => assert InAttach(s, n);
    case AttachRest(n, caller, todo) => assert InAttach(s, n);
    case _ =>
  }

  /** While a `CTimer` is being deleted no hook and no `attach` uses it, and no timer is current. */
  lemma {:induction false} NothingUsesIt(s: Sys, n: nat)
    requires Inv(s) && s.At(n).Deleting?
    ensures s.slot == None && !s.gil.SlotLocked()
  {
    if s.slot.Some? { OnlyOne(s, s.slot.value, n); }
    match s.gil
    case AttachCaller(m, _) => OnlyOne(s, m, n);
    case AttachRest(m, _, _) => OnlyOne(s, m, n);
    case _ =>
  }

  lemma {:induction false} RegistryStep(s: Sys, n: nat, ok: bool, tid: Tid)
    requires Inv(s)
    ensures Registry(SessionStep(s, n, ok, tid)) && Unattached(SessionStep(s, n, ok, tid))
  {
    var r := SessionStep(s, n, ok, tid);
    StepMoves(s, n, ok, tid, Guard);
    if s.At(n).Deleting? {
      NothingUsesIt(s, n);
    } else {
      TimersStay(s, n, ok, tid);
      RegistryFrame(s, r);
    }
    StaysUnattached(s, n, ok, tid);
  }

  lemma {:induction false} StaysUnattached(s: Sys, n: nat, ok: bool, tid: Tid)
    requires Inv(s)
    ensures Unattached(SessionStep(s, n, ok, tid))
  {
    var r := SessionStep(s, n, ok, tid);
    StepMoves(s, n, ok, tid, Guard);
    FewerTimers(s, n, ok, tid);
    forall m: nat | r.At(m).NeedAttach? && (exists t :: (m, t) in r.timers)
      ensures InAttach(r, m)
    {
      var t :| (m, t) in r.timers;
      assert (m, t) in s.timers;
      assert s.At(m).HasThreadTimers();
    }
  }

  lemma {:induction false} TimersStay(s: Sys, n: nat, ok: bool, tid: Tid)
    requires Inv(s) && !s.At(n).Deleting?
    ensures var r := SessionStep(s, n, ok, tid);
      && r.timers == s.timers && (r.slot == s.slot || (r.slot == None && !s.gil.SlotLocked()))
      && forall m: nat | InAttach(s, m) :: r.At(m).NeedAttach?
  {
    StepMoves(s, n, ok, tid, Guard);
  }

  lemma {:induction false} SessionStepKeeps(s: Sys, n: nat, ok: bool, tid: Tid)
    requires Inv(s)
    ensures Inv(SessionStep(s, n, ok, tid))
  {
    ExclusiveStep(s, n, ok, tid);
    ArmedStep(s, n, ok, tid);
    SlotStep(s, n, ok, tid);
    ActionsStep(s, n, ok, tid);
    RegistryStep(s, n, ok, tid);
  }

  // ---- Steps under the GIL ----

  /** Only the registry, the thread timers and the GIL changed, and new timers belong to session `n`. */
  ghost predicate OnlyTimers(s: Sys, r: Sys, n: nat) {
    && r == s.(live := r.live, timers := r.timers, failed := r.failed, gil := r.gil)
    && (forall t | t in r.timers :: t in s.timers || t.0 == n)
  }

  lemma {:induction false} OnlyTimersKeeps(s: Sys, r: Sys, n: nat)
    requires Inv(s) && OnlyTimers(s, r, n) && s.At(n).HasThreadTimers() && Registry(r)
    requires (InAttach(s, n) ==> InAttach(r, n)) && (s.At(n).NeedAttach? ==> InAttach(r, n))
    ensures Inv(r)
  {
    assert forall m: nat :: r.At(m) == s.At(m);
    forall c: Claim
      ensures Claimed(s, c) ==> Claimed(r, c)
    {
      if Claimed(s, c) { ClaimMoves(s, r, n, c); }
    }
    forall m: nat | r.At(m).NeedAttach? && (exists t :: (m, t) in r.timers)
      ensures InAttach(r, m)
    {
      if s.At(n).NeedAttach? { OnlyOne(s, m, n); }
      else { OnlyOne(s, m, n); }
    }
  }

  /** Nothing but the live map and the GIL changed, and `attach` was not at work. */
  lemma {:induction false} OnlyGilKeeps(s: Sys, r: Sys)
    requires Inv(s) && r == s.(live := r.live, failed := r.failed, gil := r.gil) && Registry(r)
    requires forall n: nat | InAttach(s, n) :: InAttach(r, n)
    ensures Inv(r)
  {
    assert forall m: nat :: r.At(m) == s.At(m);
    forall c: Claim
      ensures Claimed(s, c) ==> Claimed(r, c)
    {
      if Claimed(s, c) { ClaimMoves(s, r, 0, c); }
    }
  }

  /** The timer in the slot is a running one. */
  lemma SlotHasTimers(s: Sys, n: nat)
    requires Inv(s) && Attached(s, n)
    ensures s.At(n).HasThreadTimers() && s.At(n).HasTimer() && !s.At(n).NeedAttach? && !s.At(n).Deleting?
  {
  }

  lemma {:induction false} RegLockKeeps(s: Sys, previous: Option<Tid>, t: Tid)
    requires Inv(s) && s.gil == RegLock(previous, t)
    ensures Inv(GilStep(s, true, 0)) && forall ok, tid :: GilStep(s, ok, tid) == GilStep(s, true, 0)
  {
    if s.slot.Some? { assert Attached(s, s.slot.value); }
    OnlyGilKeeps(s, GilStep(s, true, 0));
  }

  lemma {:induction false} RegRemoveKeeps(s: Sys, n: nat, previous: Option<Tid>, t: Tid)
    requires Inv(s) && s.gil == RegRemove(n, previous, t)
    ensures Inv(GilStep(s, true, 0)) && forall ok, tid :: GilStep(s, ok, tid) == GilStep(s, true, 0)
  {
    var r := GilStep(s, true, 0);
    SlotHasTimers(s, n);
    assert Agree(s, n, Opened(previous, t));
    forall x | x != t
      ensures (n, x) in r.timers <==> x in r.live.Values && x !in r.failed
    {
      if previous.Some? && previous.value != t && x == previous.value {
      } else {
        assert x !in Opened(previous, t);
      }
    }
    OnlyTimersKeeps(s, r, n);
  }

  lemma {:induction false} RegCreateKeeps(s: Sys, n: nat, t: Tid, ok: bool)
    requires Inv(s) && s.gil == RegCreate(n, t)
    ensures Inv(Create(s, n, t, ok).(gil := Free))
  {
    var r := Create(s, n, t, ok).(gil := Free);
    SlotHasTimers(s, n);
    CreatesOne(s, n, t, ok);
    CreateAgrees(s, n, t, ok);
    forall m: nat | Attached(r, m)
      ensures Agree(r, m, {})
    {
      assert m == n;
    }
    OnlyTimersKeeps(s, r, n);
  }

  lemma {:induction false} CreateAgrees(s: Sys, n: nat, t: Tid, ok: bool)
    requires s.At(n).HasTimer() && t in s.live.Values && Agree(s, n, {t})
    ensures Agree(Create(s, n, t, ok).(gil := Free), n, {}) && Create(s, n, t, ok).slot == s.slot
  {
  }

  lemma {:induction false} UnregKeeps(s: Sys, t: Tid)
    requires Inv(s) && s.gil == UnregLock(t)
    ensures Inv(GilStep(s, true, 0)) && forall ok, tid :: GilStep(s, ok, tid) == GilStep(s, true, 0)
  {
    if s.slot.Some? { assert Attached(s, s.slot.value); }
    OnlyGilKeeps(s, GilStep(s, true, 0));
  }

  lemma {:induction false} UnregRemoveKeeps(s: Sys, n: nat, t: Tid)
    requires Inv(s) && s.gil == UnregRemove(n, t)
    ensures Inv(Remove(s, n, t).(gil := Free))
  {
    var r := Remove(s, n, t).(gil := Free);
    SlotHasTimers(s, n);
    assert Agree(s, n, {t});
    forall m: nat | Attached(r, m)
      ensures Agree(r, m, {})
    {
      assert m == n;
    }
    OnlyTimersKeeps(s, r, n);
  }

  lemma {:induction false} AttachCallerKeeps(s: Sys, n: nat, caller: Tid)
    requires Inv(s) && s.gil == AttachCaller(n, caller)
    ensures Inv(Create(s, n, caller, true).(gil := AttachRest(n, caller, s.live.Values - {caller})))
  {
    OnlyTimersKeeps(s, Create(s, n, caller, true).(gil := AttachRest(n, caller, s.live.Values - {caller})), n);
  }

  lemma {:induction false} AttachRestKeeps(s: Sys, n: nat, caller: Tid, todo: set<Tid>, tid: Tid, ok: bool)
    requires Inv(s) && s.gil == AttachRest(n, caller, todo) && tid in todo
    ensures Inv(Create(s, n, tid, ok).(gil := AttachRest(n, caller, todo - {tid})))
  {
    assert Agree(s, n, todo);
    OnlyTimersKeeps(s, Create(s, n, tid, ok).(gil := AttachRest(n, caller, todo - {tid})), n);
  }

  /** The session that is being attached goes on, to run or to be dropped, and `attach` is over. */
  lemma {:induction false} AttachEnds(s: Sys, n: nat, pc: Pc, slot: Option<nat>)
    requires Inv(s) && InAttach(s, n) && s.At(n).NeedAttach?
    requires (pc == Deleting(CTimer) && slot == s.slot) || (pc == Running(CTimer) && slot == Some(n) && Agree(s, n, {}))
    ensures Inv(s.Go(n, pc).(slot := slot, gil := Free))
  {
    var r := s.Go(n, pc).(slot := slot, gil := Free);
    if s.slot.Some? { OnlyOne(s, s.slot.value, n); }
    ClaimMoves(s, r, n, Guard);
    ClaimMoves(s, r, n, Active);
    ClaimMoves(s, r, n, Process);
    forall m: nat | r.At(m).Guarded()
      ensures m == n
    {
      assert Has(Guard, r.At(n)) && Has(Guard, r.At(m));
    }
    forall m: nat | Attached(r, m)
      ensures Agree(r, m, {})
    {
      assert m == n;
    }
  }

  lemma {:induction false} GilStepKeeps(s: Sys, ok: bool, tid: Tid)
    requires Inv(s)
    ensures Inv(GilStep(s, ok, tid))
  {
    match s.gil
    case Free =>
    case RegLock(previous, t) => RegLockKeeps(s, previous, t);
    case RegRemove(n, previous, t) => RegRemoveKeeps(s, n, previous, t);
    case RegCreate(n, t) => RegCreateKeeps(s, n, t, ok);
    case UnregLock(t) => UnregKeeps(s, t);
    case UnregRemove(n, t) => UnregRemoveKeeps(s, n, t);
    case AttachCaller(n, caller) =>
      if ok { AttachCallerKeeps(s, n, caller); } else { AttachEnds(s, n, Deleting(CTimer), s.slot); }
    case AttachRest(n, caller, todo) =>
      if todo == {} {
        AttachEnds(s, n, Running(CTimer), Some(n));
      } else if tid in todo {
        AttachRestKeeps(s, n, caller, todo, tid, ok);
      }
  }

  // ---- Calls into the registry, and every run ----

  lemma {:induction false} RegisterKeeps(s: Sys, id: nat, tid: Tid)
    requires Inv(s) && s.gil.Free? && FreeTid(s.live, id, tid)
    ensures Inv(Do(s, Register(id, tid)))
  {
    var r := Do(s, Register(id, tid));
    var previous := r.gil.previous;
    assert r.live[id] == tid;
    forall x | x !in Opened(previous, tid)
      ensures x in r.live.Values <==> x in s.live.Values
    {
      if x in s.live.Values {
        var i :| i in s.live && s.live[i] == x;
        assert r.live[i] == x;
      }
    }
    forall n: nat | Attached(r, n)
      ensures Agree(r, n, Opened(previous, tid))
    {
      assert Attached(s, n) && Agree(s, n, {});
    }
    OnlyGilKeeps(s, r);
  }

  lemma {:induction false} UnregisterKeeps(s: Sys, id: nat)
    requires Inv(s) && s.gil.Free? && id in s.live
    ensures Inv(Do(s, Unregister(id)))
  {
    var r := Do(s, Unregister(id));
    var t := s.live[id];
    forall x | x != t
      ensures x in r.live.Values <==> x in s.live.Values
    {
      if x in s.live.Values {
        var i :| i in s.live && s.live[i] == x;
        assert r.live[i] == x;
      }
    }
    forall n: nat | Attached(r, n)
      ensures Agree(r, n, {t})
    {
      assert Attached(s, n) && Agree(s, n, {});
    }
    OnlyGilKeeps(s, r);
  }

  lemma {:induction false} AttachKeeps(s: Sys, n: nat, id: nat, caller: Tid)
    requires Inv(s) && s.gil.Free? && s.At(n).NeedAttach? && FreeTid(s.live, id, caller)
    ensures Inv(Do(s, Attach(n, id, caller)))
  {
    var r := Do(s, Attach(n, id, caller));
    assert r.live[id] == caller;
    assert !InAttach(s, n);
    OnlyGilKeeps(s, r);
  }

  lemma {:induction false} StartKeeps(s: Sys, n: nat, mode: Mode)
    requires Inv(s) && s.At(n).Absent?
    ensures Inv(s.Go(n, Install(mode)))
  {
    var r := s.Go(n, Install(mode));
    ClaimMoves(s, r, n, Guard);
    ClaimMoves(s, r, n, Active);
    ClaimMoves(s, r, n, Process);
    RegistryFrame(s, r);
  }

  /** Ticks and foreign handlers touch neither sessions nor the registry. */
  lemma {:induction false} OutsideKeeps(s: Sys, r: Sys)
    requires Inv(s) && r == s.(disposition := r.disposition, pending := r.pending, delivered := r.delivered) && Actions(r)
    ensures Inv(r)
  {
    assert forall m: nat :: r.At(m) == s.At(m);
    ClaimMoves(s, r, 0, Guard);
    ClaimMoves(s, r, 0, Active);
    ClaimMoves(s, r, 0, Process);
    RegistryFrame(s, r);
    forall m: nat | r.At(m).NeedAttach? && (exists t :: (m, t) in r.timers)
      ensures InAttach(r, m)
    {
      assert InAttach(s, m);
    }
  }

  /** An armed timer means that the handler's guard is held. */
  lemma ArmedIsGuarded(s: Sys)
    requires Inv(s) && (s.process || s.timers != {})
    ensures s.handled && s.active
  {
    if s.process {
      var n: nat :| Has(Process, s.At(n));
      assert Has(Guard, s.At(n)) && Has(Active, s.At(n));
    } else {
      var t :| t in s.timers;
      assert Has(Guard, s.At(t.0)) && Has(Active, s.At(t.0));
    }
  }

  lemma {:induction false} DoKeeps(s: Sys, a: Action)
    requires Inv(s)
    ensures Inv(Do(s, a))
  {
    match a
    case Start(n, mode) => if s.At(n).Absent? { StartKeeps(s, n, mode); }
    case Move(n, ok, tid) => SessionStepKeeps(s, n, ok, tid);
    case Register(id, tid) => if s.gil.Free? && FreeTid(s.live, id, tid) { RegisterKeeps(s, id, tid); }
    case Unregister(id) => if s.gil.Free? && id in s.live { UnregisterKeeps(s, id); }
    case Attach(n, id, caller) =>
      if s.gil.Free? && s.At(n).NeedAttach? && FreeTid(s.live, id, caller) { AttachKeeps(s, n, id, caller); }
    case GilMove(ok, tid) => GilStepKeeps(s, ok, tid);
    case SetForeign(default) => OutsideKeeps(s, Do(s, a));
    case Reinstall => OutsideKeeps(s, Do(s, a));
    case Tick =>
      if s.process || s.timers != {} { ArmedIsGuarded(s); }
      OutsideKeeps(s, Do(s, a));
    case Deliver => OutsideKeeps(s, Do(s, a));
  }

  lemma {:induction false} RunKeepsInv(actions: seq<Action>)
    ensures Inv(Run(actions))
    decreases |actions|
  {
    if actions == [] {
    } else {
      RunKeepsInv(actions[..|actions| - 1]);
      DoKeeps(Run(actions[..|actions| - 1]), actions[|actions| - 1]);
    }
  }

  // ---- What follows for every run ----

  lemma ProcessIsAlone(s: Sys)
    requires Inv(s) && s.process
    ensures s.timers == {}
  {
    var n: nat :| Has(Process, s.At(n));
    if t :| t in s.timers {
      OnlyOne(s, t.0, n);
      assert false;
    }
  }

  /** Whatever is claimed or current belongs to a session that has the guard. */
  lemma ClaimsAreGuarded(s: Sys)
    requires Inv(s)
    ensures s.active || s.process || s.timers != {} || s.slot.Some? ==> s.handled
  {
    if s.active {
      var n: nat :| Has(Active, s.At(n));
      assert Has(Guard, s.At(n));
    }
    if s.process || s.timers != {} { ArmedIsGuarded(s); }
    if s.slot.Some? { assert Has(Guard, s.At(s.slot.value)); }
  }

  /**
   An armed timer means that `ACTIVE` and the guard of `SIGPROF` are held, by the one session that has a
   `Timer`; every thread timer is that session's, and it does not mix with the process-wide one.
   */
  lemma {:induction false} ArmedMeansHeld(actions: seq<Action>)
    ensures var s := Run(actions);
      && (s.process || s.timers != {} ==> s.active && s.handled)
      && (forall m: nat, n: nat | s.At(m).HasTimer() && s.At(n).HasTimer() :: m == n)
      && (forall t | t in s.timers :: s.At(t.0).HasThreadTimers())
      && (s.process ==> s.timers == {})
  {
    RunKeepsInv(actions);
    var s := Run(actions);
    if s.process || s.timers != {} { ArmedIsGuarded(s); }
    forall m: nat, n: nat | s.At(m).HasTimer() && s.At(n).HasTimer()
      ensures m == n
    {
      OnlyOne(s, m, n);
    }
    if s.process { ProcessIsAlone(s); }
  }

  /**
   Sessions that ended, and starts that failed at any point, leave nothing behind: when no session is under way
   neither flag is set, no timer is armed and no timer is current. A start is refused for the guard only while
   another session is under way, and once it has the guard it is never refused for `ACTIVE`.
   */
  lemma {:induction false} NothingIsLeftBehind(actions: seq<Action>, n: nat)
    ensures var s := Run(actions);
      && ((forall m: nat :: !s.At(m).Guarded()) ==> !s.handled && !s.active && !s.process && s.timers == {} && s.slot == None)
      && (s.handled && s.At(n).Install? ==> exists m: nat :: m != n && s.At(m).Guarded())
      && (s.At(n).Activate? ==> !s.active)
  {
    RunKeepsInv(actions);
    var s := Run(actions);
    ClaimsAreGuarded(s);
    assert Claimed(s, Guard);
    if s.handled && s.At(n).Install? {
      var m: nat :| Has(Guard, s.At(m));
      assert m != n && s.At(m).Guarded();
    }
    if s.At(n).Activate? && s.active {
      var m: nat :| Has(Active, s.At(m));
      OnlyOne(s, m, n);
    }
  }

  /**
   No tick arrives under the default action unless other code chose it; while a timer is armed, the action is
   our handler or one that other code installed.
   */
  lemma {:induction false} TicksAreHandled(actions: seq<Action>)
    ensures var s := Run(actions);
      && (forall d | d in s.delivered :: d != Initial)
      && (s.pending > 0 ==> s.disposition != Initial)
      && (s.process || s.timers != {} ==> s.disposition == Ours || s.disposition.Foreign?)
  {
    RunKeepsInv(actions);
    var s := Run(actions);
    if s.process || s.timers != {} { ArmedIsGuarded(s); }
  }

  /** Whether other code set an action of its own, and did not put ours back after that. */
  predicate SetsForeign(actions: seq<Action>)
    decreases |actions|
  {
    actions != [] &&
    var last := actions[|actions| - 1];
    last.SetForeign? || (!last.Reinstall? && SetsForeign(actions[..|actions| - 1]))
  }

  lemma RunOn(actions: seq<Action>, a: Action)
    ensures Run(actions + [a]) == Do(Run(actions), a)
  {
    assert (actions + [a])[..|actions|] == actions;
  }

  /** While a session stands between query and set, only other code changes the action. */
  lemma {:induction false} OnlyForeignSets(s: Sys, n: nat, a: Action)
    requires Inv(s) && s.At(n).Ignore? && !(a.Move? && a.n == n)
    ensures var r := Do(s, a); r.At(n).Ignore? && r.disposition == if a.SetForeign? then Foreign(a.default) else if a.Reinstall? then Ours else s.disposition
  {
    match a
    case Move(m, ok, tid) => NoOtherSets(s, n, m, ok, tid);
    case GilMove(ok, tid) => AttachNeeds(s); HooksSetNothing(s, n, ok, tid);
    case _ =>
  }

  lemma AttachNeeds(s: Sys)
    requires Registry(s)
    ensures s.gil.AttachCaller? || s.gil.AttachRest? ==> s.At(s.gil.n).NeedAttach?
  {
  }

  lemma {:induction false} HooksSetNothing(s: Sys, n: nat, ok: bool, tid: Tid)
    requires s.At(n).Ignore? && (s.gil.AttachCaller? || s.gil.AttachRest? ==> s.At(s.gil.n).NeedAttach?)
    ensures GilStep(s, ok, tid).disposition == s.disposition && GilStep(s, ok, tid).At(n) == s.At(n)
  {
    match s.gil
    case AttachCaller(m, caller) => CallerSetsNothing(s, n, m, caller, ok, tid);
    case AttachRest(m, caller, todo) => RestSetsNothing(s, n, m, caller, todo, ok, tid);
    case _ => RegistrySetsNothing(s, ok, tid);
  }

  lemma {:induction false} CallerSetsNothing(s: Sys, n: nat, m: nat, caller: Tid, ok: bool, tid: Tid)
    requires s.gil == AttachCaller(m, caller) && m != n
    ensures GilStep(s, ok, tid).disposition == s.disposition && GilStep(s, ok, tid).At(n) == s.At(n)
  {
  }

  lemma {:induction false} RestSetsNothing(s: Sys, n: nat, m: nat, caller: Tid, todo: set<Tid>, ok: bool, tid: Tid)
    requires s.gil == AttachRest(m, caller, todo) && m != n
    ensures GilStep(s, ok, tid).disposition == s.disposition && GilStep(s, ok, tid).At(n) == s.At(n)
  {
  }

  lemma {:induction false} RegistrySetsNothing(s: Sys, ok: bool, tid: Tid)
    requires !s.gil.AttachCaller? && !s.gil.AttachRest?
    ensures GilStep(s, ok, tid).disposition == s.disposition && GilStep(s, ok, tid).sessions == s.sessions
  {
  }

  lemma {:induction false} NoOtherSets(s: Sys, n: nat, m: nat, ok: bool, tid: Tid)
    requires Inv(s) && s.At(n).Ignore? && m != n
    ensures SessionStep(s, m, ok, tid).disposition == s.disposition && SessionStep(s, m, ok, tid).At(n).Ignore?
  {
    assert Has(Guard, s.At(n));
    if s.At(m).Guarded() { OnlyOne(s, m, n); }
  }

  lemma {:induction false} BetweenQueryAndSet(before: seq<Action>, between: seq<Action>, n: nat)
    requires Run(before).At(n).Ignore? && Run(before).disposition == Ours
    requires forall a | a in between :: !(a.Move? && a.n == n)
    ensures var s := Run(before + between);
      && s.At(n).Ignore? && (s.disposition == Ours || s.disposition.Foreign?) && (s.disposition.Foreign? <==> SetsForeign(between))
    decreases |between|
  {
    if between == [] {
      assert before + between == before;
    } else {
      var front, last := between[..|between| - 1], between[|between| - 1];
      assert between == front + [last] && before + between == before + front + [last];
      BetweenQueryAndSet(before, front, n);
      RunKeepsInv(before + front);
      RunOn(before + front, last);
      OnlyForeignSets(Run(before + front), n, last);
    }
  }

  /**
   A session that ends leaves another's handler in place if the query already finds it. If it finds its own, the
   signal is ignored in the end, and a handler of other code is lost to that if and only if other code set one
   between the query and the set, and did not put ours back.
   */
  lemma {:induction false} ForeignHandlerStays(before: seq<Action>, between: seq<Action>, n: nat, ok: bool, tid: Tid)
    requires Run(before).At(n).Unguard? && forall a | a in between :: !(a.Move? && a.n == n)
    ensures var s := Run(before); var query := Move(n, ok, tid); var r := Run(before + [query]);
      && r.disposition == s.disposition
      && if s.disposition != Ours then r.At(n).Ended?
         else
           var t := Run(before + [query] + between);
           && Do(t, Move(n, ok, tid)).At(n).Ended? && Do(t, Move(n, ok, tid)).disposition == Ignored
           && (t.disposition.Foreign? <==> SetsForeign(between))
  {
    RunOn(before, Move(n, ok, tid));
    if Run(before).disposition == Ours { BetweenQueryAndSet(before + [Move(n, ok, tid)], between, n); }
  }

  /** A session gets its handler, and then not its flag. */
  lemma {:induction false} FailedStart() returns (actions: seq<Action>)
    ensures Run(actions).At(0) == Unguard && Run(actions).disposition == Ours
  {
    var a: seq<Action> := [] + [Start(0, ITimer)];
    RunOn([], Start(0, ITimer));
    Installs(a);
    a := a + [Move(0, true, 0)];
    RunOn(a, Move(0, false, 0));
    actions := a + [Move(0, false, 0)];
  }

  lemma {:induction false} Installs(actions: seq<Action>)
    requires Run(actions).At(0) == Install(ITimer) && !Run(actions).handled
    ensures var s := Run(actions + [Move(0, true, 0)]); s.At(0) == Activate(ITimer) && s.disposition == Ours
  {
    RunOn(actions, Move(0, true, 0));
  }

  /** And so a handler that other code installed can be lost. */
  lemma {:induction false} ForeignHandlerIsLost() returns (actions: seq<Action>)
    ensures Run(actions).disposition == Foreign(false) && Run(actions).At(0).Ignore?
    ensures Do(Run(actions), Move(0, true, 0)).disposition == Ignored
  {
    var a := FailedStart();
    RunOn(a, Move(0, true, 0));
    var query := a + [Move(0, true, 0)];
    RunOn(query, SetForeign(false));
    actions := query + [SetForeign(false)];
  }

  /**
   The registry agrees with the timers: between hook calls, while a `CTimer` session is attached, exactly the
   live threads whose last arming did not fail have a timer, whatever the sampler thread is about to do.
   */
  lemma {:induction false} ArmedAreTheLive(actions: seq<Action>, n: nat)
    requires Run(actions).gil.Free? && Run(actions).slot == Some(n)
    ensures var s := Run(actions);
      (set t | t in s.timers :: t.1) == s.live.Values - s.failed && forall t | t in s.timers :: t.0 == n
  {
    RunKeepsInv(actions);
    var s := Run(actions);
    assert Attached(s, n) && Agree(s, n, {});
    forall t | t in s.timers
      ensures t.0 == n && t.1 in s.live.Values - s.failed
    {
      OnlyOne(s, t.0, n);
    }
    forall x | x in s.live.Values - s.failed
      ensures x in set t | t in s.timers :: t.1
    {
      assert (n, x) in s.timers;
    }
  }

  /** Who can arm a thread: a hook that holds the slot, or `attach`. */
  lemma {:induction false} NewTimers(s: Sys, a: Action)
    ensures forall t | t in Do(s, a).timers && t !in s.timers :: a.GilMove? && s.gil.SlotLocked() && t.0 == s.gil.n
  {
    if a.Move? {
      FewerTimers(s, a.n, a.ok, a.tid);
    } else if a.GilMove? {
      GilTimers(s, a.ok, a.tid);
    }
  }

  lemma {:induction false} GilTimers(s: Sys, ok: bool, tid: Tid)
    ensures forall t | t in GilStep(s, ok, tid).timers && t !in s.timers :: s.gil.SlotLocked() && t.0 == s.gil.n
  {
    match s.gil
    case RegCreate(n, t) => CreatesOne(s, n, t, ok);
    case AttachCaller(n, caller) => CreatesOne(s, n, caller, true);
    case AttachRest(n, _, _) => CreatesOne(s, n, tid, ok);
    case RegRemove(n, previous, t) => if previous.Some? { assert Remove(s, n, previous.value).timers <= s.timers; }
    case UnregRemove(n, t) => assert Remove(s, n, t).timers <= s.timers;
    case _ =>
  }

  lemma CreatesOne(s: Sys, n: nat, tid: Tid, ok: bool)
    ensures forall t | t in Create(s, n, tid, ok).timers && t !in s.timers :: t == (n, tid)
  {
  }

  lemma {:induction false} FewerTimers(s: Sys, n: nat, ok: bool, tid: Tid)
    ensures SessionStep(s, n, ok, tid).timers <= s.timers
  {
    if s.At(n).Starting() {
      assert StartStep(s, n, ok).timers == s.timers;
    } else if s.At(n).Deleting? {
      assert DeleteStep(s, n, s.At(n).mode, tid).timers <= s.timers;
    } else if s.At(n).Releasing() {
      assert ReleaseStep(s, n).timers == s.timers;
    } else {
      assert EndStep(s, n, tid).timers == s.timers;
    }
  }

  /** A step that arms a thread does so for the session that has the timer; an ended session never has one. */
  lemma {:induction false} NoTimerAfterDrop(actions: seq<Action>, a: Action, n: nat, tid: Tid)
    ensures var s := Run(actions);
      && ((n, tid) in Do(s, a).timers - s.timers ==> s.At(n).NeedAttach? || s.slot == Some(n))
      && (s.At(n).Ended? || s.At(n).Deactivate? || s.At(n).Unguard? || s.At(n).Ignore? ==> (n, tid) !in s.timers && (n, tid) !in Do(s, a).timers)
  {
    RunKeepsInv(actions);
    var s := Run(actions);
    NewTimers(s, a);
    if s.gil.SlotLocked() && s.gil.n == n { UsedBySlot(s, n); }
  }

  /** What the thread with the GIL works on is attached or being attached. */
  lemma UsedBySlot(s: Sys, n: nat)
    requires Inv(s) && s.gil.SlotLocked() && s.gil.n == n
    ensures (s.At(n).NeedAttach? || s.slot == Some(n)) && s.At(n).HasThreadTimers() && !s.At(n).Deleting?
  {
  }

  /** The thread with the GIL never waits for a timer that is being dropped: it uses only timers that are not. */
  lemma {:induction false} HooksNeverWait(actions: seq<Action>, ok: bool)
    ensures var s := Run(actions);
      && (s.gil.SlotLocked() ==> !s.At(s.gil.n).Deleting?)
      && (!s.gil.Free? ==> exists tid :: GilStep(s, ok, tid).gil != s.gil)
  {
    RunKeepsInv(actions);
    var s := Run(actions);
    if s.gil.AttachRest? && s.gil.todo != {} {
      var tid :| tid in s.gil.todo;
      assert tid !in s.gil.todo - {tid};
      assert GilStep(s, ok, tid).gil != s.gil;
    } else {
      assert !s.gil.Free? ==> GilStep(s, ok, 0).gil != s.gil;
    }
  }

  // ---- Getting on ----

  /** How far a session is from its end. */
  function Stage(pc: Pc): nat {
    match pc
    case Absent => 0
    case Install(_) => 10
    case Activate(_) => 9
    case Arm(_) => 8
    case NeedAttach => 7
    case Running(_) => 6
    case Detaching => 5
    case Deleting(_) => 4
    case Deactivate => 3
    case Unguard => 2
    case Ignore => 1
    case Ended => 0
  }

  /** What a session has to wait for: to be attached, or for a hook to give the slot back. */
  ghost predicate Waits(s: Sys, n: nat, ok: bool) {
    || (s.At(n).NeedAttach? && (ok || s.gil.AttachCaller? || s.gil.AttachRest?))
    || (s.At(n).Detaching? && s.gil.SlotLocked())
  }

  /** A step of a session that need not wait brings it on, or stops one more of its thread timers. */
  lemma {:induction false} SessionsGetOn(s: Sys, n: nat, ok: bool, tid: Tid)
    requires Stage(s.At(n)) > 0 && !Waits(s, n, ok)
    ensures var r := SessionStep(s, n, ok, tid);
      if s.At(n) == Deleting(CTimer) && s.AnyTimer(n) then
        r.At(n) == s.At(n) && r.timers == if (n, tid) in s.timers then s.timers - {(n, tid)} else s.timers
      else Stage(r.At(n)) < Stage(s.At(n))
  {
    if s.At(n).Starting() {
      StartGetsOn(s, n, ok);
    } else if s.At(n).Deleting? {
      DeleteGetsOn(s, n, s.At(n).mode, tid);
    }
  }

  lemma {:induction false} StartGetsOn(s: Sys, n: nat, ok: bool)
    requires s.At(n).Starting() && !Waits(s, n, ok)
    ensures Stage(StartStep(s, n, ok).At(n)) < Stage(s.At(n))
  {
  }

  lemma {:induction false} DeleteGetsOn(s: Sys, n: nat, mode: Mode, tid: Tid)
    requires s.At(n) == Deleting(mode)
    ensures var r := DeleteStep(s, n, mode, tid);
      if mode == CTimer && s.AnyTimer(n) then r.At(n) == s.At(n) && r.timers == if (n, tid) in s.timers then s.timers - {(n, tid)} else s.timers
      else r.At(n) == Deactivate
  {
  }

  /**
   A start that meets no other session, and whose system calls succeed, succeeds: the handler is in place, the flag is
   set, and an `ITimer` is armed, or a `CTimer` waits to be attached.
   */
  lemma {:induction false} StartsSucceed(actions: seq<Action>, n: nat, mode: Mode, tid: Tid)
    requires Run(actions).At(n) == Install(mode) && forall m: nat :: !Run(actions).At(m).Guarded()
    ensures var m := Move(n, true, tid); var s := Do(Do(Do(Run(actions), m), m), m);
      && s.handled && s.active && s.disposition == Ours
      && if mode == ITimer then s.At(n) == Running(ITimer) && s.process else s.At(n) == NeedAttach
  {
    NothingIsLeftBehind(actions, n);
    var s := Run(actions);
    var m := Move(n, true, tid);
    assert Do(s, m) == s.Go(n, Activate(mode)).(handled := true, disposition := Ours);
    StartMoves1(Do(s, m), n, mode, tid);
  }

  lemma {:induction false} StartMoves1(s: Sys, n: nat, mode: Mode, tid: Tid)
    requires s.At(n) == Activate(mode) && !s.active && s.handled && s.disposition == Ours
    ensures var m := Move(n, true, tid); var r := Do(Do(s, m), m);
      && r.handled && r.active && r.disposition == Ours
      && if mode == ITimer then r.At(n) == Running(ITimer) && r.process else r.At(n) == NeedAttach
  {
    var m := Move(n, true, tid);
    assert Do(s, m) == s.Go(n, Arm(mode)).(active := true);
  }

  // ---- Whose arming failed, and who is registered ----

  /** A thread that the action arms, and whether it has a timer then: it had one, or the kernel grants it. */
  datatype Arming = Asks(tid: Tid, ok: bool) | NoArming

  ghost function ArmingBy(s: Sys, a: Action): Arming {
    if !a.GilMove? then NoArming
    else match s.gil
      case RegCreate(n, t) => if s.At(n).HasTimer() && !s.At(n).Deleting? then Asks(t, a.ok || (n, t) in s.timers) else NoArming
      case AttachRest(n, _, todo) => if a.tid in todo && s.At(n).HasTimer() then Asks(a.tid, a.ok || (n, a.tid) in s.timers) else NoArming
      case AttachCaller(n, caller) => if a.ok && s.At(n).HasTimer() && !s.At(n).Deleting? then Asks(caller, true) else NoArming
      case _ => NoArming
  }

  function Attaches(s: Sys, a: Action): bool {
    a.Attach? && s.gil.Free? && s.At(a.n).NeedAttach? && FreeTid(s.live, a.id, a.caller)
  }

  /** The threads whose last arming since the last attach was refused. */
  ghost function RefusedArmings(actions: seq<Action>): set<Tid>
    decreases |actions|
  {
    if actions == [] then {}
    else
      var front, a := actions[..|actions| - 1], actions[|actions| - 1];
      if Attaches(Run(front), a) then {} else Rearmed(RefusedArmings(front), ArmingBy(Run(front), a))
  }

  function Rearmed(refused: set<Tid>, arming: Arming): set<Tid> {
    match arming
    case Asks(tid, ok) => if ok then refused - {tid} else refused + {tid}
    case NoArming => refused
  }

  /** Which thread each id was registered with last, of those that were not unregistered since. */
  ghost function Registered(actions: seq<Action>): map<nat, Tid>
    decreases |actions|
  {
    if actions == [] then map[]
    else
      var s, before := Run(actions[..|actions| - 1]), Registered(actions[..|actions| - 1]);
      match actions[|actions| - 1]
      case Register(id, tid) => if s.gil.Free? && FreeTid(s.live, id, tid) then before[id := tid] else before
      case Unregister(id) => if s.gil.Free? then before - {id} else before
      case Attach(n, id, caller) => if Attaches(s, actions[|actions| - 1]) then before[id := caller] else before
      case _ => before
  }

  lemma {:induction false} SessionLeavesFailed(s: Sys, n: nat, ok: bool, tid: Tid)
    ensures var r := SessionStep(s, n, ok, tid); r.failed == s.failed && r.live == s.live
  {
    if s.At(n).Starting() {
      StartLeaves(s, n, ok);
    } else if s.At(n).Releasing() {
      ReleaseLeaves(s, n);
    } else {
      EndLeaves(s, n, tid);
    }
  }

  lemma StartLeaves(s: Sys, n: nat, ok: bool)
    ensures StartStep(s, n, ok).failed == s.failed && StartStep(s, n, ok).live == s.live
  {
  }

  lemma ReleaseLeaves(s: Sys, n: nat)
    ensures ReleaseStep(s, n).failed == s.failed && ReleaseStep(s, n).live == s.live
  {
  }

  lemma EndLeaves(s: Sys, n: nat, tid: Tid)
    ensures EndStep(s, n, tid).failed == s.failed && EndStep(s, n, tid).live == s.live
  {
  }

  /** What a step under the GIL does to the record of refused armings, and that it registers nobody. */
  ghost predicate Records(s: Sys, r: Sys, ok: bool, tid: Tid) {
    r.live == s.live && r.failed == Rearmed(s.failed, ArmingBy(s, GilMove(ok, tid)))
  }

  lemma {:induction false} GilRecords(s: Sys, ok: bool, tid: Tid)
    ensures Records(s, GilStep(s, ok, tid), ok, tid)
  {
    match s.gil
    case RegCreate(n, t) => CreateRecords(s, ok, tid);
    case AttachCaller(n, caller) => CallerRecords(s, ok, tid);
    case AttachRest(n, _, todo) => RestRecords(s, ok, tid);
    case _ => OthersRecord(s, ok, tid);
  }

  lemma CreateRecords(s: Sys, ok: bool, tid: Tid)
    requires s.gil.RegCreate?
    ensures Records(s, GilStep(s, ok, tid), ok, tid)
  {
  }

  lemma CallerRecords(s: Sys, ok: bool, tid: Tid)
    requires s.gil.AttachCaller?
    ensures Records(s, GilStep(s, ok, tid), ok, tid)
  {
  }

  lemma RestRecords(s: Sys, ok: bool, tid: Tid)
    requires s.gil.AttachRest?
    ensures Records(s, GilStep(s, ok, tid), ok, tid)
  {
  }

  lemma OthersRecord(s: Sys, ok: bool, tid: Tid)
    requires !s.gil.RegCreate? && !s.gil.AttachCaller? && !s.gil.AttachRest?
    ensures Records(s, GilStep(s, ok, tid), ok, tid)
  {
  }

  lemma {:induction false} RecordStep(s: Sys, a: Action)
    ensures Do(s, a).failed == if Attaches(s, a) then {} else Rearmed(s.failed, ArmingBy(s, a))
    ensures Do(s, a).live == match a
      case Register(id, tid) => if s.gil.Free? && FreeTid(s.live, id, tid) then s.live[id := tid] else s.live
      case Unregister(id) => if s.gil.Free? then s.live - {id} else s.live
      case Attach(n, id, caller) => if Attaches(s, a) then s.live[id := caller] else s.live
      case _ => s.live
  {
    match a
    case Move(n, ok, tid) => SessionLeavesFailed(s, n, ok, tid);
    case GilMove(ok, tid) => GilRecords(s, ok, tid);
    case Unregister(id) => if id !in s.live { assert s.live - {id} == s.live; }
    case _ =>
  }

  /**
   The live map says who is registered, and a thread counts as failed exactly if its last arming was refused. So a session
   that is attached, between hook calls, has armed exactly the registered threads that the kernel did not refuse.
   */
  lemma {:induction false} RecordsAreTrue(actions: seq<Action>)
    ensures Run(actions).live == Registered(actions) && Run(actions).failed == RefusedArmings(actions)
    decreases |actions|
  {
    if actions != [] {
      RecordsAreTrue(actions[..|actions| - 1]);
      RecordStep(Run(actions[..|actions| - 1]), actions[|actions| - 1]);
    }
  }
}
