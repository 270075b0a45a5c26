# A verified model of the Pyroscope Python profiler

This project models the parts of the profiler whose correctness no single function shows, and proves what they
promise: the signal sampling pipeline, the pprof encoder with its string tables, the protocols between its
threads, and the profile tree of the integration tests.

`dafny verify dfyconfig.toml` checks all of it.

## How it is laid out

- **The ring buffer.** `Ring` is one step of a producer or a consumer, one access to shared memory at a time;
  `RingSystem` interleaves any number of them, from any cursor value; `RingObject` is the object with its slots
  written in place; `RingProgress` says that every operation is answered. `Words` has the wrap-around and masking
  arithmetic.
- **The pipeline.** `Unwind` walks frame chains in arbitrary memory, `Handler` is one run of the signal handler,
  `Pipeline` interleaves handlers, the sampler thread and the reporter; `PipelineLaws` follows each stack through it, and
  `PipelineProgress` says that nobody in it waits.
- **The encoder.** `Strings` and `PprofBuilder` keep hash maps and dense lists in step, `Backend` counts and groups
  stacks, `Encode` writes a profile, and `Pprof` says what a profile means by decoding it through its own tables.
  `Windows` is a builder over its whole life, from dump to dump.
- **The threads.** `Lifecycle` writes down what each thread does as a program of lock, channel, join and table
  operations; `LifecycleSafety` proves what every operation keeps; `Fork` and `ForkSafety` are the child of a fork
  until its fork hook has run; `ProfilerRuns` states what holds in every run, and `ProfilerExamples` gives runs that
  show its limits. `Programs` is the table of what each thread does under which locks, `Calls` is what becomes of each call of `run` and `stop`, `Deliveries` what goes through the profiler,
  and `Endings` why joins come to their end. `SignalSession` is the signal handler, the timers and the thread registry, `LeakableMutex` the
  lazily allocated, replaceable mutex.
- **The tree.** `TreeModel` is the linked tree and what it means: the weight at each path of names. `TreeInsert`,
  `TreeMerge`, `TreeShared`, `TreeFix`, `TreeRename`, `TreeMin` and `TreeUnmarshal` are its operations,
  `TreeTotals` says what its total is, `TreeParse`, `TreeEncoding`, `TreeDecode` and `TreeRestored` what bytes are
  read as. `MinHeap` is the heap of integers.

A step system is a state, a function for one step, and a `Run` over any sequence of actions; theorems are about every
`Run`. A method that changes objects is specified by a function or predicate of the view of its nodes or fields, and
the lemmas are about that.

## Findings

Where the code does not keep a property one might expect of it, the model has the code's behaviour, a lemma gives an
input or a run, and another says exactly when the property holds.

- A run joins a thread with the GIL in its hands: the one that builds its HTTP client
  (`ProfilerExamples.WaitsWithTheGil`). It is the only wait with a lock held, and the thread that is waited for needs
  no lock (`ProfilerRuns.LocksHeldWhileWaiting`, `ProfilerRuns.ClientNeedsNobody`); nobody waits forever because of it.
- Between a fork and the fork hook, a sampled allocation in the child hangs if and only if memory was being profiled
  and the string table was locked at the fork (`ProfilerRuns.AllocationHangs`, `ProfilerExamples.ChildHangs`). A
  builder lock that an allocation needs is never left behind (`ForkSafety.LocksAtFork`).
- In the fork hook, string indices that the profilers still hold are stale from the moment the table is replaced until
  each profiler is stopped, unless they are those of the empty string (`ProfilerRuns.IndicesResolveInChild`,
  `ProfilerRuns.StaleUntilStopped`, `ProfilerExamples.ChildHoldsStale`). No window and no emitted profile holds one.
- A session that ends can remove a signal handler that other code installed. It does so if and only if that code
  installed it after the session asked for the current action and before it set its own, and put nothing back since
  (`SignalSession.ForeignHandlerStays`, `SignalSession.ForeignHandlerIsLost`).
- `UnmarshalTree` gives a tree whose totals do not add up exactly when a node takes the place of an earlier sibling of
  its name that had weight (`TreeUnmarshal.UnmarshalTree`, `TreeEncoding.TwiceLoses`).
- `Merge` with a tree of the same nodes, which its own shortcut produces, counts every node twice and changes the
  source with it (`TreeShared.MergeShared`).

## Model

| member | source | states |
|---|---|---|
| Words.MaskOfWrapped | rust/crates/ringbuffer/src/lib.rs:79-81 | masking a wrapped cursor finds the slot of its unbounded position, because a capacity divides the word size |
| RingSystem.RingIsFifo | rust/crates/ringbuffer/src/lib.rs:57-171 | in every interleaving, from any starting cursor, what was popped is a prefix of what was published, record by record, and the memory decodes to exactly the rest |
| RingSystem.AnswersAreTrue | rust/crates/ringbuffer/src/lib.rs:98-164 | every answer is true when it is given: nothing panics, `Full` means too few free slots, `Empty` an empty queue, `TooSmall` a longer first record and no change |
| RingSystem.LockHasHolder | rust/crates/ringbuffer/src/lib.rs:56-87 | a lock flag is set exactly while some actor holds that side, so a try-lock is refused only while another is active |
| RingSystem.SlotsHaveOneOwner | rust/crates/ringbuffer/src/lib.rs:27-29 | the slots a push may write and those a pop may read are disjoint, and each side has at most one active actor |
| RingProgress.PushIsAnswered | rust/crates/ringbuffer/src/lib.rs:98-116 | whatever others do, a push is answered within its length and 4 steps of its own: published where there is room at that moment, `Full` where there is not |
| RingProgress.PopIsAnswered | rust/crates/ringbuffer/src/lib.rs:137-164 | a pop is answered within the length of the oldest record and 5 steps of its own, or at the second while the ring is empty: by that record if it fits, else by the reason |
| RingProgress.LockIsAnswered | rust/crates/ringbuffer/src/lib.rs:57-77 | a try-lock is refused exactly while that side is held; otherwise two more steps of its own make the handle ready |
| RingProgress.DropFrees | rust/crates/ringbuffer/src/lib.rs:123-171 | dropping a handle leaves nobody on that side |
| RingObject.RingBuffer.constructor | rust/crates/ringbuffer/src/lib.rs:45-54 | a new ring is well formed and empty |
| RingObject.RingBuffer.TryProducer | rust/crates/ringbuffer/src/lib.rs:57-66 | refused exactly when the lock is set; otherwise a handle whose cached cursors are the current ones |
| RingObject.RingBuffer.TryConsumer | rust/crates/ringbuffer/src/lib.rs:68-77 | refused exactly when the lock is set; otherwise a handle whose cached cursors are the current ones |
| RingObject.Producer.PushSlice | rust/crates/ringbuffer/src/lib.rs:98-116 | appends one record, or fails and changes nothing in the ring; it fails exactly when the record does not fit, however stale the cached cursors |
| RingObject.Consumer.PopSlice | rust/crates/ringbuffer/src/lib.rs:137-164 | removes the oldest record and copies it to the front of the output; says exactly when it is empty or too small, and then changes nothing |
| RingObject.Producer.Drop | rust/crates/ringbuffer/src/lib.rs:123-127 | gives the producer lock back and keeps the ring well formed |
| RingObject.Consumer.Drop | rust/crates/ringbuffer/src/lib.rs:167-171 | gives the consumer lock back and keeps the ring well formed |
| Unwind.Walk | rust/crates/python-unwind/src/lib.rs:199-235 | ends on every memory, cyclic chains included; succeeds exactly when the chain completes, with its Python frames innermost first; fails with the first obstacle (what a chain is in memory: `FirstFrame`, `NextFrame`, `SkippedFrame`, `PythonFrame`, `FirstObstacle`) |
| Unwind.Look | rust/crates/python-unwind/src/lib.rs:209-230 | reading one frame succeeds exactly on skipped frames and Python frames, and otherwise names the first read that fails |
| Unwind.Process.FirstFrame | rust/crates/python-unwind/src/lib.rs:192-197 | the word of memory at which a chain begins: the thread state points at it, through one word in between where the layout has one |
| Unwind.Process.NoFirstFrame | rust/crates/python-unwind/src/lib.rs:192-197 | why there is none: a word outside the address space, or one that cannot be read |
| Unwind.Process.NextFrame | rust/crates/python-unwind/src/lib.rs:209 | the word of memory that links a frame to the next |
| Unwind.Process.SkippedFrame | rust/crates/python-unwind/src/lib.rs:210-217 | a frame is passed over exactly if its link and its owner byte can be read and the owner is one that is skipped |
| Unwind.Process.PythonFrame | rust/crates/python-unwind/src/lib.rs:209-231 | a frame gives this code and instruction exactly if these words are in memory at their places, the executable without its tag bits is not null, and its type is that of code |
| Unwind.Process.FirstObstacle | rust/crates/python-unwind/src/lib.rs:209-226 | which error a frame gives, in reading order, by the words that are there |
| Unwind.ChainStarts | rust/crates/python-offsets/src/v3_12.rs:5-6 | the offsets of the first frame, number by number: 56 and 0 on 3.12, 72 later |
| Unwind.FramesBefore314 | rust/crates/python-offsets/src/v3_13.rs:5-11 | the offsets of a frame on 3.12 and 3.13, number by number |
| Unwind.FramesFrom314 | rust/crates/python-offsets/src/v3_14.rs:4-12 | the offsets of a frame on 3.14, and the two tag bits |
| Unwind.Process.CompletesOnce | rust/crates/python-unwind/src/lib.rs:199-235 | at most one chain of frames completes |
| Unwind.Process.CompletesOrFails | rust/crates/python-unwind/src/lib.rs:199-235 | a chain that completes is not blocked anywhere |
| Unwind.Process.FailsOnce | rust/crates/python-unwind/src/lib.rs:199-235 | a chain is blocked for one reason only |
| Unwind.SkippedOwners | rust/crates/python-unwind/src/lib.rs:53-57 | which owner bytes each layout skips, with the shift amount taken modulo 8 |
| Unwind.Metrics.TakeDropCounts | rust/crates/python-unwind/src/lib.rs:146-158 | returns every count under its name, read from the counter of that name, and leaves all counters at zero |
| Unwind.Metrics.Count | rust/crates/python-unwind/src/lib.rs:180-188 | which counter each error raises, by name, and that the others stay |
| Unwind.ReasonNames | rust/crates/python-unwind/src/lib.rs:146-158 | the name under which each error is reported |
| Handler.UnwindThread | rust/crates/python-unwind/src/lib.rs:174-190 | an error raises the counter of its own reason by one and no other; a success raises none |
| Handler.RunHandler | rust/crates/python-unwind/src/lib.rs:97-111 | one run either publishes the whole stack or raises exactly one drop counter by one; records plus drop counts grow by one |
| Handler.OneFate | rust/crates/python-unwind/src/lib.rs:97-111 | the chain, the lock and the free slots decide what becomes of a stack |
| Pipeline.SamplesAreConserved | rust/src/signal_backend.rs:48-119 | at every moment of every interleaving, weight is the period times what was there and was settled, less what is in the ring, in hand, buffered or counted; the sampler never meets a record that does not fit |
| PipelineLaws.HandlersSettleFairly | rust/crates/python-unwind/src/lib.rs:97-111 | in every interleaving each handler run is settled by its own walk and the answer of the ring: an error under its reason, the stack that was unwound published whole, or dropped for a held lock or a full ring; what was published is that, in order |
| PipelineLaws.StacksInOrder | rust/src/signal_sampler.rs:135-159 | the stacks that left the ring are resolved or given up in the order in which they left it, each once |
| PipelineLaws.ReasonsAreConserved | rust/src/signal_backend.rs:96-119 | reason by reason: what was dropped or not resolved is in its counter, with the reporter, or became a stack of that reason |
| PipelineLaws.TracesAreConserved | rust/src/signal_backend.rs:54-58 | trace by trace: the stacks resolved to it and the drop counts turned into it are in hand, buffered, in the report under way, or emitted; none is counted as another |
| PipelineLaws.ProfilesSayTheirReports | rust/src/pyspy_backend.rs:137-152 | each emitted profile decodes to exactly its report at one period a count |
| PipelineLaws.DroppedByName | rust/src/signal_backend.rs:106-116 | the stack that stands for a reason: one frame with its name |
| PipelineProgress.HandlerReturns | rust/crates/python-unwind/src/lib.rs:97-111 | a handler whose walk has ended returns within 265 steps of its own |
| PipelineProgress.SamplerSleepsAgain | rust/src/signal_backend.rs:48-60 | the sampler sleeps again after a bounded number of its own steps |
| PipelineProgress.WakeIsBounded | rust/src/signal_sampler.rs:141-157 | that bound, from sleep to sleep |
| PipelineProgress.DrainTakesAll | rust/src/signal_sampler.rs:141-147 | a drain ends with 64 stacks or with an empty ring |
| PipelineProgress.ReporterGetsOn | rust/src/pyspy_backend.rs:137-152 | the reporter takes the buffer unless it is locked, and gets on with every step |
| Strings.StringTable.constructor | rust/src/encode/pprof.rs:463-469 | a new table holds the empty string at index 0 |
| Strings.StringTable.Add | rust/src/encode/pprof.rs:471-485 | the index of the string, appended if it is new; earlier indices keep their meaning; it fails exactly when the ids have run out |
| Strings.StringTable.PprofTable | rust/src/encode/pprof.rs:504-520 | the list in index order, whatever the order of the map |
| Backend.StackBuffer.RecordWithCount | rust/src/backend/types.rs:51-55 | adds exactly this count to this trace and to the total, and nothing to any other trace |
| Backend.StackBuffer.Record | rust/src/backend/types.rs:44-48 | adds exactly one to this trace and to the total, and nothing to any other trace |
| Backend.StackBuffer.Clear | rust/src/backend/types.rs:58-60 | leaves an empty buffer |
| Backend.StackBuffer.Take | rust/src/pyspy_backend.rs:138 | hands the counts over and leaves an empty buffer |
| Backend.IntoReports | rust/src/backend/types.rs:63-87 | the reports hold exactly the counted traces of the buffer, whatever hash groups them and in whatever order; one report for each hash, with the metadata of one of its traces, all of which have that hash |
| PprofBuilder.PProfBuilder.AddFunctionMirror | rust/src/encode/pprof.rs:238-255 | map and list still agree, ids stay dense from 1, the id is that of this function; its assertion never fails |
| PprofBuilder.PProfBuilder.AddLocationMirror | rust/src/encode/pprof.rs:257-277 | the same for locations |
| PprofBuilder.StackInjective | rust/src/encode/pprof.rs:238-277 | distinct stacks of ids stand for distinct stacks of frames |
| PprofBuilder.PProfBuilder.AddFfiSample | rust/src/encode/pprof.rs:310-337 | adds one push to the window, and keeps the rows the saturating sums of the pushes of each stack |
| PprofBuilder.RowsGrow | rust/src/encode/pprof.rs:325-335 | one more push changes the row of its own stack and no other |
| PprofBuilder.RowSteps | rust/src/encode/pprof.rs:325-335 | the first push of a stack is its row; each further one adds to every slot and stops at the bounds of `i64`; other rows stay |
| PprofBuilder.RowIsSum | rust/src/encode/pprof.rs:325-335 | while no sum on the way leaves `i64`, each slot of a row is the integer sum of that slot over the pushes of its stack |
| PprofBuilder.PProfBuilder.FlushFfiSamples | rust/src/encode/pprof.rs:227-236 | the samples are the rows, each once, in some order |
| PprofBuilder.PProfBuilder.TakeProfileAndReset | rust/src/encode/pprof.rs:291-306 | a profile with exactly one row for each stack of the window and the sum of its pushes, with the types, the period and the time range that were set; none exactly when nothing was pushed; and an empty builder, which has lost its types if there was a profile |
| PprofBuilder.RowsAreDetermined | rust/src/encode/pprof.rs:227-236 | the order of the map does not matter for what a window's profile says |
| Windows.Live | rust/src/memory.rs:121-139 | over any sequence of samples, dumps, resets and strings of others: each dump gives exactly the rows of the samples since the dump or reset before it, with types, period and time range, and nothing for an empty window; only a full string table ends it |
| Windows.EventsDecide | rust/src/encode/pprof.rs:227-306 | whatever was emitted for the same events says the same, dump by dump |
| Windows.MemoryProfile | rust/src/encode/pprof.rs:74-110 | each emitted memory sample holds, under these four type names, the sums of these four fields over the samples of its stack since the last dump or reset, and the period is the configured one |
| Windows.StackProfile | rust/src/encode/pprof.rs:118-164 | the same for processor time and elapsed time |
| PprofBuilder.PProfBuilder.Reset | rust/src/encode/pprof.rs:279-290 | discards all that is buffered and keeps the sample types and the period |
| PprofBuilder.PProfBuilder.SetProfileType | rust/src/encode/pprof.rs:223-225 | assigns types and a period type that decode to the names of the kind; the period is the configured number, or a second over the sample rate; a zero sample rate fails |
| PprofBuilder.TypesByName | rust/src/encode/pprof.rs:74-180 | the type names of each kind, literally |
| PprofBuilder.PProfBuilder.AddStacktrace | rust/src/encode/pprof.rs:341-369 | appends one sample that decodes to the trace, its tags and its weight |
| Pprof.SamplesStay | rust/src/encode/pprof.rs:341-369 | later additions to the tables do not change what an earlier sample decodes to |
| Encode.Encode | rust/src/encode/pprof.rs:372-384 | the profile decodes to exactly the reported counts times the period, with the names of its types and the time range; there is one when the rate is positive and there are fewer distinct strings than the table can hold, and none for a zero rate or more strings |
| Encode.EncodeBuffer | rust/src/pyspy_backend.rs:147-151 | the same from a buffer, grouped by any hash of the metadata |
| Encode.EncodingIsDetermined | rust/src/encode/pprof.rs:372-384 | two encodings of the same counts decode to the same rows |
| Encode.WeightIsExact | rust/src/encode/pprof.rs:347-351 | a sample carries count times period exactly when that product is in range |
| Encode.WeightIsConserved | rust/src/encode/pprof.rs:341-384 | the emitted weight is the period times the number of buffered samples, if that is in range |
| LifecycleSafety.StepKeeps | rust/src/ffikit.rs:38-142 | every operation of every thread keeps the invariant: lock order, ownership, accounting, channel and indices |
| Programs.TagWork | rust/src/ffikit.rs:90-104 | setting a tag happens under the state lock |
| Programs.HookWork | rust/src/memory.rs:88-92 | an allocation hook interns under the lock of the table, then pushes under that of the builder, both under the GIL |
| Programs.GateOpens | rust/src/memory.rs:101-109 | a hook goes on exactly while memory is being profiled |
| Programs.SamplerWork | rust/src/signal_backend.rs:50-59 | what a round of each sampler does, and under which locks |
| Programs.SnapshotWork | rust/src/pyroscope.rs:299-350 | what a snapshot does, in order, and under which locks |
| ProfilerRuns.CallsAreAccounted | rust/src/ffikit.rs:38-142 | committed runs minus claimed stops is one exactly while the agent runs, else zero; one call at a time is inside; an idle agent has nothing running, empty builders and a fresh table |
| Calls.CallsEndAsTheyShould | rust/src/ffikit.rs:38-142 | in every run: `stop` is refused if and only if the agent is not running when the call has the state, `run` if and only if there is an agent; a `stop` that is not refused returns only after it left the state idle with all threads ended, all sessions received, both profilers stopped, builders and table emptied; a `run` that is not returns with the agent running with just what was chosen, or with everything torn down |
| Calls.ClaimsHoldTheState | rust/src/ffikit.rs:110-122 | what a call sees of the agent it sees with the state lock in its hands |
| Calls.CallsAreShort | rust/src/ffikit.rs:38-142 | a call is over after at most 33 operations of its own |
| ProfilerRuns.LocksHeldWhileWaiting | rust/src/ffikit.rs:121-138 | a thread that joins, sends or waits for work holds no lock, except a run that joins its client thread with the GIL alone |
| ProfilerRuns.ClientNeedsNobody | rust/src/ffikit.rs:18-36 | the client thread takes no lock and can always go on |
| ProfilerExamples.WaitsWithTheGil | rust/src/forksafety.rs:19-29 | a run in which a join happens with the GIL held |
| ProfilerRuns.NobodyWaitsForever | rust/src/ffikit.rs:106-142 | from every unfinished call, snapshot, hook or push, the chain of threads it waits for ends in one that can go on |
| Endings.JoinedThreadsEnd | rust/src/pyroscope.rs:233-258 | whoever a call joins was told to end before, and ends within a bounded number of operations of its own, whatever others do |
| ProfilerRuns.SessionsInOrder | rust/src/session.rs:52-93 | the channel is first in, first out, never over its capacity; `Kill` is last, and only receiving it ends the session thread |
| ProfilerRuns.StopAfterDelivery | rust/src/pyroscope.rs:354-370 | when a stop is about to finish, every session that was sent has been received, and every background thread has ended |
| Deliveries.SessionsAreUploaded | rust/src/session.rs:58-77 | what went into the channel is what was offered to it; every session received is uploaded, in order, each once |
| Deliveries.AllIsUploaded | rust/src/pyroscope.rs:354-370 | when a stop is about to finish, every session that was offered has been uploaded |
| Deliveries.AgentFlushes | rust/src/pyroscope.rs:279-293 | an agent thread ends only by a last snapshot, one it begins when told to quit or one that fails, and there is none after it |
| Deliveries.LastSnapshotIsWhole | rust/src/pyroscope.rs:284-288 | the last snapshot is one like any other, with nothing behind it |
| Deliveries.SnapshotYields | rust/src/pyroscope.rs:299-350 | which builders a snapshot dumps, and that it sends one session if it has anything to send |
| Deliveries.SamplesAreKept | rust/src/encode/pprof.rs:291-337 | builder by builder, every sample that was pushed is in its window, or a dump or a teardown took it, in order |
| Deliveries.EmittedIsDumped | rust/src/memory.rs:121-139 | what was emitted is what was dumped, window by window, across forks too |
| Deliveries.EmittedTableIsComplete | rust/src/memory.rs:134-135 | the table of an emitted profile has the names of its types, and keeps all earlier indices |
| ProfilerRuns.IndicesResolve | rust/src/encode/interner.rs:18-41 | every index held, in a window, or in a profile that was ever emitted names the string it was handed out for |
| Deliveries.HandlesAreHanded | rust/src/encode/interner.rs:18-41 | a profiler holds just the indices it was handed since it was last stopped |
| ProfilerRuns.ClearedWhenUnused | rust/src/ffikit.rs:81-88 | the table is cleared only when both profilers are stopped, no index is held and the builders are empty |
| ForkSafety.LocksAtFork | rust/src/memory.rs:103-114 | the state lock and the memory builder's lock are free at every fork |
| ProfilerRuns.IndicesResolveInChild | rust/src/lib.rs:48-59 | in the child, windows and emitted profiles resolve at every point of the hook; held indices resolve until the table is replaced, and afterwards exactly those of the empty string |
| ProfilerRuns.StaleUntilStopped | rust/src/lib.rs:52-55 | an index of any other string that the memory profiler or the stack sampler held at the fork is stale from then until that profiler is stopped |
| ProfilerExamples.ChildHoldsStale | rust/src/lib.rs:52-55 | a run that ends with such an index in the child |
| ProfilerRuns.HookNeverWaits | rust/src/forksafety.rs:168-174 | the fork hook never waits for a lock |
| ProfilerRuns.HookGetsOn | rust/src/lib.rs:48-59 | every operation of the hook brings the child nearer to its end |
| ProfilerRuns.ChildStartsFresh | rust/src/lib.rs:48-59 | after the hook nothing runs, no index is held, builders are empty, the table is fresh, no lock is held, calls are counted anew, and what was emitted is what the parent had emitted at the fork |
| ProfilerRuns.HangsOnOrphanedTable | rust/src/encode/interner.rs:24-27 | before the hook the child waits exactly for a string table locked by a thread that is gone, and then for good |
| ProfilerRuns.AllocationRecords | rust/src/encode/interner.rs:18-41 | an allocation in the child that is not stopped interns its text and pushes its sample |
| ProfilerRuns.AllocationHangs | rust/src/encode/interner.rs:24-27 | a sampled allocation hangs if and only if memory was being profiled and the table was locked at the fork |
| ProfilerExamples.ChildHangs | rust/src/forksafety.rs:47-56 | a run that ends in such a child |
| SignalSession.ArmedMeansHeld | rust/crates/signal-timer/src/lib.rs:86-145 | an armed timer means that `ACTIVE` and the guard of the signal are held; at most one session has a `Timer`, and all thread timers are its own |
| SignalSession.NothingIsLeftBehind | rust/src/signal_sampler.rs:82-127 | when no session is under way, no flag is set and no timer is armed or current; a start is refused only while another session is under way |
| SignalSession.StartsSucceed | rust/src/signal_sampler.rs:82-127 | a start that meets no other session, and whose system calls succeed, has handler, flag and timer |
| SignalSession.SessionsGetOn | rust/src/signal_sampler.rs:154-177 | every step of a session brings it nearer to its end, unless it waits to be attached or for a hook |
| SignalSession.TicksAreHandled | rust/crates/signal-timer/src/lib.rs:25-28 | no tick arrives under the default action unless other code chose it |
| SignalSession.ForeignHandlerStays | rust/crates/signal-timer/src/lib.rs:63-77 | a handler of other code is removed at the end of a session if and only if it was installed between the query and the set, and ours not put back since |
| SignalSession.ForeignHandlerIsLost | rust/crates/signal-timer/src/lib.rs:66-73 | a run in which that happens |
| SignalSession.ArmedAreTheLive | rust/src/signal_backend.rs:154-239 | while a session is attached and no hook is under way, exactly the live threads whose last arming did not fail have a timer |
| SignalSession.RecordsAreTrue | rust/src/signal_backend.rs:154-239 | the live map is who is registered, and a thread counts as failed exactly if its last arming was refused |
| SignalSession.NoTimerAfterDrop | rust/src/signal_sampler.rs:154-177 | only a session that has a timer gets thread timers; one that is over never does |
| SignalSession.HooksNeverWait | rust/src/signal_sampler.rs:162-177 | a hook never waits for a timer that is being dropped |
| LeakableMutex.OneMutexBetweenResets | rust/src/forksafety.rs:115-137 | a call returns a mutex that was published at some moment of the call; calls between the same resets return the same one |
| LeakableMutex.ReturnedIsNeverFreed | rust/src/forksafety.rs:115-137 | no mutex that was returned or is current is ever freed |
| LeakableMutex.LoserFreesItsOwn | rust/src/forksafety.rs:122-134 | what is freed was allocated, never published, by the thread that frees it |
| LeakableMutex.NeverNullAgain | rust/src/forksafety.rs:115-170 | once set, the pointer is never null again |
| LeakableMutex.ResetGivesFresh | rust/src/forksafety.rs:168-174 | a reset publishes a mutex that no call ever returned |
| LeakableMutex.CallsAreShort | rust/src/forksafety.rs:115-174 | a call or a reset is over after at most four steps of its own |
| LeakableMutex.EndsWithAnAnswer | rust/src/forksafety.rs:115-174 | a call ends with an answer, a reset with a new mutex, and nothing else changes the mutex |
| MinHeap.Push | integration-test/pyroscope/minheap/minheap.go:7-11 | adds the element and keeps the heap; in place while the capacity lasts |
| MinHeap.Pop | integration-test/pyroscope/minheap/minheap.go:13-20 | removes the smallest element and keeps the heap |
| MinHeap.Up | integration-test/pyroscope/minheap/minheap.go:22-31 | restores the heap from an element that is too small, and loses nothing |
| MinHeap.Down | integration-test/pyroscope/minheap/minheap.go:33-51 | restores the heap from an element that is too large, touches nothing beyond, and says whether a smaller element took its place |
| MinHeap.RootIsLeast | integration-test/pyroscope/minheap/minheap.go:13-20 | the root is the smallest element |
| TreeMerge.Total | integration-test/pyroscope/model/tree.go:25-30 | the sum of the totals of the roots |
| TreeTotals.TotalIsAllWeight | integration-test/pyroscope/model/tree.go:25-30 | where totals add up, the total of a tree is the sum of its nodes' own weights |
| TreeInsert.InsertStack | integration-test/pyroscope/model/tree.go:32-63 | adds the weight at the stack's path and nowhere else, and to the total of the tree; keeps siblings in strict order and sums as they were; nothing for a weight that is not positive or an empty stack |
| TreeInsert.Search | integration-test/pyroscope/model/tree.go:204-206 | the first child whose name is not below the given one |
| Names.LessIsByteOrder | integration-test/pyroscope/model/tree.go:204-206 | the order of names: a proper prefix first, else the smaller byte at the first difference |
| TreeInsert.Insert | integration-test/pyroscope/model/tree.go:203-215 | the child of this name, or a new one without weight in its place; the tree is otherwise unchanged |
| TreeMerge.Merge | integration-test/pyroscope/model/tree.go:100-133 | siblings in strict order, the total of both trees, sums that add up if both did; at every path the weight of both, always without a shortcut, and with one when sums add up and no weight is negative |
| TreeMerge.ShortcutsAreRight | integration-test/pyroscope/model/tree.go:101-107 | a tree with total zero, sums that add up and no negative weight can be dropped |
| TreeMerge.ZeroTotalWeighsNothing | integration-test/pyroscope/model/tree.go:101-107 | such a tree weighs nothing at any path |
| TreeShared.MergeShared | integration-test/pyroscope/model/tree.go:100-133 | merging a tree with one of the same nodes, itself included, doubles every node in both |
| TreeShared.DoubledIsMerged | integration-test/pyroscope/model/tree.go:100-133 | doubling every node is what a merge of a tree with itself comes to |
| TreeRename.Fix | integration-test/pyroscope/model/tree.go:155-197 | from any order and any repeats: siblings in strict order, the same weight at every path, the same total, sums as they were |
| TreeRename.FormatNodeNames | integration-test/pyroscope/model/tree.go:135-153 | each path gets the weight of all original paths whose names turn into it; strict order, the same total, sums as they were |
| TreeRename.RenameAll | integration-test/pyroscope/model/tree.go:136-148 | every node has its new name; no change is reported only when no name changed |
| TreeMin.Size | integration-test/pyroscope/model/tree.go:252-263 | the number of nodes |
| TreeMin.MinValue | integration-test/pyroscope/model/tree.go:217-250 | 0 when nothing is cut off, and otherwise exactly the `maxNodes`-th largest total, although subtrees are skipped; the last test never fails |
| TreeMin.KthLargestIsUnique | integration-test/pyroscope/model/tree.go:217-250 | there is only one such total |
| TreeUnmarshal.UnmarshalTree | integration-test/pyroscope/model/tree.go:269-322 | for every byte string: ends; gives a tree exactly when the parser does; that tree is in order and shows, of each sibling name, the last tree read, with all values and totals; its sums add up exactly when no repeated name loses weight |
| TreeUnmarshal.WrittenComesBack | integration-test/pyroscope/model/tree.go:284-317 | the bytes written for a tree are parsed as that tree |
| TreeUnmarshal.AddNode | integration-test/pyroscope/model/tree.go:304-312 | a node that was there loses its children and its value, and the new value reaches every total above it |
| TreeParse.EncodingParses | integration-test/pyroscope/model/tree.go:284-317 | parsing inverts the preorder encoding, for all trees whose sizes Go can hold |
| TreeParse.ParseNode | integration-test/pyroscope/model/tree.go:284-317 | after one node come its children, and then what came after it: the stack of parents is a preorder walk |
| Varints.UvarintReadsBack | integration-test/pyroscope/model/tree.go:286-293 | a varint that was written is read back, and what follows it is left |
| Varints.UvarintMeans | integration-test/pyroscope/model/tree.go:286-293 | what a varint reads as in any bytes, cut off and overlong ones included |
| TreeRestored.DistinctComesBack | integration-test/pyroscope/model/tree.go:304-306 | with distinct sibling names, each tree that was read is shown by one node and each node shows one tree: siblings are only sorted |
| TreeEncoding.DistinctLosesNothing | integration-test/pyroscope/model/tree.go:304-306 | with distinct sibling names no weight is lost |
| TreeEncoding.RepeatLoses | integration-test/pyroscope/model/tree.go:304-306 | two siblings of one name lose the first one's weight |
| TreeEncoding.TwiceLoses | integration-test/pyroscope/model/tree.go:304-306 | an input for which the sums do not add up |

## Left out

- HTTP, gzip, protobuf bytes, URLs, UUIDs, logging, label assembly: the model stops at the profile value and at the push of a session, which is taken to end.
- Weak memory: the ring is modelled one sequentially consistent access at a time; release and acquire pairs are the publication points.
- Kernel timers, clocks and system calls: they succeed or fail as they like, and how often a timer ticks is not modelled.
- The C++ samplers, py-spy and kindasafe are not part of this model: name resolution succeeds or fails as it likes, memory reads are a partial function, and a profiler is a client that holds string indices until it is stopped. Stopping the stack sampler is taken to wait for it.
- Frame layouts before CPython 3.12, which have no owner byte, and 3.15: the layouts are those of 3.12, 3.13 and 3.14.
- Debug builds: the shift by an owner byte above 7 and the product of count and period are those of a release build, which mask and wrap.
- Overflow of the drop counters and of the counts in a buffer, which are unbounded here.
- Overflow of `int64` in the weights and totals of a tree, which are unbounded here; only the conversion of a decoded value to `int64` wraps.
- Poisoned mutexes: a lock that is taken is given back.
- Scheduling: that a thread which can go on does so in the end is not modelled; progress is a bound on the steps of its own, whatever others do.
- Option validation, Python hook patching and other PyO3 glue.
- `threads::install` after a fork, which clears the live map on a changed process id and registers the threads anew.
- Live threads are taken to have distinct thread ids, and the thread hooks and `attach` to run one after the other under the GIL.
- The signal profiler in a forked child, which the source does not make fork-safe either: `SignalSession` has no fork. A fork from within a call into the extension, other calls into it before the fork hook has run, and forks without Python's hooks are not modelled.
- Samples recorded after the agent's last snapshot, which the code drops: conservation counts them as still buffered.
- Go slices: capacity and the aliasing of slices of children that share an array are not modelled; lists of children are values that are reassigned.
- `sort.Slice` is an insertion sort here, of which only some order by name is promised; the function given to `FormatNodeNames` has no effects.
- `IterateStacks`, `WriteCollapsed` and `String`, which only read the tree.
- TreeMerge.Merge: the two trees share no node, or all of them (`TreeShared.MergeShared`); trees that share some, as after a takeover and a later insertion at the roots, are left out. With a shortcut and negative weights, or sums that do not add up, only order and total are promised.
- TreeMin.MinValue: totals add up and no own weight is negative, as `Total` and the skipping of subtrees presuppose.
- TreeUnmarshal.UnmarshalTree: what `make` accepts as a number of children is a parameter; a panic of the program is an outcome, `Panics`.
- Encode.Encode: with exactly as many distinct strings as the table can hold, whether there is a profile depends on the order of the hash maps, because adding a string asks for room before it looks the string up: there is one if and only if the last string that is added is new. The model says nothing about that case.
- Pipeline.SamplesAreConserved: the emitted weight is in range and the sample rate is between 1 and 10^9; both are conditions of the reporter's step.
- Handler.RunHandler: nobody else touches the ring during the run; `SamplesAreConserved` covers interleaved handlers.
