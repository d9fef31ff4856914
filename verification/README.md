# CUBS2 flight control: a Dafny model of its protocols and loops

CUBS2 is a fixed-wing autopilot. Its 50 Hz controller runs a generated outer-loop model; query threads change
parameters and the route while it flies; in simulation it runs in lockstep with a plant in another process. This
project models the code that has to be right between those parties and proves what it keeps over whole runs.

## What is modelled

**Runtime control** (`src/runtime_control.c`). Any number of query threads run `param_set`, `param_get` and
`trajectory_set`; one controller runs `apply` and `restore` and never blocks.

- `atomic_double.dfy`: the shared double, two 32-bit halves under a sequence counter, one function per atomic
  operation.
- `staging_system.dfy`: the step machine. One step is one atomic operation of one handler or of the controller.
  Requests arrive at any time, the model may be stepped or re-initialised at every cycle boundary.
- `atomic_staging.dfy`: what the code promises, as a machine with indivisible operations over a log of committed
  values per parameter and a log of accepted route requests.
- `staging_invariant.dfy`, `staging_refinement.dfy`: the invariant and the forward simulation between the two.
- `staging_theorems.dfy`: what follows for runs. `staging_progress.dfy`: bounds on a party's own operations.
- `load_history.dfy`, `staging_reads.dfy`: whole calls of the try-load, and why a `param_get` or an apply may fail to
  read.
- `staging_apply.dfy`: what an apply picks up beside running writers; `staging_ungrouped.dfy`: a run in which it takes
  a later request and leaves an earlier one.
- `staging_calls.dfy`: whole calls of the handlers, when they are turned away and what they do when they are not;
  `staging_replies.dfy`: what they reply.
- `uninterrupted.dfy`: what the operations compute when nobody interferes; reset refinement and route laws.
- `staging_alone.dfy`: the handlers and apply of the step machine, run without interference or beside suspended
  writers, compute exactly that. `staging_reset.dfy`: so does restore, and a reset at any cycle boundary of any run
  leaves no trace. `staging_routes.dfy`: the route laws at every step of a run that writes a route.
- `runtime_control.dfy`: class `Control`, the same operations in place on arrays and fields with the loops of the C
  functions, each proved against the functions of `uninterrupted.dfy`.

**Lockstep** (`tests/zephyr/fmi3_lockstep_runner.c`, `tools/fastdyn_bridge/src/main.rs`,
`subsys/lockstep/lockstep.c`). `lockstep.dfy` has the two-party system (runner and firmware on one memory) and the
three-party system (runner, bridge, firmware on two memories). Buffers are copied one byte per step, sequence numbers
wrap at 2^32. The bridged system is shown to refine the direct one. `lockstep_shutdown.dfy` continues its runs through
shutdown, with the runner's two last stores as two steps. `lockstep_progress.dfy`: that exchanges complete, on one
memory and through the bridge.

**Control loops** (`src/main_sil.c`, `src/main_realtime.c`). `step_gate.dfy` is the 20 ms gate with its 64-bit
arithmetic; `control_loops.dfy` the mode switch, held outputs and warm-up counter of both loops; `pacing.dfy` the
absolute-period pacing and the mission broadcast.

**Runner and tools** (`tests/zephyr`). `runner_config.dfy` and `runner_config_roundtrip.dfy` are the configuration
writer in Python against the parser in C, down to the `fgets` buffer; `runner_config_format.dfy` is the text in
characters and numbers. `runner_loop.dfy` is the record loop in any arithmetic; `runner_room.dfy` says when its buffer
has room in exact arithmetic, `runner_doubles.dfy` in binary64, with `binary64.dfy` for rounding and `double_sums.dfy`
for the sum of 4600 steps; `real_numbers.dfy` has fmin, fmax and fabs. `nearest_rows.dfy` is the stateful row cursor
against a search of all rows.

## Assumptions

- Interleavings of atomic operations are sequentially consistent. The memory orders of section 7.17.3 of
  ISO/IEC 9899:2011 and the Rust fences are not modelled.
- A counter is kept as the number of its increments; the machine compares only the remainder modulo 2^32. Theorems
  over runs take `Unwrapped`: fewer than 2^31 stores (or route commits) happen while one read attempt is in flight.
- A step of the generated controller writes neither tunables nor route tables, re-initialising it always gives the
  same state, and in that state a parameter's field and its mirror agree. These are the labels `ModelStep` and
  `Reset`.
- Doubles are 64-bit patterns; a route coordinate has already been widened from the float of the request, so that its
  finiteness is that of the double.
- `cerebri_lockstep_sequence_wait` and `cerebri_lockstep_sequence_respond` are not part of this model's sources: the
  wait returns once the request sequence differs from the last one seen, the response stores the seen one. Both
  memories start zeroed, with the bridge connected before or after the first request.
- The firmware stamps its reply with the odometry's own timestamp (`src/main_sil.c:205-211`,
  `src/main_sil.c:304-308`), the first eight bytes of either structure. A control cycle is otherwise any function of
  what it read.
- The csyn axis helpers answer 1000 to 2000. The switch channel is one of sixteen.
- The runner loop rounds with any function; exact reals and binary64 are two of them. Rounding is to nearest with ties
  to even, as in section 4.3.1 of IEEE Std 754-2019, with subnormals and without overflow. The plant is any function;
  the loop's checks on its answers are modelled. The row cursor uses exact arithmetic.
- A character of the configuration text is one byte.

## Where the code differs from what one might expect

- Different `param_set` requests are not grouped: an apply may take a later one and leave an earlier one for the next
  cycle (`StagingUngrouped.LaterTakenEarlierLeft` is the input). The comment at `src/runtime_control.c:620-622` reads
  otherwise. What holds, whatever writers do meanwhile, is stated per parameter and per route: what is flagged when
  apply starts is picked up by that apply (`StagingApply.FlaggedIsPickedUp`, `StagingApply.FlaggedRouteIsPickedUp`)
  unless it postponed it, which for a parameter takes a `param_set` of that very parameter inside its store during
  each of the three attempts (`StagingApply.PickedUpUnlessOverlapped`) and for the route a `trajectory_set` inside its
  commit (`StagingReads.ApplyPostponesRouteOnlyOnOverlap`).
- In the simulation loop an automatic cycle with good odometry and no step due keeps the frame of an earlier cycle,
  which may be a manual or idle one. `SilLoop.Provenance` says exactly which.
- In the very last cell of the 64-bit clock the next cell start wraps to a small number. There once per cell, as many
  firings as cells, and increasing cells are false: `StepGate.LastCellFiresTwice` and `StepGate.WrapFiresBackwards`
  are the inputs, `StepGate.OncePerCellExactly`, `StepGate.FiringsCountCells` and
  `StepGate.FiringCellsIncreaseExactly` the exact conditions.
- The runner's record buffer can run out: shortfalls that pass the runner's own check add up. In exact arithmetic
  there is room for every plant that falls short by at most e a step if and only if e is at most 1e-12 and
  ceil(t_end / 0.02) such shortfalls lose no more than 1e-12 and the slack of the last step (`RunnerRoom.RoomExactly`;
  where t_end is at most 1, the check admits no shortfall above 1e-12 and e counts as no more than that). The rounding
  of the sum is such a plant: in binary64, with t_end = 92 and a plant that reaches every requested time, the time
  after 4600 steps is more than 1e-12 short of 92 and the runner asks for one record too many
  (`RunnerDoubles.RunsOutAt92`). Up to 91 s, which includes the default of 40 s, such a plant never does
  (`RunnerDoubles.HasRoomUpTo91`). `RunnerLoop.RoomLeft` is the condition that suffices in any arithmetic.
- A configuration within every array limit can fail to come back: 128 names of 127 characters overrun the line buffer
  (`RunnerConfigRoundTrip.FullNameTableIsLost`). `RunnerConfigRoundTrip.RoundTrip` gives the exact condition. Also, a
  value reference made of blanks only reads as 0, because the end pointer is compared with the untrimmed item
  (`RunnerConfigRoundTrip.BlankReadsAsZero`), and some large negative references are accepted, because `strtoul`
  counts them down from 2^64 (`RunnerConfigFormat.SignedItem`).
- The runner shuts down with two stores, `terminate` and then one more input number. A bridge that is between its
  terminate check and its read of the input number when the second is stored takes the last odometry a second time; a
  bridge that read the number in between does not. `BridgedShutdown.ReplayHappens` is a run of the first kind.
  Transparency is claimed up to the first store; `BridgedShutdown.ReplayExactlyWhenListening` says when the replay
  happens and `BridgedShutdown.AtMostOneMore` that it happens at most once.

## Model

| member | source | states |
|---|---|---|
| `AtomicDouble.StoreAdvances` | src/runtime_control.c:135-145 | through the four operations of a store the counter is odd exactly from the first to the last, and at the end the slot holds the stored double bit for bit |
| `AtomicDouble.LoadAdvances` | src/runtime_control.c:147-171 | a load attempt that succeeds returns the value the settled slot holds at that moment, joined from its two halves |
| `AtomicDouble.FailureMeansOverlap` | src/runtime_control.c:147-171 | an attempt fails only if a store was inside the slot during it |
| `LoadHistory.SuccessIsCurrent` | src/runtime_control.c:147-171 | a call of the try-load that succeeds, among any operations of others, returns what the slot holds at its last operation, with no store inside |
| `LoadHistory.FailureMeansStores` | src/runtime_control.c:147-171 | a call that gives up met a store inside the slot in every one of its three attempts |
| `AtomicStaging.NextAfter` | src/runtime_control.c:546-551 | skipping 0 on wrap, the n-th acceptance leads from version 1 + (n - 1) mod (2^32 - 1) to 1 + n mod (2^32 - 1) |
| `StagingRefinement.Step` | src/runtime_control.c:404-689 | every operation of every party keeps the full invariant and is one allowed operation of the atomic machine, or none |
| `StagingTheorems.RunRefines` | src/runtime_control.c:404-689 | every run, under any interleaving of any number of handlers with the controller, mirrors a run of the atomic machine |
| `StagingTheorems.RoutesAreCommits` | src/runtime_control.c:533-552 | the latest entry of the route log is the request of the last trajectory_set that closed the mission sequence |
| `StagingTheorems.RouteAtomicity` | src/runtime_control.c:639-671 | each route that reaches the model has all 21 coordinates and its segment count from one validated request, the latest committed one, in both tables and in the applied record |
| `StagingTheorems.LogIsCommits` | src/runtime_control.c:404-413 | the latest entry of a parameter's log is the value of the last completed store by a param_set of that parameter, or the initial value if there was none |
| `StagingTheorems.ValueAtomicity` | src/runtime_control.c:623-637 | a value the controller takes is the latest committed one and reaches field and mirror |
| `StagingTheorems.GetIsLinearizable` | src/runtime_control.c:445-452 | an accepted param_get answers what its slot holds at its last operation, with no store inside the slot |
| `StagingTheorems.NothingIsLost` | src/runtime_control.c:623-671 | between any two operations of a run, the last commit of each parameter and the last route is in force, flagged, about to be flagged by its writer, held by a controller still deciding, or on record for the restore under way |
| `StagingTheorems.InCommitOrder` | src/runtime_control.c:623-671 | logs only grow and the position the controller flies with never goes back |
| `StagingTheorems.CacheAgrees` | src/runtime_control.c:623-637 | at every cycle boundary, what param_get would report is the model field and its mirror, for all 28 parameters |
| `StagingTheorems.AcceptedVersion` | src/runtime_control.c:525-556 | an accepted trajectory_set stands last in the log of accepted requests; as the n-th it replies with version 1 + n mod (2^32 - 1), never 0, and every accepted nonzero expected version is the one just before its own commit |
| `StagingTheorems.OneWinner` | src/runtime_control.c:525-532 | two accepted requests that name the same version lie at least 2^32 - 1 acceptances apart |
| `StagingCalls.RejectedExactlyForCause` | src/runtime_control.c:404-549 | a call is turned away if and only if one of its own operations found the lock taken, the named version stale, or its slot busy in three attempts |
| `StagingCalls.RejectionLeavesNoTrace` | src/runtime_control.c:518-532 | in every run, a call that is turned away changed nothing staged, no flag and no version by any operation between request and reply, and committed nothing |
| `StagingCalls.AcceptedTakesEffectOnce` | src/runtime_control.c:404-556 | in every run, an accepted param_set or trajectory_set has exactly one commit between request and reply, of its own value or route |
| `StagingReplies.EveryReply` | src/runtime_control.c:398-556 | in every run: param_set replies with its own number, detail -4 exactly if it met the lock, else 0; trajectory_set replies with the version in force, detail -5 exactly if it met the lock, -4 only if it names another version, else 0; param_get replies with the number in its slot and 0, or with -3 and 0 |
| `StagingReads.GetFailsOnlyOnOverlap` | src/runtime_control.c:445-449 | in every run, a param_get is turned away with -3 only when the controller was inside its slot during each of its three attempts |
| `StagingReads.ApplyPostponesOnlyOnOverlap` | src/runtime_control.c:628-632 | in every run, apply flags a parameter again only when the holder of the lock was inside the store to that very parameter during each of the three attempts |
| `StagingReads.ApplyPostponesRouteOnlyOnOverlap` | src/runtime_control.c:642-666 | in every run, apply flags the route again only when a trajectory_set had the mission sequence odd while apply was reading |
| `StagingApply.FlaggedIsPickedUp` | src/runtime_control.c:623-637 | in every run, whatever writers do during it, an apply that starts with a parameter flagged ends with field and mirror at a commit no older than the latest one of that start, unless it postponed that parameter |
| `StagingApply.FlaggedRouteIsPickedUp` | src/runtime_control.c:639-671 | the same for the route: both tables are those of a request accepted no earlier than the latest one of that start, unless apply postponed the route |
| `StagingApply.PickedUpUnlessOverlapped` | src/runtime_control.c:611-637 | a parameter flagged when apply starts is picked up by that apply unless a param_set of that very parameter was inside its store during each of the three attempts |
| `StagingUngrouped.LaterTakenEarlierLeft` | src/runtime_control.c:620-638 | a run in which param_set of parameter 0 and then of parameter 1 are accepted during one apply, which ends with 1 taken and 0 still flagged and not flown |
| `StagingProgress.ControllerBounded` | src/runtime_control.c:611-689 | under every schedule an apply takes at most 733 operations of the controller and a restore at most 113, however long others are suspended |
| `StagingProgress.HandlerBounded` | src/runtime_control.c:404-556 | under every schedule a handler replies after at most 92 operations of its own |
| `StagingAlone.AloneIsApply` | src/runtime_control.c:611-672 | the operations of apply, run alone from any shared data, amount to Apply |
| `StagingReset.AloneIsRestore` | src/runtime_control.c:674-689 | the operations of restore, run alone from any shared data, amount to RestoreAll |
| `StagingReset.BoundaryAgrees` | src/runtime_control.c:623-671 | at every cycle boundary of every run, field, mirror, answer and applied record agree, and both tables are those of the applied route, or all is as initialised |
| `StagingReset.ResetIsUndone` | src/runtime_control.c:674-689 | re-initialising the model at any boundary of any run and restoring, beside readers and suspended writers, brings back all tunables, both tables and all answers; the active leg is then the model's initial one, or the first or last leg of the route in force if that has no such leg |
| `StagingReset.ResetRefines` | src/main_sil.c:367-375 | at any boundary of any run, re-initialise, restore and apply end with the tunables, tables, flags, records and answers of an apply taken there without the reset, whatever is staged and wherever writers are suspended; only the active leg is clamped anew |
| `StagingRoutes.RoutesWellFormed` | src/runtime_control.c:179-204 | in every run, after each apply and each restore of a route both tables agree and hold its rows, rows past the last waypoint repeating it, 1 <= segments <= 6, and all four copies of the active leg are the leg before, or leg 1 if that was smaller, or the last leg of the route if that was larger; the end index is the next row, and applying again changes nothing |
| `StagingRoutes.TablesStay` | src/runtime_control.c:179-204 | at every cycle boundary the tables are the well-formed ones of the route applied last |
| `StagingAlone.AloneIsStageValue` | src/runtime_control.c:404-413 | the operations of param_set, run alone, amount to StageValue |
| `StagingAlone.AloneIsStageRoute` | src/runtime_control.c:517-552 | the operations of trajectory_set, run alone, amount to StageRoute, or to nothing when the named version is stale |
| `StagingAlone.ApplyBesideSuspended` | src/runtime_control.c:611-672 | beside writers suspended anywhere, even inside a store or a commit, apply ends with Apply of what it found |
| `StagingAlone.QuietApplyCatchesUp` | src/runtime_control.c:611-672 | one apply with no writer in its critical section makes fields, mirrors, live values and both tables the last commits, and leaves nothing pending |
| `StagingAlone.SuspendedParamSet` | src/runtime_control.c:623-671 | with a param_set stuck inside its store, apply leaves field, mirror, answer, record and flag of that parameter as they were, takes every other flagged parameter and a flagged route, and touches nothing else |
| `StagingAlone.SuspendedTrajectorySet` | src/runtime_control.c:645-666 | with a trajectory_set stuck inside its commit, apply leaves tables, all copies of the active leg, end index, record and flag of the route as they were, and takes every flagged parameter |
| `Uninterrupted.ApplyValuesFields` | src/runtime_control.c:623-638 | the value loop of apply takes each flagged readable parameter everywhere and touches nothing else |
| `Uninterrupted.RestoreValuesFields` | src/runtime_control.c:679-685 | the value loop of restore puts back each recorded parameter and touches nothing else |
| `Uninterrupted.SetThenApply` | src/runtime_control.c:404-417 | a staged value is what the next apply flies and what param_get then answers; other unflagged parameters keep theirs |
| `Uninterrupted.SetRouteThenApply` | src/runtime_control.c:533-545 | a staged route is the route the next apply puts in force and records |
| `RuntimeControl.Control.constructor` | src/runtime_control.c:576-602 | init stages and shows the model's own values, with nothing flagged, version 1 and no route |
| `RuntimeControl.Control.StoreDouble` | src/runtime_control.c:135-145 | the four operations in place are one complete store |
| `RuntimeControl.Control.TryLoadDouble` | src/runtime_control.c:147-171 | without interference the load fails exactly on a slot left odd by a suspended store, else gives its value |
| `RuntimeControl.Control.WriteValue` | src/runtime_control.c:173-177 | one parameter is written to field and mirror, nothing else |
| `RuntimeControl.Control.FillTables` | src/runtime_control.c:186-194 | the nested loops make both tables the clamped table of the waypoints |
| `RuntimeControl.Control.WriteRoute` | src/runtime_control.c:179-204 | apply_route in place is ApplyRoute, whose laws StagingRoutes.RoutesWellFormed states over runs |
| `RuntimeControl.Control.TakePending` | src/runtime_control.c:624-637 | one parameter of apply, with the flag raised again when the load fails |
| `RuntimeControl.Control.ReadWaypoints` | src/runtime_control.c:647-656 | the route is read completely exactly if every staged coordinate is settled, and then holds their values |
| `RuntimeControl.Control.TakeMission` | src/runtime_control.c:639-671 | the route part of apply, with the flag raised again when the route could not be read |
| `RuntimeControl.Control.AdoptRoute` | src/runtime_control.c:667-670 | the route read goes to the model and, unchanged, into the applied record |
| `RuntimeControl.Control.Apply` | src/runtime_control.c:611-672 | apply in place is Apply, what the step machine does alone |
| `RuntimeControl.Control.PutBack` | src/runtime_control.c:680-684 | one parameter of restore |
| `RuntimeControl.Control.PutBackRoute` | src/runtime_control.c:686-688 | the recorded route, if any, goes back to the model |
| `RuntimeControl.Control.Restore` | src/runtime_control.c:674-689 | restore in place is RestoreAll, what the step machine does alone |
| `RuntimeControl.Control.ParamSet` | src/runtime_control.c:398-416 | -3 exactly for a number that is not finite (Words.FiniteBelowInfinity), -4 exactly for a busy lock, and then nothing changes; otherwise the value is staged and flagged |
| `Words.FiniteBelowInfinity` | src/runtime_control.c:398-402 | the finite doubles are exactly those whose pattern without the sign lies below that of infinity |
| `RuntimeControl.Control.ParamGet` | src/runtime_control.c:445-452 | the answer is the live value, or none exactly when a store is suspended in it |
| `RuntimeControl.Control.Decode` | src/runtime_control.c:480-515 | exactly the requests with 1 to 6 consistent legs pass; the failed leg is the first bad one; the waypoints are x, y and z of the start of leg 0 and of the end of each leg, then zeros, all finite |
| `RuntimeControl.Control.StoreWaypoints` | src/runtime_control.c:535-540 | each staged coordinate receives one complete store of its own waypoint coordinate |
| `RuntimeControl.Control.TrajectorySet` | src/runtime_control.c:480-556 | which of -2, -3, -5, -4 and 0 is replied, as conditions on the request, the lock and the version; only 0 changes anything, and then exactly the staged route, its flag and the version: what the staged cells read is x, y and z of the start of leg 0 and of the end of each leg, then zeros; the reply carries the version in force and, with -3, the first bad leg |
| `RuntimeControl.Control.CommitRoute` | src/runtime_control.c:517-556 | the critical section: lock, version check, staging, next version, unlock |
| `RuntimeControl.Control.ReplaceRoute` | src/runtime_control.c:533-545 | the staged route is replaced whole, between two bumps of the mission sequence, and flagged |
| `RuntimeControl.AllFinite` | src/runtime_control.c:497-515 | a request that passes the leg checks stages a route of finite coordinates and 1 to 6 segments |
| `RuntimeControl.GoodLegFields` | src/runtime_control.c:497-501 | a leg passes exactly if its number is its index, its frame is local ENU and its six coordinates, without their signs, lie below the pattern of infinity |
| `RuntimeControl.LegsReachTables` | src/runtime_control.c:505-515 | after the next apply both tables hold, row by row, the start of leg 0 and the end of each leg of the request, the last one repeated |
| `DirectLockstep.Step` | tests/zephyr/fmi3_lockstep_runner.c:527-557 | every operation of runner and firmware keeps who may write which buffer, across the wrap of the sequence |
| `DirectLockstep.ExchangesMatch` | subsys/lockstep/lockstep.c:68-103 | the k-th exchange the runner completes is the k-th the firmware handled, whole and stamped with its odometry; the firmware is ahead by at most the one in progress; that exchanges complete is DirectProgress.ExchangeCompletes |
| `DirectLockstep.NoTornOrStaleReply` | tests/zephyr/fmi3_lockstep_runner.c:549-556 | what the runner copied is the finished reply to its own odometry, and its staleness check never fires |
| `BridgedLockstep.Simulates` | tools/fastdyn_bridge/src/main.rs:340-358 | each operation of the three parties is one operation of the two-party system, or none |
| `BridgedLockstep.BridgeIsTransparent` | tools/fastdyn_bridge/src/main.rs:82-90 | every run through the bridge is, step for step, a run of runner and firmware on one memory |
| `BridgedLockstep.BridgedExchangesMatch` | tools/fastdyn_bridge/src/main.rs:169-204 | through the bridge too the runner's k-th exchange is the firmware's k-th, with no skip, duplicate or torn copy |
| `DirectProgress.RunProgress` | tests/zephyr/fmi3_lockstep_runner.c:535-556 | in every run, each operation other than the start of an exchange lowers a rank, except that a party between exchanges, or polling for a number that has not come, changes nothing |
| `DirectProgress.NeverStuck` | tests/zephyr/fmi3_lockstep_runner.c:535-556 | in every run, while an exchange is open some party has an operation that is not such a wait |
| `DirectProgress.ExchangeCompletes` | subsys/lockstep/lockstep.c:68-103 | from every state of every run with the runner idle, for every odometry and every reply with its stamp, there is a continuation that ends idle with exactly that exchange completed and handled |
| `BridgedProgress.RunProgress` | tools/fastdyn_bridge/src/main.rs:169-204 | the same rank for the three parties; a wait changes nothing, or the bridge goes on looking for a request that is not there |
| `BridgedProgress.NeverStuck` | tools/fastdyn_bridge/src/main.rs:340-358 | in every run, while an exchange is open and the bridge has not given up some party has an operation that is not a wait |
| `BridgedProgress.ExchangeCompletes` | tools/fastdyn_bridge/src/main.rs:340-358 | from every state of every run with the runner idle and the bridge still there, any odometry can be exchanged for any reply with its stamp through the bridge, which is still there at the end |
| `BridgedProgress.ExchangeIsShort` | tools/fastdyn_bridge/src/main.rs:169-204 | under every schedule, after the start of an exchange at most 686 operations of the three parties together are not waits, and at most 684 while it is open |
| `Lockstep.StampIsEightBytes` | tests/zephyr/fmi3_lockstep_runner.c:552 | two payloads have the same stamp exactly if their first eight bytes are the same |
| `DirectLockstep.RunHoldsLast` | tests/zephyr/fmi3_lockstep_runner.c:535-556 | between exchanges the buffer holds the odometry the firmware handled last |
| `BridgedShutdown.AtMostOneMore` | tests/zephyr/fmi3_lockstep_runner.c:753-758 | whatever is under way when terminate is stored, at most one more exchange is handled, with the odometry posted last; with nothing under way that is the odometry of the exchange before |
| `BridgedShutdown.ReplayExactlyWhenListening` | tests/zephyr/fmi3_lockstep_runner.c:755-756 | with nothing under way at terminate, the bridge posts one more request before it stops if and only if it is past its terminate check with the input number still to read when the bump is stored |
| `BridgedShutdown.ReplayHappens` | tests/zephyr/fmi3_lockstep_runner.c:755-756 | a run in which the bridge is listening when the second store is made, with nothing under way at the first |
| `BridgedShutdown.ReplayIsHandledOnce` | tools/fastdyn_bridge/src/main.rs:342-358 | unless the bridge times out, that request is handled exactly once, with the last odometry again, and otherwise nothing is |
| `BridgedShutdown.BridgeStops` | tools/fastdyn_bridge/src/main.rs:342-358 | after terminate the bridge moves on at most 341 times, and stays in place only stopped or polling for an answer that has not come |
| `StepGate.Gate.StepDue` | src/main_sil.c:217-231 | the gate in place is Due and After, in 64-bit arithmetic |
| `StepGate.GateState` | src/main_sil.c:217-231 | after nondecreasing samples the gate is shut until the cell after the last sample's |
| `StepGate.FiresOncePerCell` | src/main_realtime.c:110-119 | it fires exactly on the first sample of each visited cell, and on every sample of the clock's last cell |
| `StepGate.FiresInMicroseconds` | src/main_sil.c:217-231 | before the last 20 ms of the clock a sample fires exactly if no earlier one has as many whole 20000 us in it |
| `StepGate.EverySecondSample` | src/main_realtime.c:621-627 | plant samples 10 ms apart let the model step at exactly every second one |
| `StepGate.OncePerCellExactly` | src/main_sil.c:217-231 | once per cell holds if and only if no sample but the last one lies in the clock's last cell |
| `StepGate.LastCellFiresTwice` | src/main_sil.c:223-225 | an input on which once per cell fails |
| `StepGate.FiringsExceedCells` | src/main_sil.c:217-231 | for nondecreasing samples the firings are the distinct cells visited plus the further samples in the clock's last cell |
| `StepGate.FiringsCountCells` | src/main_sil.c:217-231 | the number of firings is the number of distinct cells visited if and only if no sample but the last one lies in the clock's last cell |
| `StepGate.FiringCellsIncreaseExactly` | src/main_realtime.c:110-119 | over samples in any order the cells that fire strictly increase if and only if every sample after one in the clock's last cell comes before the wrapped cell start |
| `StepGate.WrapFiresBackwards` | src/main_sil.c:223-225 | an input on which a smaller cell fires after a larger one |
| `WarmUp.CounterIsHistory` | src/main_sil.c:367-393 | the counter is the saturated number of model steps since the last reset event |
| `WarmUp.WarmExactly` | src/main_sil.c:246-248 | the count is two or more exactly if there were two model steps with no reset event in between or since |
| `WarmUp.CountedExactly` | src/main_sil.c:243-245 | the count is one or more exactly if there was a model step with no reset event since |
| `Channels.ManualControlValid` | src/main_sil.c:137-149 | a manual frame is valid exactly if it is flagged so and channels 0 to 4 and the switch lie in 900..2100 |
| `SilLoop.Loop.constructor` | src/main_sil.c:317-327 | the loop starts with a zero frame, an open gate, no steps and manual as previous mode |
| `SilLoop.Loop.RunCycle` | src/main_sil.c:366-396 | the loop body in place is Cycle; the frame is the manual one, the idle one, the output or the one before, each with its condition on the inputs |
| `SilLoop.FrameIs` | src/main_sil.c:137-161 | after every cycle of every run the frame is the manual one exactly if the override is configured, the frame flagged valid, channels 0 to 4 and the switch within 900..2100 and the switch not above the threshold; else throttle and stabilizer at 1000 and the others at 1500 exactly if the odometry is bad; else the output exactly if the gate over all times so far fires; else the frame before |
| `SilLoop.Provenance` | src/main_sil.c:366-396 | after every cycle the published frame is a model output of a cycle in which the gate fired, the idle frame of one with bad odometry or the manual frame of one in which manual flight was wanted, held by every cycle since |
| `SilLoop.OutputSafe` | src/main_sil.c:112-161 | from the first cycle on channels 0 to 4 lie in 900..2100 |
| `SilLoop.StepsAreCounter` | src/main_sil.c:367-393 | the loop's counter is the warm-up counter of the run's automatic entries, model steps and losses of odometry, each written out on the inputs |
| `SilLoop.AttitudeValidExactly` | src/main_sil.c:233-251 | the attitude is flagged valid exactly if it is finite, the odometry is good now, and there was a model step with no automatic entry and no bad odometry in automatic flight since |
| `SilLoop.RatesValidExactly` | src/main_sil.c:233-251 | rates are flagged valid exactly if they are finite, the odometry is good now, and there were two such steps |
| `RealtimeLoop.Loop.RunCycle` | src/main_realtime.c:617-648 | the loop body in place is Cycle; the frame is the manual one, the output or the idle one, each with its condition on the inputs |
| `RealtimeLoop.OutputSafe` | src/main_realtime.c:639-648 | after every cycle of every run the frame is this cycle's manual frame exactly if manual flight is wanted (override, valid flag, ranges and threshold written out), else this cycle's output exactly if the pose is valid, else the idle frame; channels 0 to 4 lie in 900..2100 |
| `RealtimeLoop.StepsAreCounter` | src/main_realtime.c:628-637 | the loop's counter is the warm-up counter of the run's due cycles with a valid pose and of its invalid poses |
| `RealtimeLoop.AttitudeValidExactly` | src/main_realtime.c:185-208 | the attitude is flagged valid exactly if it is finite, the pose is recent, and there was a due cycle with a valid pose and the pose was valid ever since |
| `RealtimeLoop.RatesValidExactly` | src/main_realtime.c:185-208 | rates are flagged valid exactly if they are finite, the pose is recent, and there were two such cycles |
| `Pacing.Pacer.Advance` | src/main_realtime.c:657-661 | the deadline moves on by one period, or to the clock if the test reading is more than three periods past the old one |
| `Pacing.DeadlinesKeepPeriod` | src/main_realtime.c:657-661 | deadlines j - i cycles apart lie at least j - i periods apart, resynchronised or not |
| `Pacing.RateBound` | src/main_realtime.c:592-661 | for any cycle durations and late wake-ups, (j - i) periods fit into the time from wake i to wake j plus three periods |
| `Pacing.BurstOfThree` | src/main_realtime.c:657-660 | the three periods of the bound are reached |
| `Pacing.NoDrift` | src/main_realtime.c:593-597 | if no test reading is more than three periods past its deadline, the k-th deadline is exactly k periods after the start |
| `MissionBroadcast.Broadcaster.Update` | src/main_realtime.c:401-443 | the broadcast in place is Sent and After |
| `MissionBroadcast.LegsInTurn` | src/main_realtime.c:401-443 | however the length of the route changes from cycle to cycle, an item goes out exactly in every tenth cycle that has a route, is a leg below the length of that cycle with its first and final flags, and is the leg after the one sent before, or the first if that is past the end |
| `MissionBroadcast.RoundRobin` | src/main_realtime.c:401-443 | with a route of constant length the n-th leg sent is leg (first + n) mod total |
| `MissionBroadcast.SilentBetween` | src/main_realtime.c:401-404 | the nine cycles between two items send nothing |
| `MissionBroadcast.EachLegOnce` | src/main_realtime.c:410-443 | within one round every leg has exactly one turn |
| `RunnerConfig.TrimLoop` | tests/zephyr/fmi3_lockstep_runner.c:110-123 | the loops of trim give Trim |
| `RunnerConfig.ParseVrsLoop` | tests/zephyr/fmi3_lockstep_runner.c:125-147 | the token loop of parse_vrs gives ParseVrs, refusals included |
| `RunnerConfig.ParseNamesLoop` | tests/zephyr/fmi3_lockstep_runner.c:149-165 | the token loop of parse_names gives ParseNames, refusals included |
| `RunnerConfig.LoadLoop` | tests/zephyr/fmi3_lockstep_runner.c:167-224 | the line loop of load_config gives Load, refusals included |
| `RunnerConfigRoundTrip.DecimalValue` | tests/zephyr/run_native_sim_zenoh_sil.py:393-397 | the decimal digits printed for a number have that number as their value |
| `RunnerConfigRoundTrip.ItemRoundTrip` | tests/zephyr/fmi3_lockstep_runner.c:139-143 | a printed value reference is read back as itself |
| `RunnerConfigRoundTrip.BlankReadsAsZero` | tests/zephyr/fmi3_lockstep_runner.c:139-143 | any value reference made of blanks only, though it holds no digit, is accepted and reads as 0 |
| `RunnerConfigRoundTrip.TokensOfJoin` | tests/zephyr/fmi3_lockstep_runner.c:131 | splitting at commas undoes joining with commas |
| `RunnerConfigRoundTrip.TokensOfAnyJoin` | tests/zephyr/fmi3_lockstep_runner.c:131 | splitting any list at commas gives its items in order, except that empty ones vanish |
| `RunnerConfigFormat.TrimIs` | tests/zephyr/fmi3_lockstep_runner.c:110-123 | trim cuts only blanks, tabs, returns and newlines off both ends, and leaves none there |
| `RunnerConfigFormat.SignedItem` | tests/zephyr/fmi3_lockstep_runner.c:139-143 | a reference may carry a sign; of the negative numbers exactly -0 and those from -(2^64 - 1) to -(2^64 - 2^32 + 1) are accepted, the latter as 1 to 2^32 - 1 |
| `RunnerConfigFormat.SkipsSpace` | tests/zephyr/fmi3_lockstep_runner.c:140 | leading blanks, tabs, newlines, vertical tabs, form feeds and returns do not change what strtoul gives |
| `RunnerConfigFormat.JunkIsRefused` | tests/zephyr/fmi3_lockstep_runner.c:140-143 | digits followed by anything but blanks are refused |
| `RunnerConfigFormat.WordIsRefused` | tests/zephyr/fmi3_lockstep_runner.c:140-143 | an item that starts, after blanks, with anything but a digit, a sign or space is refused |
| `RunnerConfigFormat.PaddedLine` | tests/zephyr/fmi3_lockstep_runner.c:186-187 | blanks, tabs and returns around a key and its value do not matter |
| `RunnerConfigFormat.OtherLine` | tests/zephyr/fmi3_lockstep_runner.c:178-218 | a line that fits and has no equals sign or none of the five keys changes nothing |
| `RunnerConfigRoundTrip.OneLine` | tests/zephyr/fmi3_lockstep_runner.c:178-187 | a written line that fits the buffer, with its newline or just without, is read as its key and value |
| `RunnerConfigRoundTrip.ReadsBack` | tests/zephyr/run_native_sim_zenoh_sil.py:389-399 | every configuration within the limits is read back exactly as it was written |
| `RunnerConfigFormat.FormatIs` | tests/zephyr/run_native_sim_zenoh_sil.py:389-399 | the same with the text written out, key by key |
| `RunnerConfigFormat.LimitsAre` | tests/zephyr/fmi3_lockstep_runner.c:126-224 | the limits in numbers: a token of 1 to 255, 9 inputs, 18 odometry references, 1 to 128 traces each with a name of 1 to 127, references below 2^32, names that join to at most 16371 |
| `RunnerConfigRoundTrip.LoadsOnlyLoadable` | tests/zephyr/fmi3_lockstep_runner.c:167-224 | whatever text is accepted, the configuration lies within the limits |
| `RunnerConfigRoundTrip.RoundTrip` | tests/zephyr/fmi3_lockstep_runner.c:167-224 | a configuration is read back as written if and only if it lies within the limits, which include the length of the joined names |
| `RunnerConfigRoundTrip.LoadedIsStable` | tests/zephyr/fmi3_lockstep_runner.c:167-224 | a configuration accepted from any text is accepted unchanged once written out |
| `RunnerConfigRoundTrip.FullNameTableIsLost` | tests/zephyr/fmi3_lockstep_runner.c:170 | 128 names of 127 characters never come back |
| `RunnerLoop.Run` | tests/zephyr/fmi3_lockstep_runner.c:594-691 | in any arithmetic and for any plant the loop ends; record k carries the plant's time and sequence numbers 3k+1, 3k+2, 3k+3; which exchange or step failed, that a finished run stopped at the first record not due, and that the capacity is exceeded if and only if every record that fits was exchanged, due and stepped from |
| `RunnerLoop.RoomLeft` | tests/zephyr/fmi3_lockstep_runner.c:598-626 | in any arithmetic, if ceil(t_end / step) steps that each fall short by e still reach the last time that is due, no plant that falls short by at most e a step makes the buffer run out, whatever else happens |
| `RunnerRoom.RoomExactly` | tests/zephyr/fmi3_lockstep_runner.c:598-679 | in exact arithmetic the buffer has room for every plant that falls short by at most e a step if and only if the shortfalls fit, a condition on t_end and e alone |
| `RunnerRoom.ExactTimes` | tests/zephyr/fmi3_lockstep_runner.c:659-681 | with a plant that returns the exact requested time record k is at min(0.02 k, t_end), simulated time agrees, and a run that ends has simulated t_end to within 1e-12 |
| `RunnerRoom.ExactHasRoom` | tests/zephyr/fmi3_lockstep_runner.c:598-626 | with such a plant the capacity-exceeded branch is unreachable, for every t_end |
| `RunnerRoom.RecordsStayClose` | tests/zephyr/fmi3_lockstep_runner.c:659-680 | in exact arithmetic and with any plant, record n is within n tolerances of min(0.02 n, t_end) on either side, and every step before it was answered with OK |
| `RunnerDoubles.Constants` | tests/zephyr/fmi3_lockstep_runner.c:621-660 | the step and the tolerance of the binary64 loop are the doubles nearest to 0.02 and 1e-12 |
| `Binary64.RoundIsNearest` | tests/zephyr/fmi3_lockstep_runner.c:660-680 | the rounding of the sums: no double of its binade is nearer than the result, of two equally near the even one is taken, and signs do not matter |
| `RunnerDoubles.TimesAreSums` | tests/zephyr/fmi3_lockstep_runner.c:660-680 | in binary64, as long as no step is cut short by t_end, the time of record k is the k-fold rounded sum of the step |
| `RunnerDoubles.RunsOutAt92` | tests/zephyr/fmi3_lockstep_runner.c:616-626 | in binary64, with t_end = 92 and a plant that reaches every requested time, all 4601 records that fit are exchanged, due and stepped from, so the capacity is exceeded |
| `RunnerDoubles.HasRoomUpTo91` | tests/zephyr/fmi3_lockstep_runner.c:598-626 | in binary64, with such a plant and any t_end up to 91, the capacity is never exceeded |
| `RunnerDoubles.DueTimesAreNominal` | tests/zephyr/fmi3_lockstep_runner.c:659-681 | in such a run every record that is due is within 5e-12 s of 0.02 k |
| `NearestRows.Cursor.Nearest` | tests/zephyr/run_native_sim_zenoh_sil.py:818-824 | the cursor in place is Advance, and answers nothing for no rows |
| `NearestRows.AdvanceFindsLastNearest` | tests/zephyr/run_native_sim_zenoh_sil.py:822-824 | from any row at or before it, the loop stops at the last row nearest to the query |
| `NearestRows.LastNearestMonotone` | tests/zephyr/run_native_sim_zenoh_sil.py:813-826 | later queries have later last nearest rows |
| `NearestRows.CursorIsSearch` | tests/zephyr/run_native_sim_zenoh_sil.py:891-898 | for sorted rows and queries, every answer is the last row minimising the time distance over all rows |
| `NearestRows.TotalMovement` | tests/zephyr/run_native_sim_zenoh_sil.py:813-826 | all queries together move the cursor fewer times than there are rows, whatever the queries |

## Left out

- FlatBuffers decoding, the replies -1 for malformed requests, and the reply encoding: a request is a decoded record,
  a reply a code with detail, version and value.
- The name and alias tables: a request carries the index its name resolved to; an unknown name (-2) is not modelled.
- The `min` and `max` columns of the parameter table, which the code does not enforce, and the array slots past the 28
  parameters, which stay unused.
- Weak memory orders and fences (see Assumptions).
- Wall-clock timeouts and failures outside the exchange: a party may give up at any poll.
- `RuntimeControl.Control`: runs each call without interference; interleavings are the subject of the step machine,
  and `StagingAlone` connects the two. `param_set` and `trajectory_set` bodies start after name lookup and decoding.
- `BridgedLockstep`, `DirectLockstep`: the parties are transition systems over values, not classes; two memories
  written by three processes have no single owner in one Dafny program.
- `BridgedShutdown.BridgeStops`: polls for the firmware's answer are not counted; that the answer comes is the
  firmware's part, and a time-out otherwise.
- The conversion of the frame to PWM outputs (`csyn_pwm_outputs_from_rc`) and everything else published beside the
  frame.
- The geometry, attitude conversion and control law of the generated model, and the validity tests of odometry and
  pose, which are inputs of a cycle.
- The stale-pose failsafe of the realtime loop, arming, health flags and navigation telemetry.
- `RunnerLoop.Run`: no allocation failure or size test before the loop, and no infinities or NaNs; a failed capture or
  wait counts as a failed exchange, and the events, termination and early return of a step as its failure.
- `RunnerDoubles.RunsOutAt92`, `RunnerDoubles.HasRoomUpTo91`: the one plant that reaches each requested time, rounded;
  which t_end above 91 s run out is left open except for 92.
- `RunnerConfig.TrimLoop`, `RunnerConfig.ParseVrsLoop`, `RunnerConfig.ParseNamesLoop`, `RunnerConfig.LoadLoop`: work
  on strings as values; the C code overwrites separators in its line buffer.
- File, mapping, ELF, process, CSV, plotting and report plumbing.
