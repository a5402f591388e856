# honggfuzz control thread — a verified model

This project models the sequential decision logic in honggfuzz's main file
(`honggfuzz.c`), the part that runs on the control thread once the fuzzing
threads have been started:

- **the signal handler** (`sigHandler`) and the two globals it writes,
  `sigReceived` and `showDisplay` (module `Signals`, file `signals.dfy`).
  A SIGALRM timer tick either requests a display refresh or, when
  `fuzz_shouldTerminate()` holds, ends the process with `EXIT_FAILURE`. The
  first SIGTERM/SIGINT/SIGQUIT is recorded. A second one ends the process
  with `EXIT_FAILURE`. The handler is a method of class `SignalState`, proved
  equal to the function `React`. Runs of several deliveries are described by
  `Deliver`.
- **the file-descriptor limit provisioning** (`setupRLimits`, module
  `Limits`, file `limits.dfy`) as pure functions over the soft/hard pair
  `(rlim_cur, rlim_max)`, with `rlim_t` as an unsigned 64-bit newtype. The
  success of `getrlimit` and `setrlimit` are inputs.
- **the supervisory loop and the teardown** of `main` (module `Supervisor`,
  file `supervisor.dfy`). `Iteration` is one pass of the `for (;;)` loop.
  `RunLoop` is the whole loop: each `pause()` ends when the handler has run
  for the next wakeup. `Shutdown` is the sequence after `break`, and `Life`
  runs the loop and then the shutdown. Class `Supervisor` holds these as
  methods (`Step`, `Supervise`, `Teardown`, `Run`). Each method records its
  externally visible actions (render, pause, set terminating, stop threads,
  free, socket-fuzzer cleanup) in an ordered `actions` trace, and each is
  proved equal to its function.
- **the argv copy** at the start of `main` (module `Args`, file `args.dfy`).

The clock (`time(NULL)`), the finished-threads counter and the answer of
`fuzz_shouldTerminate()` are parameters: an `Env` per loop iteration and a
flag per signal delivery. Signals delivered while `fuzz_threadsStop` waits
for the threads are a sequence `during`; those delivered after the clean-up,
before `main` returns, are a sequence `after`. The handler runs for each of
them, so a second stop signal or a timer escalation during the join ends the
process before the join completes, and one after the clean-up ends it with
`EXIT_FAILURE` instead of `main`'s `EXIT_SUCCESS`.

Three facts of the code that the model keeps:

- The timer tick forces an exit whenever `fuzz_shouldTerminate()` holds
  (honggfuzz.c:64-67); `sigHandler` does not look at `sigReceived` first.
- When the hard limit is below 1024, `setupRLimits` logs at error level
  (`LOG_E`, honggfuzz.c:88-90).
- The teardown in `main` (honggfuzz.c:246-263) releases only the three
  buffers and the socket fuzzer; there is no channel-release action.

## Model

| member | source | states |
|---|---|---|
| `Signals.SignalState.constructor` | honggfuzz.c:47-61 | the globals start with no signal received and a display refresh requested |
| `Signals.SignalState.Handle` | honggfuzz.c:62-77 | the handler updates the globals exactly as `React` says; when it ends the process, the globals are unchanged |
| `Signals.SignalState.DeliverAll` | honggfuzz.c:62-77 | handling deliveries one after another gives `Deliver`; the globals are left as the last return left them |
| `Signals.AlarmNeverRecords` | honggfuzz.c:63-70 | SIGALRM exits with EXIT_FAILURE iff `fuzz_shouldTerminate()` holds; otherwise it sets `showDisplay`; it never writes `sigReceived` |
| `Signals.StopRecordsOnce` | honggfuzz.c:72-76 | a stop signal is recorded when `sigReceived` is 0 and forces EXIT_FAILURE when it is not; `showDisplay` is untouched |
| `Signals.RecordIsFinal` | honggfuzz.c:72-76 | once non-zero, `sigReceived` keeps its value through any deliveries the process survives (never rewritten, never back to 0) |
| `Signals.RecordsFirstStop` | honggfuzz.c:62-77 | from 0, if the process survives, `sigReceived` is the first stop signal delivered (0 if none), and at most one stop signal was delivered |
| `Signals.ForcedByStops` | honggfuzz.c:72-74 | two stop signals, counting one already recorded, always end the process with EXIT_FAILURE |
| `Signals.ExitsFail` | honggfuzz.c:55-77 | every exit the handler takes has code EXIT_FAILURE and one of its two messages |
| `Limits.Decide` | honggfuzz.c:85-92 | no-op iff soft ≥ 1024; give up (`HardTooLow`, logged as an error) iff soft < 1024 and hard < 1024; otherwise raise to MIN(1024, hard), which is exactly 1024, above the old soft limit and within the hard limit |
| `Limits.SetupRLimits` | honggfuzz.c:79-97 | the hard limit never changes; the soft limit changes only when both calls succeed and soft < 1024 ≤ hard, and then only to 1024 ≤ hard; a valid pair stays valid; nothing is logged iff the floor is met; a failed getrlimit logs a warning; an error is logged iff getrlimit succeeded and the soft limit is still below 1024 afterwards (hard limit too low, or setrlimit failed); no outcome stops the run |
| `Limits.Idempotent` | honggfuzz.c:85-96 | provisioning a second time leaves the limits as the first time left them |
| `Supervisor.DisplayRefresh` | honggfuzz.c:227-230 | an iteration renders and clears `showDisplay` exactly when `useScreen && showDisplay`; without the screen `showDisplay` is kept; `sigReceived` is untouched |
| `Supervisor.BreakConditions` | honggfuzz.c:231-243 | an iteration breaks iff `sigReceived > 0`, all threads finished, or `runEndTime > 0 && now > runEndTime`, and pauses otherwise; the reason is the first test that holds; a deadline of 0 never ends the run |
| `Supervisor.LoopAppends` | honggfuzz.c:226-244 | the loop only appends renders and pauses to the trace |
| `Supervisor.BreaksOnlyWhenDue` | honggfuzz.c:231-242 | the loop breaks only on a stated condition: a positive recorded signal, or a thread count or deadline that held in an observation |
| `Supervisor.DueBreakIsTaken` | honggfuzz.c:236-242 | when all threads finished or the deadline passed at some observation, the loop is not still waiting afterwards |
| `Supervisor.FirstStopBreaks` | honggfuzz.c:231-243 | from no recorded signal, any stop signal ends the loop; a signal break names the first stop signal; the only forced exit during the loop is a SIGALRM escalation |
| `Supervisor.DeadlinePassedAtEntry` | honggfuzz.c:239-242 | a deadline already passed at loop entry breaks on the first iteration with no pause, with reason RunTimeReached when no earlier test holds |
| `Supervisor.FreesOnce` | honggfuzz.c:250-258 | a buffer is freed iff its pointer is non-null, never twice, and only frees are in the list |
| `Supervisor.AfterJoinShape` | honggfuzz.c:249-261 | after the join: frees for exactly the non-null buffers, then the socket-fuzzer cleanup iff enabled and last, no action twice, and no second set-terminating or thread stop |
| `Supervisor.TeardownOrder` | honggfuzz.c:246-263 | when the join completes: terminating is set first and the threads stopped second, then the after-join clean-up; no action is repeated; the socket-fuzzer cleanup runs iff enabled, and last; main returns EXIT_SUCCESS iff the handler survives the signals after the clean-up, and otherwise the process ends with EXIT_FAILURE |
| `Supervisor.ForcedAfterJoin` | honggfuzz.c:246-263 | with a signal already recorded, a stop signal after the clean-up ends the process with EXIT_FAILURE although the whole clean-up was done |
| `Supervisor.ForcedDuringJoin` | honggfuzz.c:246-247 | a second stop signal while the threads are joined ends the process with EXIT_FAILURE before the join completes, so nothing is freed |
| `Supervisor.NoEscalation` | honggfuzz.c:62-77 | deliveries without a stop signal and without escalation never end the process |
| `Supervisor.GracefulStop` | honggfuzz.c:226-263 | an interrupt with no second stop and no escalation, during the loop, the join or after the clean-up, makes main return EXIT_SUCCESS after the threads were stopped |
| `Supervisor.RepeatedStop` | honggfuzz.c:226-263 | an interrupt in the loop, then another during the join, ends the process with EXIT_FAILURE and the threads are never reported joined |
| `Supervisor.Supervisor.constructor` | honggfuzz.c:217-226 | at loop entry nothing is in the trace and terminating is not yet set |
| `Supervisor.Supervisor.Step` | honggfuzz.c:226-243 | one loop iteration updates `showDisplay` and the trace and returns the outcome exactly as `Iteration` says |
| `Supervisor.Supervisor.Supervise` | honggfuzz.c:226-244 | the `for (;;)` loop ends in the state and with the outcome `RunLoop` gives |
| `Supervisor.Supervisor.Teardown` | honggfuzz.c:246-263 | sets terminating, runs the handler for the signals during the join and after the clean-up, appends the `Shutdown` trace and returns its ending |
| `Supervisor.Supervisor.ReleaseGlobals` | honggfuzz.c:249-261 | appends exactly the after-join clean-up (`AfterJoin`) to the trace |
| `Supervisor.Supervisor.Run` | honggfuzz.c:226-263 | the loop followed by the teardown yields the trace and ending of `Life` |
| `Args.CopyArgs` | honggfuzz.c:159-168 | a fresh block of argc + 1 entries holds argv's first argc entries followed by NULL |

## Left out

- System calls are inputs or outcomes, not modelled calls: `getrlimit`/`setrlimit` (success flags), `time` (the `now` of each `Env`), `pause` (an action in the trace, ended by the next wakeup), and `write`/`exit`/`abort` (a `Killed` or `Exit` outcome carrying code and message).
- Signal masking and routing (honggfuzz.c:109-153) are left out. Their point is delivery to the right thread, which a sequential model cannot express. The model assumes every signal is handled on the control thread, one at a time.
- The timer set-up (honggfuzz.c:99-107) is left out. Its interval values are configuration, and the ticks are SIGALRM wakeups.
- Thread start, stop and join (`fuzz_threadsStart`, `fuzz_threadsStop`, `fuzz_setTerminating`) are not modelled. Only their order is kept: a trace action, and the `terminating` field. The threads' increments of the finished counter, and atomic memory ordering, are not modelled; the counter's value is observed per iteration.
- The start-up before the loop (honggfuzz.c:170-218, 220-224) is not modelled (line 219, `setupRLimits`, is module `Limits`): option parsing, display and corpus initialisation, dictionary, blacklist and symbol-filter parsing, socket-fuzzer set-up and the shared-memory feedback map. Those functions are not part of this model. So are `display_display` and `cleanupSocketFuzzer`, which are kept only as trace actions.
- Log messages (`LOG_I`, `PLOG_W`, `LOG_E`, `PLOG_E`) are not modelled. `SetupRLimits` keeps only the level of what is logged.
- Args.CopyArgs: a failing `util_Malloc` is not modelled, and neither is the deferred `free(myargs)`.
- Signals that would arrive after the loop's `break` and before `fuzz_threadsStop` are counted with those delivered during the join. A run whose wakeups are used up while paused ends as `Waiting`.
- More than one signal handled in the same wakeup is not modelled: each `pause()` is ended by exactly one handler run. In the code a second signal can be handled right after the first, in the same `pause()` or between its return and the test at honggfuzz.c:231. Two quick SIGINTs then end the process with EXIT_FAILURE (honggfuzz.c:72-73) before `fuzz_setTerminating` (honggfuzz.c:246) runs. In the model a repeated-stop exit from the initial flags always has `SetTerminating` in its trace, so `RepeatedStop` covers only the case where the second stop comes during the join.
- Signals handled during the clean-up (honggfuzz.c:249-261) are not modelled; they are delivered only during the join or after the whole clean-up. In the code a forced exit there leaves only some of the buffers freed. In the model a `Shutdown` trace is either `[SetTerminating]` or the full clean-up, so `ForcedDuringJoin` and `ForcedAfterJoin` do not cover a kill between two frees.
- A signal handled between the loop's tests (honggfuzz.c:231-242) and `pause()` (honggfuzz.c:243) is not modelled: in the code it does not end that `pause()`, which then waits for the next timer tick or signal. In the model every wakeup is handled while paused, so a stop always ends the pause it arrives in; in the code the loop sees it one wakeup later.
- A SIGALRM handled while `display_display` runs (honggfuzz.c:228) is not modelled: its `showDisplay = true` is overwritten by line 229, so that refresh request is lost in the code, while the model delivers signals only at the pause.
