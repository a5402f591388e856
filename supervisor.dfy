/**
 * The supervisory loop of the control thread and the shutdown sequence that
 * follows it. Each loop iteration refreshes the display when asked to, then
 * checks (in this order) for a received stop signal, for all fuzzing threads
 * having finished and for the run deadline, and otherwise waits in pause()
 * until the next signal handler has run.
 */
module Supervisor {
  import opened Signals

  /** The global buffers filled by the blacklist and symbol-filter parsers. */
  datatype Buffer = Blacklist | SymsBl | SymsWl

  /** The parts of the run-wide configuration that the loop and the teardown read. */
  datatype Config = Config(
    useScreen: bool,
    threadsMax: nat,
    runEndTime: int,          // 0: no deadline
    socketFuzzerEnabled: bool,
    buffers: set<Buffer>)     // the buffers whose pointer is non-null

  /** The externally visible actions of the control thread, in the order it takes them. */
  datatype Action =
    | Render                  // display_display
    | Pause                   // pause(): wait for the next signal
    | SetTerminating          // fuzz_setTerminating
    | StopThreads             // fuzz_threadsStop has returned: every thread is joined
    | Free(buffer: Buffer)    // free() of one global buffer
    | CleanupSocketFuzzer

  /** What an iteration observes of the outside: time(NULL) and the finished-threads counter. */
  datatype Env = Env(now: int, threadsFinished: nat)

  /** pause() returns once the handler has run for `event`; the next iteration then observes `env`. */
  datatype Wakeup = Wakeup(event: SignalEvent, env: Env)

  datatype BreakReason = SignalReceived(sig: int) | ThreadsFinished | RunTimeReached

  datatype StepOutcome = Continue | Break(reason: BreakReason)

  datatype StepResult = StepResult(flags: Flags, actions: seq<Action>, outcome: StepOutcome)

  /** The three break tests, in the order the loop makes them. */
  function Check(cfg: Config, sigReceived: int, env: Env): StepOutcome {
    if sigReceived > 0 then Break(SignalReceived(sigReceived))
    else if env.threadsFinished >= cfg.threadsMax then Break(ThreadsFinished)
    else if cfg.runEndTime > 0 && env.now > cfg.runEndTime then Break(RunTimeReached)
    else Continue
  }

  /** The condition under which the loop must stop, as one formula. */
  predicate MustBreak(cfg: Config, sigReceived: int, env: Env) {
    sigReceived > 0 || env.threadsFinished >= cfg.threadsMax ||
    (cfg.runEndTime > 0 && env.now > cfg.runEndTime)
  }

  /** One iteration of the `for (;;)` loop. */
  function Iteration(cfg: Config, f: Flags, env: Env): StepResult {
    var shown := cfg.useScreen && f.showDisplay;
    var outcome := Check(cfg, f.sigReceived, env);
    StepResult(
      if shown then f.(showDisplay := false) else f,
      (if shown then [Render] else []) + (if outcome == Continue then [Pause] else []),
      outcome)
  }

  /** The display is rendered, and the request cleared, exactly when the screen is in use and a refresh was requested. */
  lemma DisplayRefresh(cfg: Config, f: Flags, env: Env)
    ensures var r := Iteration(cfg, f, env);
      (Render in r.actions <==> cfg.useScreen && f.showDisplay) &&
      r.flags.showDisplay == (f.showDisplay && !cfg.useScreen) &&
      r.flags.sigReceived == f.sigReceived
  {
  }

  /**
   * An iteration breaks exactly when one of the three conditions holds, and
   * pauses otherwise; the reason reported is the first condition that holds,
   * and a deadline of 0 never ends the run.
   */
  lemma BreakConditions(cfg: Config, f: Flags, env: Env)
    ensures var r := Iteration(cfg, f, env);
      (r.outcome.Break? <==> MustBreak(cfg, f.sigReceived, env)) &&
      (Pause in r.actions <==> r.outcome == Continue) &&
      (r.outcome == Break(SignalReceived(f.sigReceived)) <==> f.sigReceived > 0) &&
      (r.outcome == Break(ThreadsFinished) <==>
        f.sigReceived <= 0 && env.threadsFinished >= cfg.threadsMax) &&
      (r.outcome == Break(RunTimeReached) ==> cfg.runEndTime != 0 && env.now > cfg.runEndTime)
  {
  }

  // ---------------------------------------------------------------------
  // The whole loop

  datatype LoopEnd =
    | Broke(reason: BreakReason)          // the loop was left with `break`
    | Exited(code: int, msg: string)      // the handler ended the process during a pause
    | Paused                              // still waiting: no further wakeup is given

  datatype LoopState = LoopState(flags: Flags, actions: seq<Action>)

  datatype LoopRun = LoopRun(state: LoopState, outcome: LoopEnd)

  predicate WakeupsHandled(ws: seq<Wakeup>) {
    forall i :: 0 <= i < |ws| ==> IsHandled(ws[i].event.sig)
  }

  /** The signal events of a sequence of wakeups. */
  function Events(ws: seq<Wakeup>): (evs: seq<SignalEvent>)
    ensures |evs| == |ws|
    ensures forall i :: 0 <= i < |ws| ==> evs[i] == ws[i].event
  {
    if ws == [] then [] else [ws[0].event] + Events(ws[1..])
  }

  /** The environments the iterations observe, one per iteration. */
  function Observed(env: Env, ws: seq<Wakeup>): (envs: seq<Env>)
    ensures |envs| == |ws| + 1 && envs[0] == env
    ensures forall i :: 0 <= i < |ws| ==> envs[i + 1] == ws[i].env
    decreases |ws|
  {
    if ws == [] then [env] else [env] + Observed(ws[0].env, ws[1..])
  }

  /** The loop, run from `st` on the first observation `env`, with the wakeups `ws` ending its pauses. */
  function RunLoop(cfg: Config, st: LoopState, env: Env, ws: seq<Wakeup>): LoopRun
    requires WakeupsHandled(ws)
    decreases |ws|
  {
    var s := Iteration(cfg, st.flags, env);
    var st' := LoopState(s.flags, st.actions + s.actions);
    if s.outcome.Break? then LoopRun(st', Broke(s.outcome.reason))
    else if ws == [] then LoopRun(st', Paused)
    else match React(s.flags, ws[0].event.sig, ws[0].event.shouldTerminate)
      case Exit(code, msg) => LoopRun(st', Exited(code, msg))
      case Return(g) => RunLoop(cfg, LoopState(g, st'.actions), ws[0].env, ws[1..])
  }

  /** The loop only appends to the action trace, and all it appends are renders and pauses. */
  lemma {:induction false} LoopAppends(cfg: Config, st: LoopState, env: Env, ws: seq<Wakeup>)
    requires WakeupsHandled(ws)
    ensures var r := RunLoop(cfg, st, env, ws);
      |st.actions| <= |r.state.actions| && r.state.actions[..|st.actions|] == st.actions &&
      forall i :: |st.actions| <= i < |r.state.actions| ==>
        r.state.actions[i] == Render || r.state.actions[i] == Pause
    decreases |ws|
  {
    var s := Iteration(cfg, st.flags, env);
    if s.outcome.Continue? && ws != [] {
      if React(s.flags, ws[0].event.sig, ws[0].event.shouldTerminate).Return? {
        var g := React(s.flags, ws[0].event.sig, ws[0].event.shouldTerminate).flags;
        var st1 := LoopState(g, st.actions + s.actions);
        LoopAppends(cfg, st1, ws[0].env, ws[1..]);
        assert st1.actions[..|st.actions|] == st.actions;
      }
    }
  }

  /**
   * The loop leaves with `break` only on a stated condition: a received
   * signal, which is then the recorded one, or a condition that held in one of
   * the observations.
   */
  lemma {:induction false} BreaksOnlyWhenDue(cfg: Config, st: LoopState, env: Env, ws: seq<Wakeup>)
    requires WakeupsHandled(ws)
    ensures var r := RunLoop(cfg, st, env, ws);
      (r.outcome.Broke? && r.outcome.reason.SignalReceived? ==>
        r.outcome.reason.sig > 0 && r.state.flags.sigReceived == r.outcome.reason.sig) &&
      (r.outcome == Broke(ThreadsFinished) ==>
        exists k :: 0 <= k <= |ws| && Observed(env, ws)[k].threadsFinished >= cfg.threadsMax) &&
      (r.outcome == Broke(RunTimeReached) ==>
        cfg.runEndTime > 0 && exists k :: 0 <= k <= |ws| && Observed(env, ws)[k].now > cfg.runEndTime)
    decreases |ws|
  {
    var s := Iteration(cfg, st.flags, env);
    var envs := Observed(env, ws);
    if s.outcome.Break? {
      assert envs[0] == env;
    } else if ws != [] {
      if React(s.flags, ws[0].event.sig, ws[0].event.shouldTerminate).Return? {
        var g := React(s.flags, ws[0].event.sig, ws[0].event.shouldTerminate).flags;
        var st1 := LoopState(g, st.actions + s.actions);
        BreaksOnlyWhenDue(cfg, st1, ws[0].env, ws[1..]);
        var rest := Observed(ws[0].env, ws[1..]);
        assert forall k :: 0 <= k < |rest| ==> envs[k + 1] == rest[k];
      }
    }
  }

  /**
   * A condition that holds when an iteration observes the outside always ends
   * the loop: it cannot still be waiting afterwards.
   */
  lemma {:induction false} DueBreakIsTaken(cfg: Config, st: LoopState, env: Env, ws: seq<Wakeup>, k: nat)
    requires WakeupsHandled(ws)
    requires k <= |ws|
    requires Observed(env, ws)[k].threadsFinished >= cfg.threadsMax ||
      (cfg.runEndTime > 0 && Observed(env, ws)[k].now > cfg.runEndTime)
    ensures RunLoop(cfg, st, env, ws).outcome != Paused
    decreases |ws|
  {
    var s := Iteration(cfg, st.flags, env);
    if k > 0 && s.outcome.Continue? {
      if React(s.flags, ws[0].event.sig, ws[0].event.shouldTerminate).Return? {
        var g := React(s.flags, ws[0].event.sig, ws[0].event.shouldTerminate).flags;
        assert Observed(ws[0].env, ws[1..])[k - 1] == Observed(env, ws)[k];
        DueBreakIsTaken(cfg, LoopState(g, st.actions + s.actions), ws[0].env, ws[1..], k - 1);
      }
    }
  }

  /**
   * Started with no signal recorded, the loop ends gracefully on the first
   * stop signal: it breaks with that signal, is never still waiting after
   * one, and a stop signal never ends the process during the loop (only the
   * timer tick's escalation can).
   */
  lemma {:induction false} FirstStopBreaks(cfg: Config, st: LoopState, env: Env, ws: seq<Wakeup>)
    requires WakeupsHandled(ws)
    requires st.flags.sigReceived == 0
    ensures var r := RunLoop(cfg, st, env, ws);
      (StopCount(Events(ws)) > 0 ==> r.outcome != Paused) &&
      (r.outcome.Exited? ==>
        r.outcome == Exited(EXIT_FAILURE, MSG_FORCED) &&
        exists i :: 0 <= i < |ws| && ws[i].event == SignalEvent(SIGALRM, true)) &&
      (r.outcome.Broke? && r.outcome.reason.SignalReceived? ==>
        r.outcome.reason.sig == FirstStop(Events(ws)))
    decreases |ws|
  {
    var s := Iteration(cfg, st.flags, env);
    if s.outcome.Continue? && ws != [] {
      var e := ws[0].event;
      assert Events(ws) == [e] + Events(ws[1..]);
      assert Events(ws)[1..] == Events(ws[1..]);
      if React(s.flags, e.sig, e.shouldTerminate).Return? {
        var g := React(s.flags, e.sig, e.shouldTerminate).flags;
        var st1 := LoopState(g, st.actions + s.actions);
        if IsStop(e.sig) {
          assert RunLoop(cfg, st1, ws[0].env, ws[1..]).outcome == Broke(SignalReceived(e.sig));
        } else {
          FirstStopBreaks(cfg, st1, ws[0].env, ws[1..]);
          var r1 := RunLoop(cfg, st1, ws[0].env, ws[1..]);
          if r1.outcome.Exited? {
            var j :| 0 <= j < |ws| - 1 && ws[1..][j].event == SignalEvent(SIGALRM, true);
            assert ws[j + 1].event == SignalEvent(SIGALRM, true);
          }
        }
      } else {
        assert ws[0].event == SignalEvent(SIGALRM, true);
      }
    }
  }

  /** A deadline already passed when the loop starts ends it on the first iteration, without any pause or signal. */
  lemma DeadlinePassedAtEntry(cfg: Config, st: LoopState, env: Env, ws: seq<Wakeup>)
    requires WakeupsHandled(ws)
    requires cfg.runEndTime > 0 && env.now > cfg.runEndTime
    ensures var r := RunLoop(cfg, st, env, ws);
      r.outcome.Broke? && Pause !in r.state.actions[|st.actions|..] &&
      (st.flags.sigReceived <= 0 && env.threadsFinished < cfg.threadsMax ==> r.outcome.reason == RunTimeReached)
  {
    var s := Iteration(cfg, st.flags, env);
    assert RunLoop(cfg, st, env, ws).state.actions[|st.actions|..] == s.actions;
  }

  // ---------------------------------------------------------------------
  // Shutdown

  /** Free each allocated global buffer once, in the order blacklist, symbol blacklist, symbol whitelist. */
  function FreeActions(buffers: set<Buffer>): seq<Action> {
    (if Blacklist in buffers then [Free(Blacklist)] else []) +
    (if SymsBl in buffers then [Free(SymsBl)] else []) +
    (if SymsWl in buffers then [Free(SymsWl)] else [])
  }

  /** The teardown trace once the thread pool has been stopped and joined. */
  function AfterJoin(cfg: Config): seq<Action> {
    FreeActions(cfg.buffers) + (if cfg.socketFuzzerEnabled then [CleanupSocketFuzzer] else [])
  }

  /** How the process ends: main returns a status, or the handler ends the process; or it is still waiting in pause(). */
  datatype Ending = Waiting | Returned(status: int) | Killed(code: int, msg: string)

  datatype ShutdownRun = ShutdownRun(actions: seq<Action>, exit: Ending)

  /**
   * The sequence after the loop's `break`, starting from flags `f`: `during`
   * are the signals delivered while fuzz_threadsStop waits for the threads,
   * `after` those delivered once the clean-up is done and before main returns.
   */
  function Shutdown(cfg: Config, f: Flags, during: seq<SignalEvent>, after: seq<SignalEvent>): ShutdownRun
    requires AllHandled(during) && AllHandled(after)
  {
    match Deliver(f, during)
    case Exit(code, msg) => ShutdownRun([SetTerminating], Killed(code, msg))
    case Return(g) =>
      var a := [SetTerminating, StopThreads] + AfterJoin(cfg);
      match Deliver(g, after)
      case Exit(code, msg) => ShutdownRun(a, Killed(code, msg))
      case Return(_) => ShutdownRun(a, Returned(EXIT_SUCCESS))
  }

  /** No action occurs twice in `a`. */
  predicate NoRepeats(a: seq<Action>) {
    forall i, j :: 0 <= i < j < |a| ==> a[i] != a[j]
  }

  lemma NoRepeatsConcat(x: seq<Action>, y: seq<Action>)
    requires NoRepeats(x) && NoRepeats(y)
    requires forall a :: a in x ==> a !in y
    ensures NoRepeats(x + y)
  {
    forall i, j | 0 <= i < j < |x + y|
      ensures (x + y)[i] != (x + y)[j]
    {
      if i < |x| && |x| <= j {
        assert (x + y)[i] in x && (x + y)[j] in y;
      }
    }
  }

  /** Each buffer is freed when its pointer is non-null, at most once, and nothing but buffers is freed. */
  lemma FreesOnce(buffers: set<Buffer>)
    ensures NoRepeats(FreeActions(buffers))
    ensures forall b :: Free(b) in FreeActions(buffers) <==> b in buffers
    ensures forall a :: a in FreeActions(buffers) ==> a.Free?
  {
    var x := if Blacklist in buffers then [Free(Blacklist)] else [];
    var y := if SymsBl in buffers then [Free(SymsBl)] else [];
    var z := if SymsWl in buffers then [Free(SymsWl)] else [];
    NoRepeatsConcat(x, y);
    NoRepeatsConcat(x + y, z);
    assert FreeActions(buffers) == x + y + z;
    forall b ensures Free(b) in x + y + z <==> b in buffers {
      assert Free(b) in x + y + z <==> Free(b) in x || Free(b) in y || Free(b) in z;
      match b
      case Blacklist =>
      case SymsBl =>
      case SymsWl =>
    }
  }

  /** After the join: the frees for exactly the non-null buffers, then the socket-fuzzer cleanup iff enabled, nothing twice. */
  lemma AfterJoinShape(cfg: Config)
    ensures NoRepeats(AfterJoin(cfg))
    ensures SetTerminating !in AfterJoin(cfg) && StopThreads !in AfterJoin(cfg)
    ensures forall b :: Free(b) in AfterJoin(cfg) <==> b in cfg.buffers
    ensures CleanupSocketFuzzer in AfterJoin(cfg) <==> cfg.socketFuzzerEnabled
    ensures cfg.socketFuzzerEnabled ==> AfterJoin(cfg)[|AfterJoin(cfg)| - 1] == CleanupSocketFuzzer
  {
    var frees := FreeActions(cfg.buffers);
    var tail := if cfg.socketFuzzerEnabled then [CleanupSocketFuzzer] else [];
    FreesOnce(cfg.buffers);
    NoRepeatsConcat(frees, tail);
    assert forall a :: a in frees + tail <==> a in frees || a in tail;
  }

  /**
   * The teardown order: terminating is set before the threads are stopped,
   * the clean-up of AfterJoinShape follows the join, no action is taken
   * twice, and the socket fuzzer is cleaned up last and only when enabled.
   * Main then returns EXIT_SUCCESS unless a signal handled after the clean-up
   * ends the process first, which is then with EXIT_FAILURE.
   */
  lemma TeardownOrder(cfg: Config, f: Flags, during: seq<SignalEvent>, after: seq<SignalEvent>)
    requires AllHandled(during) && AllHandled(after)
    requires Deliver(f, during).Return?
    ensures var x := Shutdown(cfg, f, during, after).exit;
      (x == Returned(EXIT_SUCCESS) <==> Deliver(Deliver(f, during).flags, after).Return?) &&
      (x != Returned(EXIT_SUCCESS) ==> x.Killed? && x.code == EXIT_FAILURE)
    ensures var a := Shutdown(cfg, f, during, after).actions;
      a[0] == SetTerminating && a[1] == StopThreads && NoRepeats(a) &&
      a[2..] == AfterJoin(cfg)
    ensures var a := Shutdown(cfg, f, during, after).actions;
      (CleanupSocketFuzzer in a <==> cfg.socketFuzzerEnabled) &&
      (cfg.socketFuzzerEnabled ==> a[|a| - 1] == CleanupSocketFuzzer)
  {
    var rest := AfterJoin(cfg);
    var a := [SetTerminating, StopThreads] + rest;
    assert Shutdown(cfg, f, during, after).actions == a;
    ExitsFail(Deliver(f, during).flags, after);
    AfterJoinShape(cfg);
    var head := [SetTerminating, StopThreads];
    assert NoRepeats(head);
    assert forall x :: x in head ==> x == SetTerminating || x == StopThreads;
    NoRepeatsConcat(head, rest);
    assert a[2..] == rest;
    assert CleanupSocketFuzzer in a <==> CleanupSocketFuzzer in rest;
  }

  /**
   * A stop signal after the clean-up, when one was already recorded, ends the
   * process with EXIT_FAILURE instead of main's EXIT_SUCCESS, although the
   * whole clean-up was done.
   */
  lemma ForcedAfterJoin(cfg: Config, f: Flags, during: seq<SignalEvent>, after: seq<SignalEvent>)
    requires AllHandled(during) && AllHandled(after)
    requires Deliver(f, during).Return?
    requires f.sigReceived != 0 && StopCount(after) >= 1
    ensures var r := Shutdown(cfg, f, during, after);
      r.exit.Killed? && r.exit.code == EXIT_FAILURE &&
      r.actions == [SetTerminating, StopThreads] + AfterJoin(cfg)
  {
    RecordIsFinal(f, during);
    ForcedByStops(Deliver(f, during).flags, after);
  }

  /**
   * A forced exit during the join ends the process before the threads are
   * joined and before anything is freed or cleaned up; it happens whenever a
   * second stop signal arrives.
   */
  lemma ForcedDuringJoin(cfg: Config, f: Flags, during: seq<SignalEvent>, after: seq<SignalEvent>)
    requires AllHandled(during) && AllHandled(after)
    requires StopCount(during) + (if f.sigReceived != 0 then 1 else 0) >= 2
    ensures var r := Shutdown(cfg, f, during, after);
      r.exit.Killed? && r.exit.code == EXIT_FAILURE && r.actions == [SetTerminating]
  {
    ForcedByStops(f, during);
  }

  // ---------------------------------------------------------------------
  // From the start of the loop to the end of main

  datatype Lifecycle = Lifecycle(actions: seq<Action>, exit: Ending)

  /** The loop, then the teardown when the loop broke. */
  function Life(cfg: Config, f: Flags, env: Env, ws: seq<Wakeup>, during: seq<SignalEvent>, after: seq<SignalEvent>): (l: Lifecycle)
    requires WakeupsHandled(ws) && AllHandled(during) && AllHandled(after)
  {
    var r := RunLoop(cfg, LoopState(f, []), env, ws);
    match r.outcome
    case Broke(_) =>
      var s := Shutdown(cfg, r.state.flags, during, after);
      Lifecycle(r.state.actions + s.actions, s.exit)
    case Exited(code, msg) => Lifecycle(r.state.actions, Killed(code, msg))
    case Paused => Lifecycle(r.state.actions, Waiting)
  }

  /**
   * One interrupt and nothing more: the loop breaks on it and the graceful
   * sequence runs to the end, so main returns EXIT_SUCCESS after the threads
   * were joined.
   */
  lemma GracefulStop(cfg: Config, env: Env, ws: seq<Wakeup>, during: seq<SignalEvent>, after: seq<SignalEvent>)
    requires WakeupsHandled(ws) && AllHandled(during) && AllHandled(after)
    requires StopCount(Events(ws)) >= 1 && StopCount(during) == 0 && StopCount(after) == 0
    requires forall i :: 0 <= i < |ws| ==> !ws[i].event.shouldTerminate
    requires forall i :: 0 <= i < |during| ==> !during[i].shouldTerminate
    requires forall i :: 0 <= i < |after| ==> !after[i].shouldTerminate
    ensures var l := Life(cfg, Initial, env, ws, during, after);
      l.exit == Returned(EXIT_SUCCESS) && StopThreads in l.actions
  {
    var r := RunLoop(cfg, LoopState(Initial, []), env, ws);
    FirstStopBreaks(cfg, LoopState(Initial, []), env, ws);
    NoEscalation(r.state.flags, during);
    NoEscalation(Deliver(r.state.flags, during).flags, after);
    var s := Shutdown(cfg, r.state.flags, during, after);
    assert s.actions[1] == StopThreads;
    assert (r.state.actions + s.actions)[|r.state.actions| + 1] == StopThreads;
  }

  /** Without a stop signal and without escalation, no delivery ends the process. */
  lemma {:induction false} NoEscalation(f: Flags, evs: seq<SignalEvent>)
    requires AllHandled(evs)
    requires StopCount(evs) == 0
    requires forall i :: 0 <= i < |evs| ==> !evs[i].shouldTerminate
    ensures Deliver(f, evs).Return?
    decreases |evs|
  {
    if evs != [] {
      NoEscalation(React(f, evs[0].sig, evs[0].shouldTerminate).flags, evs[1..]);
    }
  }

  /**
   * An interrupt during the loop, before the threads finish or the deadline
   * passes, and a second one while the threads are being joined: the process
   * ends with EXIT_FAILURE and the join never completes.
   */
  lemma RepeatedStop(cfg: Config, env: Env, ws: seq<Wakeup>, during: seq<SignalEvent>, after: seq<SignalEvent>)
    requires WakeupsHandled(ws) && AllHandled(during) && AllHandled(after)
    requires StopCount(Events(ws)) >= 1 && StopCount(during) >= 1
    requires forall k :: 0 <= k <= |ws| ==>
      Observed(env, ws)[k].threadsFinished < cfg.threadsMax &&
      (cfg.runEndTime > 0 ==> Observed(env, ws)[k].now <= cfg.runEndTime)
    ensures var l := Life(cfg, Initial, env, ws, during, after);
      l.exit.Killed? && l.exit.code == EXIT_FAILURE && StopThreads !in l.actions
  {
    var st0 := LoopState(Initial, []);
    var r := RunLoop(cfg, st0, env, ws);
    FirstStopBreaks(cfg, st0, env, ws);
    BreaksOnlyWhenDue(cfg, st0, env, ws);
    LoopAppends(cfg, st0, env, ws);
    if r.outcome.Broke? {
      ForcedDuringJoin(cfg, r.state.flags, during, after);
    }
  }

  // ---------------------------------------------------------------------
  // The control thread, updating the globals in place

  class Supervisor {
    const cfg: Config
    const signals: SignalState
    // records only that fuzz_setTerminating has been called; what the
    // threads and fuzz_shouldTerminate() make of it is not part of this model
    var terminating: bool
    var actions: seq<Action>

    /** The control thread's state at loop entry: nothing done yet and terminating not set. */
    constructor (cfg: Config, signals: SignalState)
      ensures this.cfg == cfg && this.signals == signals
      ensures !terminating && actions == []
    {
      this.cfg := cfg;
      this.signals := signals;
      terminating := false;
      actions := [];
    }

    /** One iteration of the loop, observing `env`. */
    method Step(env: Env) returns (o: StepOutcome)
      modifies signals`showDisplay, this`actions
      ensures var r := Iteration(cfg, old(signals.Current()), env);
        signals.Current() == r.flags && actions == old(actions) + r.actions && o == r.outcome
    {
      if cfg.useScreen && signals.showDisplay {
        actions := actions + [Render];
        signals.showDisplay := false;
      }
      if signals.sigReceived > 0 {
        return Break(SignalReceived(signals.sigReceived));
      }
      if env.threadsFinished >= cfg.threadsMax {
        return Break(ThreadsFinished);
      }
      if cfg.runEndTime > 0 && env.now > cfg.runEndTime {
        return Break(RunTimeReached);
      }
      actions := actions + [Pause];
      return Continue;
    }

    /** The `for (;;)` loop: iterate until a break, a forced exit, or no further wakeup. */
    method Supervise(env0: Env, ws: seq<Wakeup>) returns (e: LoopEnd)
      requires WakeupsHandled(ws)
      modifies signals, this
      ensures LoopRun(LoopState(signals.Current(), actions), e) ==
        RunLoop(cfg, LoopState(old(signals.Current()), old(actions)), env0, ws)
      ensures terminating == old(terminating)
    {
      var env := env0;
      var i := 0;
      while true
        invariant 0 <= i <= |ws|
        invariant terminating == old(terminating)
        invariant RunLoop(cfg, LoopState(signals.Current(), actions), env, ws[i..]) ==
          RunLoop(cfg, LoopState(old(signals.Current()), old(actions)), env0, ws)
        decreases |ws| - i
      {
        var o := Step(env);
        if o.Break? {
          return Broke(o.reason);
        }
        if i == |ws| {
          return Paused;
        }
        var w := ws[i];
        assert ws[i..][0] == w && ws[i..][1..] == ws[i + 1..];
        var r := signals.Handle(w.event.sig, w.event.shouldTerminate);
        if r.Exit? {
          return Exited(r.code, r.msg);
        }
        env := w.env;
        i := i + 1;
      }
    }

    /** The teardown after the loop's `break`. */
    method Teardown(during: seq<SignalEvent>, after: seq<SignalEvent>) returns (x: Ending)
      requires AllHandled(during) && AllHandled(after)
      modifies signals, this
      ensures terminating
      ensures var s := Shutdown(cfg, old(signals.Current()), during, after);
        x == s.exit && actions == old(actions) + s.actions
    {
      terminating := true;
      actions := actions + [SetTerminating];
      var r := signals.DeliverAll(during);
      if r.Exit? {
        return Killed(r.code, r.msg);
      }
      actions := actions + [StopThreads];
      ReleaseGlobals();
      r := signals.DeliverAll(after);
      if r.Exit? {
        return Killed(r.code, r.msg);
      }
      return Returned(EXIT_SUCCESS);
    }

    /** The clean-up of the global buffers and of the socket fuzzer, once the threads are joined. */
    method ReleaseGlobals()
      modifies this`actions
      ensures actions == old(actions) + AfterJoin(cfg)
    {
      if Blacklist in cfg.buffers {
        actions := actions + [Free(Blacklist)];
      }
      if SymsBl in cfg.buffers {
        actions := actions + [Free(SymsBl)];
      }
      if SymsWl in cfg.buffers {
        actions := actions + [Free(SymsWl)];
      }
      if cfg.socketFuzzerEnabled {
        actions := actions + [CleanupSocketFuzzer];
      }
    }

    /** From the first loop iteration to main's return (or to the process's end). */
    method Run(env0: Env, ws: seq<Wakeup>, during: seq<SignalEvent>, after: seq<SignalEvent>) returns (x: Ending)
      requires WakeupsHandled(ws) && AllHandled(during) && AllHandled(after)
      requires actions == []
      modifies signals, this
      ensures var l := Life(cfg, old(signals.Current()), env0, ws, during, after);
        x == l.exit && actions == l.actions
    {
      var e := Supervise(env0, ws);
      match e
      case Broke(_) =>
        x := Teardown(during, after);
      case Exited(code, msg) =>
        x := Killed(code, msg);
      case Paused =>
        x := Waiting;
    }
  }
}
