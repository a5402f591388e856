/**
 * The termination/display state machine of the fuzzer's control thread:
 * the signal handler installed for SIGTERM, SIGINT, SIGQUIT and SIGALRM,
 * and the two process-wide flags it updates.
 */
module Signals {

  // Linux signal numbers of the signals the handler is installed for
  const SIGINT: int := 2
  const SIGQUIT: int := 3
  const SIGALRM: int := 14
  const SIGTERM: int := 15

  const EXIT_SUCCESS: int := 0
  const EXIT_FAILURE: int := 1

  const MSG_FORCED: string := "Terminating forcefully\n"
  const MSG_REPEATED: string := "Repeated termination signal caugth\n"

  /** The handler is installed (with sigaction) for these four signals only. */
  predicate IsHandled(sig: int) {
    sig == SIGTERM || sig == SIGINT || sig == SIGQUIT || sig == SIGALRM
  }

  /** A stop-type signal: every handled signal except the timer tick. */
  predicate IsStop(sig: int) {
    IsHandled(sig) && sig != SIGALRM
  }

  /** The two globals the handler writes: `sigReceived` (0 or a signal number) and `showDisplay`. */
  datatype Flags = Flags(sigReceived: int, showDisplay: bool)

  /** The flags as the process starts. */
  const Initial: Flags := Flags(0, true)

  /**
   * What one run of the handler does: it returns with new flags, or it
   * writes `msg` to stderr with a raw write and ends the process with `code`.
   */
  datatype Reaction = Return(flags: Flags) | Exit(code: int, msg: string)

  /** One delivery: the signal, and what fuzz_shouldTerminate() answers at that moment. */
  datatype SignalEvent = SignalEvent(sig: int, shouldTerminate: bool)

  /** The handler, as a function of the flags before it runs. */
  function React(f: Flags, sig: int, shouldTerminate: bool): Reaction
    requires IsHandled(sig)
  {
    if sig == SIGALRM then
      if shouldTerminate then Exit(EXIT_FAILURE, MSG_FORCED)
      else Return(f.(showDisplay := true))
    else if f.sigReceived != 0 then Exit(EXIT_FAILURE, MSG_REPEATED)
    else Return(f.(sigReceived := sig))
  }

  predicate AllHandled(evs: seq<SignalEvent>) {
    forall i :: 0 <= i < |evs| ==> IsHandled(evs[i].sig)
  }

  /** A sequence of deliveries, one after another, until one of them ends the process. */
  function Deliver(f: Flags, evs: seq<SignalEvent>): Reaction
    requires AllHandled(evs)
    decreases |evs|
  {
    if evs == [] then Return(f)
    else match React(f, evs[0].sig, evs[0].shouldTerminate)
      case Exit(code, msg) => Exit(code, msg)
      case Return(g) => Deliver(g, evs[1..])
  }

  /** Number of stop-type signals in a sequence of deliveries. */
  function StopCount(evs: seq<SignalEvent>): nat {
    if evs == [] then 0
    else (if IsStop(evs[0].sig) then 1 else 0) + StopCount(evs[1..])
  }

  /** The first stop-type signal of a sequence, or 0 when there is none. */
  function FirstStop(evs: seq<SignalEvent>): int {
    if evs == [] then 0
    else if IsStop(evs[0].sig) then evs[0].sig
    else FirstStop(evs[1..])
  }

  // ---------------------------------------------------------------------
  // One delivery

  /** The timer tick never writes `sigReceived`: it forces an exit exactly when the fuzzer should terminate, and otherwise requests a display refresh. */
  lemma AlarmNeverRecords(f: Flags, shouldTerminate: bool)
    ensures React(f, SIGALRM, shouldTerminate).Exit? <==> shouldTerminate
    ensures shouldTerminate ==> React(f, SIGALRM, shouldTerminate) == Exit(EXIT_FAILURE, MSG_FORCED)
    ensures !shouldTerminate ==>
      React(f, SIGALRM, shouldTerminate) == Return(Flags(f.sigReceived, true))
  {
  }

  /** A stop-type signal is recorded when none was, and forces an exit when one was; the display flag is left alone. */
  lemma StopRecordsOnce(f: Flags, sig: int, shouldTerminate: bool)
    requires IsStop(sig)
    ensures f.sigReceived == 0 ==> React(f, sig, shouldTerminate) == Return(Flags(sig, f.showDisplay))
    ensures f.sigReceived != 0 ==> React(f, sig, shouldTerminate) == Exit(EXIT_FAILURE, MSG_REPEATED)
  {
  }

  // ---------------------------------------------------------------------
  // Sequences of deliveries

  /** Once a stop signal is recorded it is never overwritten nor reset to 0. */
  lemma {:induction false} RecordIsFinal(f: Flags, evs: seq<SignalEvent>)
    requires AllHandled(evs)
    requires f.sigReceived != 0
    ensures Deliver(f, evs).Return? ==> Deliver(f, evs).flags.sigReceived == f.sigReceived
    decreases |evs|
  {
    if evs != [] {
      var e := evs[0];
      if React(f, e.sig, e.shouldTerminate).Return? {
        RecordIsFinal(React(f, e.sig, e.shouldTerminate).flags, evs[1..]);
      }
    }
  }

  /**
   * Starting from no recorded signal, if the process survives the deliveries
   * then `sigReceived` holds the first stop signal delivered, or still 0 when
   * only timer ticks came; at most one stop signal was delivered.
   */
  lemma {:induction false} RecordsFirstStop(f: Flags, evs: seq<SignalEvent>)
    requires AllHandled(evs)
    requires f.sigReceived == 0
    ensures Deliver(f, evs).Return? ==>
      Deliver(f, evs).flags.sigReceived == FirstStop(evs) && StopCount(evs) <= 1
    decreases |evs|
  {
    if evs != [] {
      var e := evs[0];
      match React(f, e.sig, e.shouldTerminate)
      case Exit(_, _) =>
      case Return(g) =>
        if IsStop(e.sig) {
          RecordIsFinal(g, evs[1..]);
          if StopCount(evs[1..]) >= 1 {
            ForcedByStops(g, evs[1..]);
          }
        } else {
          RecordsFirstStop(g, evs[1..]);
        }
    }
  }

  /**
   * The process is always stoppable: a second stop-type signal (counting one
   * already recorded) always ends it with EXIT_FAILURE.
   */
  lemma {:induction false} ForcedByStops(f: Flags, evs: seq<SignalEvent>)
    requires AllHandled(evs)
    requires StopCount(evs) + (if f.sigReceived != 0 then 1 else 0) >= 2
    ensures Deliver(f, evs).Exit? && Deliver(f, evs).code == EXIT_FAILURE
    decreases |evs|
  {
    var e := evs[0];
    match React(f, e.sig, e.shouldTerminate)
    case Exit(_, _) =>
    case Return(g) =>
      ForcedByStops(g, evs[1..]);
  }

  /** Every exit the handler takes reports failure, with one of its two messages. */
  lemma {:induction false} ExitsFail(f: Flags, evs: seq<SignalEvent>)
    requires AllHandled(evs)
    ensures Deliver(f, evs).Exit? ==>
      Deliver(f, evs).code == EXIT_FAILURE &&
      (Deliver(f, evs).msg == MSG_FORCED || Deliver(f, evs).msg == MSG_REPEATED)
    decreases |evs|
  {
    if evs != [] {
      var e := evs[0];
      if React(f, e.sig, e.shouldTerminate).Return? {
        ExitsFail(React(f, e.sig, e.shouldTerminate).flags, evs[1..]);
      }
    }
  }

  // ---------------------------------------------------------------------
  // The globals, updated in place by the handler

  class SignalState {
    var sigReceived: int
    var showDisplay: bool

    /** The globals as a value. */
    function Current(): Flags
      reads this
    {
      Flags(sigReceived, showDisplay)
    }

    /** The globals' static initialisers: no signal received, display requested. */
    constructor ()
      ensures Current() == Initial
    {
      sigReceived := 0;
      showDisplay := true;
    }

    /** sigHandler: runs on the control thread when one of the handled signals is delivered. */
    method Handle(sig: int, shouldTerminate: bool) returns (r: Reaction)
      requires IsHandled(sig)
      modifies this
      ensures r == React(old(Current()), sig, shouldTerminate)
      ensures r.Return? ==> Current() == r.flags
      ensures r.Exit? ==> Current() == old(Current())
    {
      if sig == SIGALRM {
        if shouldTerminate {
          return Exit(EXIT_FAILURE, MSG_FORCED);
        }
        showDisplay := true;
        return Return(Current());
      }
      if sigReceived != 0 {
        return Exit(EXIT_FAILURE, MSG_REPEATED);
      }
      sigReceived := sig;
      return Return(Current());
    }

    /** The kernel delivering `evs` one after another, while the control thread is blocked elsewhere. */
    method DeliverAll(evs: seq<SignalEvent>) returns (r: Reaction)
      requires AllHandled(evs)
      modifies this
      ensures r == Deliver(old(Current()), evs)
      ensures r.Return? ==> Current() == r.flags
    {
      var i := 0;
      while i < |evs|
        invariant 0 <= i <= |evs|
        invariant Deliver(Current(), evs[i..]) == Deliver(old(Current()), evs)
      {
        assert evs[i..][0] == evs[i] && evs[i..][1..] == evs[i + 1..];
        r := Handle(evs[i].sig, evs[i].shouldTerminate);
        if r.Exit? {
          return;
        }
        i := i + 1;
      }
      r := Return(Current());
    }
  }
}
