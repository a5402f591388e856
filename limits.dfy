/**
 * Best-effort provisioning of the open-file-descriptor limit (RLIMIT_NOFILE)
 * before the fuzzing threads start. Failures are logged, never fatal.
 */
module Limits {

  /** The soft limit the fuzzer wants at least. */
  const FLOOR: int := 1024

  /** rlim_t: an unsigned 64-bit integer (RLIM_INFINITY is its largest value). */
  newtype RLim = x: int | 0 <= x < 0x1_0000_0000_0000_0000

  /** A soft (`cur`) and hard (`max`) limit pair, as getrlimit reports it. */
  datatype RLimit = RLimit(cur: RLim, max: RLim)

  /**
   * What to do with the limits once they are known. HardTooLow is the
   * hard limit below the floor, which is logged as an error (LOG_E).
   */
  datatype Decision = NoOp | HardTooLow | Raise(newCur: RLim)

  /** What gets logged: nothing, a warning (PLOG_W) or an error (LOG_E / PLOG_E). */
  datatype LogLevel = Quiet | Warning | Error

  /** The descriptor limits after provisioning, and what was logged. */
  datatype Provision = Provision(limit: RLimit, log: LogLevel)

  function Min(a: RLim, b: RLim): (m: RLim)
    ensures m <= a && m <= b && (m == a || m == b)
  {
    if a <= b then a else b
  }

  /**
   * The decision on known limits: leave a soft limit that meets the floor,
   * give up (logged as an error) when the hard limit is below the floor, and otherwise raise the soft
   * limit to MIN(1024, hard), which is then exactly the floor.
   */
  function Decide(l: RLimit): (d: Decision)
    ensures d == NoOp <==> l.cur as int >= FLOOR
    ensures d == HardTooLow <==> l.cur as int < FLOOR && l.max as int < FLOOR
    ensures d.Raise? <==> l.cur as int < FLOOR <= l.max as int
    ensures d.Raise? ==> l.cur < d.newCur <= l.max && d.newCur as int == FLOOR
  {
    if l.cur >= 1024 then NoOp
    else if l.max < 1024 then HardTooLow
    else Raise(Min(1024, l.max))
  }

  /**
   * setupRLimits: `actual` is the process's limit pair, `getOk` and `setOk`
   * whether getrlimit and setrlimit succeed. The result is the limit pair in
   * force afterwards; there is no outcome that stops the run.
   */
  function SetupRLimits(actual: RLimit, getOk: bool, setOk: bool): (p: Provision)
    // the hard limit is never touched
    ensures p.limit.max == actual.max
    // the soft limit only changes by being raised to the floor, from below it, within the hard limit
    ensures p.limit.cur != actual.cur <==> getOk && setOk && actual.cur as int < FLOOR <= actual.max as int
    ensures p.limit.cur != actual.cur ==> actual.cur < p.limit.cur <= p.limit.max && p.limit.cur as int == FLOOR
    // a valid pair stays valid
    ensures actual.cur <= actual.max ==> p.limit.cur <= p.limit.max
    // silence means the floor is met; every other outcome is logged
    ensures p.log == Quiet <==> p.limit.cur as int >= FLOOR && getOk
    ensures !getOk ==> p.log == Warning
    // the hard limit below the floor, or a failed setrlimit, is logged as an error
    ensures p.log == Error <==> getOk && p.limit.cur as int < FLOOR
  {
    if !getOk then Provision(actual, Warning)
    else match Decide(actual)
      case NoOp => Provision(actual, Quiet)
      case HardTooLow => Provision(actual, Error)
      case Raise(n) =>
        if setOk then Provision(RLimit(n, actual.max), Quiet)
        else Provision(actual, Error)
  }

  /** Provisioning twice changes nothing the second time: a successful raise meets the floor. */
  lemma Idempotent(actual: RLimit, getOk: bool, setOk: bool)
    ensures var p := SetupRLimits(actual, getOk, setOk);
      SetupRLimits(p.limit, getOk, setOk).limit == p.limit
  {
  }
}
