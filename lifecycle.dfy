/**
 * Vocabulary shared by the two supervision loops (the interface-based one and
 * the legacy struct-based one): what a call into service code does, which
 * lifecycle call was made, what the loop decides after a failure, what it logs,
 * and how a supervised run ends.
 */
module Lifecycle {
  import opened Wrappers
  import opened Errors
  import Config

  /** What one call into code the supervisor cannot see does: return nil, return an error, or panic. */
  datatype Call = Returns | Fails(err: Error) | Panics(value: PanicValue)

  /** The lifecycle calls the supervisor makes, recorded in the order they happen. */
  datatype Phase = OtelInit | InitCall | RunCall | CloseCall | OtelShutdown

  /** Why the loop stopped after an attempt. */
  datatype StopReason =
    | Succeeded            // the attempt returned no error
    | NotRestarted         // restarts are off, or the error is not eligible for restart
    | GracePeriodExceeded  // more time than the grace period has passed since the first attempt
    | GraceCountExceeded   // the restart counter went past the grace count
    | PanicNotRestarted    // the attempt panicked and panic restarts are off

  /** The loop's decision after one attempt. */
  datatype Verdict = Stop(reason: StopReason) | Restart(delay: int)

  /** Structured log attributes (`slog` key/value pairs); durations are nanoseconds. */
  datatype AttrValue = ErrorValue(err: Error) | DurationValue(nanos: int) | IntValue(n: int)
  datatype Attr = Attr(key: string, value: AttrValue)

  /** One error-level log line written by a loop. */
  datatype LogRecord = LogRecord(msg: string, attrs: seq<Attr>)

  /**
   * How a supervised run ends: it returns (nil or an error), a panic escapes it
   * (panic recovery off, or a panic outside the recovered region), or the
   * scripted attempts ran out while the loop would still go on.
   */
  datatype Exit = Returned(err: Option<Error>) | Aborted(value: PanicValue) | StillRunning

  /** A whole run: its end, the attempts made, the restart delays slept, and the error log lines. */
  datatype Trace = Trace(exit: Exit, attempts: nat, delays: seq<int>, logs: seq<LogRecord>)

  const GracePeriodMsg: string := "service failed, exceeded grace period"
  const GraceCountMsg: string := "service failed, exceeded grace count"
  const RestartDelayedMsg: string := "service failed, restarting after delay"
  const RestartNowMsg: string := "service failed, restarting immediately"

  /** The error-level message both loops log for a verdict, if they log one at all. */
  function VerdictMessage(v: Verdict): (m: Option<string>)
    ensures m.None? <==> v.Stop? && v.reason in {Succeeded, NotRestarted, PanicNotRestarted}
    ensures v.Restart? ==> m == Some(if v.delay > 0 then RestartDelayedMsg else RestartNowMsg)
    ensures v == Stop(GracePeriodExceeded) ==> m == Some(GracePeriodMsg)
    ensures v == Stop(GraceCountExceeded) ==> m == Some(GraceCountMsg)
  {
    match v
    case Restart(d) => Some(if d > 0 then RestartDelayedMsg else RestartNowMsg)
    case Stop(GracePeriodExceeded) => Some(GracePeriodMsg)
    case Stop(GraceCountExceeded) => Some(GraceCountMsg)
    case Stop(_) => None
  }

  const ShutdownFailedMsg: string := "service shutdown failed"

  /** The "service shutdown failed" line both attempts log for a cleanup error, which is never returned. */
  function ShutdownLogs(err: Option<Error>): (logs: seq<LogRecord>)
    ensures err.None? <==> logs == []
    ensures err.Some? ==> logs == [LogRecord(ShutdownFailedMsg, [Attr("error", ErrorValue(err.value))])]
  {
    if err.Some? then [LogRecord(ShutdownFailedMsg, [Attr("error", ErrorValue(err.value))])] else []
  }

  /** The delay before a restart: the panic delay for a panic when it is set (> 0), otherwise the error delay. */
  function RestartDelay(opts: Config.Options, isPanic: bool): (d: int)
    ensures isPanic && opts.restartOnPanicDelay > 0 ==> d == opts.restartOnPanicDelay
    ensures !(isPanic && opts.restartOnPanicDelay > 0) ==> d == opts.restartOnErrorDelay
  {
    if isPanic && opts.restartOnPanicDelay > 0 then opts.restartOnPanicDelay else opts.restartOnErrorDelay
  }

  /**
   * The rules both loops apply to a failure eligible for restart, in the
   * source's order: the grace period (elapsed time since the first attempt),
   * then the grace count (against the loop's counter `count`), then the panic
   * rule; a failure that passes all three is restarted after `RestartDelay`.
   * A ceiling of zero or less is off.
   */
  function GraceVerdict(opts: Config.Options, isPanic: bool, count: int, elapsed: int): (v: Verdict)
    ensures v != Stop(Succeeded) && v != Stop(NotRestarted)
    ensures v == Stop(GracePeriodExceeded) <==> opts.gracePeriod > 0 && elapsed > opts.gracePeriod
    ensures v == Stop(GraceCountExceeded) <==>
      !(opts.gracePeriod > 0 && elapsed > opts.gracePeriod) && opts.graceCount > 0 && count > opts.graceCount
    ensures v == Stop(PanicNotRestarted) <==>
      !(opts.gracePeriod > 0 && elapsed > opts.gracePeriod) && !(opts.graceCount > 0 && count > opts.graceCount) &&
      isPanic && !opts.restartOnPanic
    ensures v.Restart? ==> v.delay == RestartDelay(opts, isPanic)
    ensures opts.gracePeriod <= 0 && opts.graceCount <= 0 && (!isPanic || opts.restartOnPanic) ==> v.Restart?
  {
    if opts.gracePeriod > 0 && elapsed > opts.gracePeriod then Stop(GracePeriodExceeded)
    else if opts.graceCount > 0 && count > opts.graceCount then Stop(GraceCountExceeded)
    else if isPanic && !opts.restartOnPanic then Stop(PanicNotRestarted)
    else Restart(RestartDelay(opts, isPanic))
  }

  /**
   * The error line logged for a verdict: the attributes gathered so far, plus
   * the restart delay when the loop restarts. Stops other than the two grace
   * ceilings log nothing.
   */
  function VerdictLogs(v: Verdict, attrs: seq<Attr>): (logs: seq<LogRecord>)
    ensures |logs| <= 1
    ensures logs == [] <==> VerdictMessage(v).None?
    ensures logs != [] ==> logs[0].msg == VerdictMessage(v).value
    ensures logs != [] && v.Stop? ==> logs[0].attrs == attrs
    ensures v.Restart? ==> logs == [LogRecord(VerdictMessage(v).value, attrs + [Attr("restart_delay", DurationValue(v.delay))])]
  {
    match VerdictMessage(v)
    case None => []
    case Some(m) => [LogRecord(m, if v.Restart? then attrs + [Attr("restart_delay", DurationValue(v.delay))] else attrs)]
  }

  /** The run `t`, preceded by `attempts` attempts that chose `delays` and logged `logs`. */
  function After(attempts: nat, delays: seq<int>, logs: seq<LogRecord>, t: Trace): (r: Trace)
    ensures r.exit == t.exit && r.attempts == attempts + t.attempts
    ensures r.delays == delays + t.delays && r.logs == logs + t.logs
  {
    Trace(t.exit, attempts + t.attempts, delays + t.delays, logs + t.logs)
  }

  /** Runs continue by concatenation: two prefixes in a row are one prefix. */
  lemma AfterAfter(n1: nat, d1: seq<int>, l1: seq<LogRecord>, n2: nat, d2: seq<int>, l2: seq<LogRecord>, t: Trace)
    ensures After(n1, d1, l1, After(n2, d2, l2, t)) == After(n1 + n2, d1 + d2, l1 + l2, t)
  {
    assert d1 + (d2 + t.delays) == (d1 + d2) + t.delays;
    assert l1 + (l2 + t.logs) == (l1 + l2) + t.logs;
  }

  /** One turn of a supervision loop: it ends the run, or restarts after a delay; either way with the lines it logged. */
  datatype Turn = Stopped(exit: Exit, logs: seq<LogRecord>) | Restarted(delay: int, logs: seq<LogRecord>)

  /**
   * The run made of a sequence of turns, taken in order: it ends at the first
   * turn that stops, collecting the delay and the log lines of every restart
   * before it, and is still running when the turns run out.
   */
  function Play(turns: seq<Turn>): Trace
    decreases |turns|
  {
    if turns == [] then Trace(StillRunning, 0, [], [])
    else
      match turns[0]
      case Stopped(exit, logs) => Trace(exit, 1, [], logs)
      case Restarted(d, logs) => After(1, [d], logs, Play(turns[1..]))
  }

  /**
   * The shape of every run: no more attempts than turns, one delay per
   * restart and each the delay its turn chose; a run that ended did so on a
   * stopping turn, with that turn's exit and its log lines last.
   */
  lemma {:induction false} PlayShape(turns: seq<Turn>)
    requires forall j :: 0 <= j < |turns| && turns[j].Stopped? ==> !turns[j].exit.StillRunning?
    ensures var t := Play(turns);
      && t.attempts <= |turns|
      && (t.exit.StillRunning? ==> t.attempts == |turns|)
      && |t.delays| == (if t.exit.StillRunning? then t.attempts else t.attempts - 1)
      && (forall j :: 0 <= j < |t.delays| ==> turns[j].Restarted? && t.delays[j] == turns[j].delay)
      && (!t.exit.StillRunning? ==>
            && t.attempts >= 1
            && turns[t.attempts - 1].Stopped?
            && t.exit == turns[t.attempts - 1].exit
            && |t.logs| >= |turns[t.attempts - 1].logs|
            && t.logs[|t.logs| - |turns[t.attempts - 1].logs|..] == turns[t.attempts - 1].logs)
    decreases |turns|
  {
    if turns != [] && turns[0].Restarted? {
      var rest := Play(turns[1..]);
      forall j | 0 <= j < |turns| - 1 && turns[1..][j].Stopped? ensures !turns[1..][j].exit.StillRunning? {
        assert turns[1..][j] == turns[j + 1];
      }
      PlayShape(turns[1..]);
      assert Play(turns) == After(1, [turns[0].delay], turns[0].logs, rest);
      assert |turns[1..]| == |turns| - 1;
      forall j | 1 <= j < |rest.delays| + 1 ensures turns[j] == turns[1..][j - 1] { }
      if !rest.exit.StillRunning? {
        var n := |turns[rest.attempts].logs|;
        assert turns[1..][rest.attempts - 1] == turns[rest.attempts];
        assert (turns[0].logs + rest.logs)[|turns[0].logs + rest.logs| - n..] == rest.logs[|rest.logs| - n..];
      }
    } else if turns != [] {
      assert Play(turns) == Trace(turns[0].exit, 1, [], turns[0].logs);
    }
  }

  /**
   * A run whose first `k` turns restart and whose turn `k` stops ends on turn
   * `k`, with its exit and its log lines last, after one delay per restart.
   */
  lemma {:induction false} PlayStopsAt(turns: seq<Turn>, k: nat)
    requires k < |turns|
    requires forall j :: 0 <= j < k ==> turns[j].Restarted?
    requires turns[k].Stopped?
    ensures var t := Play(turns);
      && t.attempts == k + 1
      && t.exit == turns[k].exit
      && |t.delays| == k
      && |t.logs| >= |turns[k].logs|
      && t.logs[|t.logs| - |turns[k].logs|..] == turns[k].logs
    decreases k
  {
    if k > 0 {
      forall j | 0 <= j < k - 1 ensures turns[1..][j].Restarted? {
        assert turns[1..][j] == turns[j + 1];
      }
      assert turns[1..][k - 1] == turns[k];
      PlayStopsAt(turns[1..], k - 1);
      var rest := Play(turns[1..]);
      assert turns[0].Restarted?;
      assert Play(turns) == After(1, [turns[0].delay], turns[0].logs, rest);
      var n := |turns[k].logs|;
      assert (turns[0].logs + rest.logs)[|turns[0].logs + rest.logs| - n..] == rest.logs[|rest.logs| - n..];
    } else {
      assert turns[0].Stopped?;
      assert Play(turns) == Trace(turns[0].exit, 1, [], turns[0].logs);
    }
  }

  /** A run whose every turn restarts is still running when the turns run out, having waited each turn's delay. */
  lemma {:induction false} PlayGoesThrough(turns: seq<Turn>)
    requires forall j :: 0 <= j < |turns| ==> turns[j].Restarted?
    ensures var t := Play(turns);
      && t.exit.StillRunning?
      && t.attempts == |turns|
      && |t.delays| == |turns|
      && forall j :: 0 <= j < |turns| ==> t.delays[j] == turns[j].delay
    decreases |turns|
  {
    if turns != [] {
      forall j | 0 <= j < |turns| - 1 ensures turns[1..][j].Restarted? {
        assert turns[1..][j] == turns[j + 1];
      }
      PlayGoesThrough(turns[1..]);
      var rest := Play(turns[1..]);
      assert turns[0].Restarted?;
      assert Play(turns) == After(1, [turns[0].delay], turns[0].logs, rest);
      forall j | 1 <= j < |turns| ensures Play(turns).delays[j] == turns[j].delay {
        assert turns[1..][j - 1] == turns[j];
      }
    }
  }
}
