/**
 * The interface-based supervisor (run.go): one attempt runs Init, Run and
 * Close and classifies what happened; the loop restarts failed attempts under
 * the restart options; `RunC` validates the service identity, resolves the
 * options, decorates the context and hands over to the loop.
 *
 * What the hosted service's calls do is given per attempt (`Attempt`), and so
 * is the time elapsed since the first attempt when the loop checks the grace
 * period; a run is a finite script of attempts.
 */
module Supervisor {
  import opened Wrappers
  import opened Errors
  import opened Lifecycle
  import opened Context
  import Config
  import Names
  import Namespaces
  import Versions
  import Logging
  import Decoration
  import Slog

  const InitFailedMsg: string := "service initialization failed"
  const RunFailedMsg: string := "service run failed"
  const InvalidServiceMsg: string := "invalid service"
  const EmptyNameMsg: string := "service name cannot be empty"
  const EmptyNamespaceMsg: string := "service namespace cannot be empty"
  const OtelInitFailedMsg: string := "failed to initialize OTEL"
  const OtelShutdownFailedMsg: string := "OTEL shutdown failed"

  /** The identity a `Service` implementation reports. */
  datatype ServiceInfo = ServiceInfo(name: string, namespace: string, version: string)

  /** One attempt as scripted: what Init, Run and Close do, and the time since the first attempt after it. */
  datatype Attempt = Attempt(init: Call, run: Call, close: Call, elapsed: nat)

  /**
   * What `runOnce` produced: its results `(err, isPanic)` together with the
   * calls it made and the Close error it only logged; or a panic that escaped
   * because recovery is off.
   */
  datatype Outcome =
    | Finished(err: Option<Error>, isPanic: bool, calls: seq<Phase>, closeErr: Option<Error>)
    | Crashed(value: PanicValue, calls: seq<Phase>)

  /** The behaviour of the call made in phase `p` of an attempt. */
  function CallOf(a: Attempt, p: Phase): Call {
    match p
    case InitCall => a.init
    case RunCall => a.run
    case CloseCall => a.close
    case _ => Returns
  }

  /** The error a call leaves in `runOnce`'s named result when it returns. */
  function ResultOf(c: Call): (r: Option<Error>)
    ensures r.Some? <==> c.Fails?
    ensures c.Fails? ==> r == Some(c.err)
  {
    if c.Fails? then Some(c.err) else None
  }

  /**
   * The deferred recover in `runOnce`: with recovery on, a panic becomes a
   * "panic" error whose cause is the panic value (as an error) and whose
   * related error is what the named result `err` held when the panic struck;
   * with recovery off the panic escapes.
   */
  function Recovered(v: PanicValue, pending: Option<Error>, recoverPanic: bool, calls: seq<Phase>): (o: Outcome)
    ensures o.calls == calls
    ensures recoverPanic <==> o.Finished?
    ensures o.Finished? ==> o == Finished(Some(Panic(PanicCause(v), pending)), true, calls, None)
    ensures o.Crashed? ==> o.value == v
  {
    if recoverPanic then Finished(Some(Panic(PanicCause(v), pending)), true, calls, None) else Crashed(v, calls)
  }

  /** The calls an attempt reaches: Run only after Init returned, Close only after Run returned or was cancelled. */
  function Reached(a: Attempt): seq<Phase> {
    if !a.init.Returns? then [InitCall]
    else if !ReachesClose(a) then [InitCall, RunCall]
    else [InitCall, RunCall, CloseCall]
  }

  /** Whether an attempt gets as far as Close: Init returned, and Run returned or was cancelled. */
  predicate ReachesClose(a: Attempt) {
    a.init.Returns? && !a.run.Panics? && !(a.run.Fails? && !IsCanceled(a.run.err))
  }

  /** What `runOnce` does with one attempt. */
  function AttemptOutcome(a: Attempt, recoverPanic: bool): (o: Outcome)
    ensures a.init.Fails? ==> o == Finished(Some(Wrapped(InitFailedMsg, a.init.err)), false, [InitCall], None)
    ensures a.init.Returns? && a.run.Fails? && !IsCanceled(a.run.err) ==>
      o == Finished(Some(Wrapped(RunFailedMsg, a.run.err)), false, [InitCall, RunCall], None)
    ensures o.Finished? && o.err.None? <==> ReachesClose(a) && !a.close.Panics?
    ensures o.Finished? && o.closeErr.Some? ==> o.err.None? && a.close == Fails(o.closeErr.value)
    ensures o.Finished? ==> (o.isPanic <==> o.err.Some? && o.err.value.Panic?)
  {
    match a.init
    case Fails(e) => Finished(Some(Wrapped(InitFailedMsg, e)), false, [InitCall], None)
    case Panics(v) => Recovered(v, None, recoverPanic, [InitCall])
    case Returns =>
      if a.run.Panics? then Recovered(a.run.value, None, recoverPanic, [InitCall, RunCall])
      else if a.run.Fails? && !IsCanceled(a.run.err) then
        Finished(Some(Wrapped(RunFailedMsg, a.run.err)), false, [InitCall, RunCall], None)
      else
        var calls := [InitCall, RunCall, CloseCall];
        match a.close
        case Returns => Finished(None, false, calls, None)
        case Fails(e) => Finished(None, false, calls, Some(e))
        case Panics(v) => Recovered(v, ResultOf(a.run), recoverPanic, calls)
  }

  /**
   * The calls an attempt makes, and what its panic becomes: the panic escapes
   * exactly when recovery is off and the last call reached panicked; a
   * recovered panic carries as related error the Run result pending when
   * Close panicked, and none otherwise.
   */
  lemma AttemptCalls(a: Attempt, recoverPanic: bool)
    ensures var o := AttemptOutcome(a, recoverPanic); var last := Reached(a)[|Reached(a)| - 1];
      && o.calls == Reached(a)
      && (o.Crashed? <==> !recoverPanic && CallOf(a, last).Panics?)
      && (o.Finished? && o.isPanic ==>
            o.err == Some(Panic(PanicCause(CallOf(a, last).value), if last == CloseCall then ResultOf(a.run) else None)))
  {
  }

  /** `runOnce`, step by step: Init, then Run, then Close, each panic handed to the deferred recover. */
  method RunOnce(a: Attempt, recoverPanic: bool) returns (o: Outcome)
    ensures o == AttemptOutcome(a, recoverPanic)
  {
    var err: Option<Error> := None;
    var calls := [InitCall];
    match a.init {
      case Panics(v) =>
        return Recovered(v, err, recoverPanic, calls);
      case Fails(e) =>
        return Finished(Some(Wrapped(InitFailedMsg, e)), false, calls, None);
      case Returns =>
    }

    calls := calls + [RunCall];
    if a.run.Panics? {
      return Recovered(a.run.value, err, recoverPanic, calls);
    }
    err := ResultOf(a.run);
    if err.Some? && !IsCanceled(err.value) {
      return Finished(Some(Wrapped(RunFailedMsg, err.value)), false, calls, None);
    }

    calls := calls + [CloseCall];
    if a.close.Panics? {
      return Recovered(a.close.value, err, recoverPanic, calls);
    }
    err := ResultOf(a.close);
    o := Finished(None, false, calls, err);
  }

  /** The attributes of the loop's error line: the error, then the ceilings in force and what is left of the count. */
  function GraceAttrs(opts: Config.Options, err: Error, count: int): (attrs: seq<Attr>)
  {
    [Attr("error", ErrorValue(err))]
    + (if opts.gracePeriod > 0 then [Attr("grace_period", DurationValue(opts.gracePeriod))] else [])
    + (if opts.graceCount > 0
       then [Attr("grace_count", IntValue(opts.graceCount)), Attr("grace_count_remaining", IntValue(opts.graceCount - count))]
       else [])
  }

  /** The error line always names the error first, and the ceilings only when they are on. */
  lemma GraceAttrsContent(opts: Config.Options, err: Error, count: int)
    ensures var attrs := GraceAttrs(opts, err, count);
      && |attrs| >= 1 && attrs[0] == Attr("error", ErrorValue(err))
      && (Attr("grace_period", DurationValue(opts.gracePeriod)) in attrs <==> opts.gracePeriod > 0)
      && (Attr("grace_count_remaining", IntValue(opts.graceCount - count)) in attrs <==> opts.graceCount > 0)
  {
  }

  /**
   * What `runLoop` does with the outcome `o` of one attempt, `count` failures
   * counted before it and `elapsed` the time since the first attempt: a nil
   * result ends the run, and so does an error while restarts are off or that
   * is not recoverable; any other error advances the counter and is judged by
   * `GraceVerdict`.
   */
  function TurnFrom(opts: Config.Options, o: Outcome, count: int, elapsed: int): (r: Turn)
    ensures r.Stopped? ==> !r.exit.StillRunning?
    ensures r.Stopped? && r.exit.Aborted? ==> o.Crashed? && r.exit.value == o.value
    ensures r.Stopped? && r.exit.Returned? ==> o.Finished? && r.exit.err == o.err
    ensures o.Crashed? ==> r == Stopped(Aborted(o.value), [])
    ensures o.Finished? && o.err.None? ==> r == Stopped(Returned(None), ShutdownLogs(o.closeErr))
    ensures o.Finished? && o.err.Some? && (!opts.restartOnError || !IsRecoverable(o.err.value)) ==>
      r == Stopped(Returned(o.err), ShutdownLogs(o.closeErr))
    ensures r.Restarted? ==> o.Finished? && o.err.Some? && opts.restartOnError && IsRecoverable(o.err.value)
    ensures o.Finished? && o.err.Some? && opts.restartOnError && IsRecoverable(o.err.value) ==>
      var v := GraceVerdict(opts, o.isPanic, count + 1, elapsed);
      && (r.Restarted? <==> v.Restart?)
      && (r.Stopped? ==> r.exit == Returned(o.err))
      && (r.Restarted? ==> r.delay == RestartDelay(opts, o.isPanic))
  {
    match o
    case Crashed(v, _) => Stopped(Aborted(v), [])
    case Finished(err, isPanic, _, closeErr) =>
      if err.None? then Stopped(Returned(None), ShutdownLogs(closeErr))
      else if !opts.restartOnError || !IsRecoverable(err.value) then Stopped(Returned(err), ShutdownLogs(closeErr))
      else
        var v := GraceVerdict(opts, isPanic, count + 1, elapsed);
        var logs := ShutdownLogs(closeErr) + VerdictLogs(v, GraceAttrs(opts, err.value, count + 1));
        if v.Stop? then Stopped(Returned(err), logs) else Restarted(v.delay, logs)
  }

  /** The error `runOnce` returns for an attempt (none when the panic escaped). */
  function ErrorOf(opts: Config.Options, a: Attempt): Option<Error> {
    var o := AttemptOutcome(a, opts.recoverPanic);
    if o.Finished? then o.err else None
  }

  /** Whether `runOnce` reports the attempt as a recovered panic. */
  predicate PanickedOf(opts: Config.Options, a: Attempt) {
    var o := AttemptOutcome(a, opts.recoverPanic);
    o.Finished? && o.isPanic
  }

  /** The turn the loop takes on attempt `a`. */
  function TurnOf(opts: Config.Options, a: Attempt, count: int): Turn {
    TurnFrom(opts, AttemptOutcome(a, opts.recoverPanic), count, a.elapsed)
  }

  /** The turns the loop would take on each scripted attempt, `count` failures counted before the first. */
  function Turns(opts: Config.Options, script: seq<Attempt>, count: int): (ts: seq<Turn>)
    ensures |ts| == |script|
    ensures forall j :: 0 <= j < |script| ==> ts[j] == TurnOf(opts, script[j], count + j)
  {
    seq(|script|, j requires 0 <= j < |script| => TurnOf(opts, script[j], count + j))
  }

  /**
   * `runLoop` over a script of attempts, `count` failures already counted.
   * The run stops at the first attempt that succeeds, escapes, or fails in a
   * way the options do not restart; it is still running when the script ends.
   */
  function Supervise(opts: Config.Options, script: seq<Attempt>, count: int): Trace {
    Play(Turns(opts, script, count))
  }

  /** One step of the loop: the first attempt's turn stops the run, or restarts it with one more failure counted. */
  lemma SuperviseStep(opts: Config.Options, script: seq<Attempt>, count: int)
    requires script != []
    ensures var turn := TurnOf(opts, script[0], count);
      && (turn.Stopped? ==> Supervise(opts, script, count) == Trace(turn.exit, 1, [], turn.logs))
      && (turn.Restarted? ==>
            Supervise(opts, script, count) == After(1, [turn.delay], turn.logs, Supervise(opts, script[1..], count + 1)))
  {
    var ts := Turns(opts, script, count);
    assert ts[0] == TurnOf(opts, script[0], count + 0);
    assert ts[1..] == Turns(opts, script[1..], count + 1) by {
      forall j | 0 <= j < |script| - 1 ensures ts[1..][j] == Turns(opts, script[1..], count + 1)[j] {
        assert script[1..][j] == script[j + 1];
      }
    }
  }

  /** Every stopping turn ends the run: a turn never stops with the run still going. */
  lemma StopsEnd(opts: Config.Options, script: seq<Attempt>, count: int)
    ensures forall j :: 0 <= j < |script| && Turns(opts, script, count)[j].Stopped? ==>
      !Turns(opts, script, count)[j].exit.StillRunning?
  {
    var ts := Turns(opts, script, count);
    forall j | 0 <= j < |ts| && ts[j].Stopped? ensures !ts[j].exit.StillRunning? {
      assert ts[j] == TurnOf(opts, script[j], count + j);
    }
  }

  /**
   * The shape of every run: no more attempts than scripted, one delay per
   * restart and every restart the turn of its attempt; a run that ended did so
   * on the turn of its last attempt (`TurnBlame` says what that turn reports).
   */
  lemma SuperviseShape(opts: Config.Options, script: seq<Attempt>, count: int)
    ensures var t := Supervise(opts, script, count);
      && t.attempts <= |script|
      && (t.exit.StillRunning? ==> t.attempts == |script|)
      && |t.delays| == (if t.exit.StillRunning? then t.attempts else t.attempts - 1)
      && (forall j :: 0 <= j < |t.delays| ==> TurnOf(opts, script[j], count + j).Restarted?)
      && (!t.exit.StillRunning? ==>
            && t.attempts >= 1
            && TurnOf(opts, script[t.attempts - 1], count + (t.attempts - 1)).Stopped?
            && t.exit == TurnOf(opts, script[t.attempts - 1], count + (t.attempts - 1)).exit)
  {
    StopsEnd(opts, script, count);
    PlayShape(Turns(opts, script, count));
  }

  /** Whose result one turn reports: a restart follows a failure, and a stop reports the attempt's own result. */
  lemma TurnBlame(opts: Config.Options, a: Attempt, count: int)
    ensures var turn := TurnOf(opts, a, count); var o := AttemptOutcome(a, opts.recoverPanic);
      && (turn.Restarted? ==> o.Finished? && o.err.Some?)
      && (turn.Stopped? && turn.exit.Returned? ==> o.Finished? && o.err == turn.exit.err)
      && (turn.Stopped? && turn.exit.Aborted? ==> o.Crashed? && o.value == turn.exit.value)
  {
  }

  /**
   * The part of `runLoop` after the restart counter was advanced to `count`:
   * gather the log attributes, check the grace period, then the grace count,
   * then the panic rule, and choose the delay, logging the verdict.
   */
  method CheckCeilings(opts: Config.Options, err: Error, isPanic: bool, count: int, elapsed: int)
    returns (v: Verdict, line: seq<LogRecord>)
    ensures v == GraceVerdict(opts, isPanic, count, elapsed)
    ensures line == VerdictLogs(v, GraceAttrs(opts, err, count))
  {
    var logAttrs := [Attr("error", ErrorValue(err))];
    if opts.gracePeriod > 0 {
      logAttrs := logAttrs + [Attr("grace_period", DurationValue(opts.gracePeriod))];
    }
    if opts.graceCount > 0 {
      logAttrs := logAttrs + [Attr("grace_count", IntValue(opts.graceCount)),
                              Attr("grace_count_remaining", IntValue(opts.graceCount - count))];
    }
    assert logAttrs == GraceAttrs(opts, err, count);

    if opts.gracePeriod > 0 && elapsed > opts.gracePeriod {
      return Stop(GracePeriodExceeded), [LogRecord(GracePeriodMsg, logAttrs)];
    }
    if opts.graceCount > 0 && count > opts.graceCount {
      return Stop(GraceCountExceeded), [LogRecord(GraceCountMsg, logAttrs)];
    }

    var restartDelay := opts.restartOnErrorDelay;
    if isPanic {
      if !opts.restartOnPanic {
        return Stop(PanicNotRestarted), [];
      }
      if opts.restartOnPanicDelay > 0 {
        restartDelay := opts.restartOnPanicDelay;
      }
    }

    logAttrs := logAttrs + [Attr("restart_delay", DurationValue(restartDelay))];
    v := Restart(restartDelay);
    if restartDelay > 0 {
      line := [LogRecord(RestartDelayedMsg, logAttrs)];
    } else {
      line := [LogRecord(RestartNowMsg, logAttrs)];
    }
  }

  /**
   * One pass of `runLoop`'s body: run the attempt, then stop on a nil result,
   * on an error that is not to be restarted, or on a ceiling or the panic
   * rule; otherwise restart after the chosen delay. `graceCount` is the
   * failures counted before this attempt.
   */
  method TakeTurn(opts: Config.Options, a: Attempt, graceCount: int) returns (turn: Turn)
    ensures turn == TurnOf(opts, a, graceCount)
  {
    var o := RunOnce(a, opts.recoverPanic);
    if o.Crashed? {
      return Stopped(Aborted(o.value), []);
    }
    var logs := ShutdownLogs(o.closeErr);
    if o.err.None? {
      return Stopped(Returned(None), logs);
    }

    var err := o.err.value;
    if !opts.restartOnError || !IsRecoverable(err) {
      return Stopped(Returned(o.err), logs);
    }

    var count := graceCount + 1;
    var v, line := CheckCeilings(opts, err, o.isPanic, count, a.elapsed);
    logs := logs + line;
    if v.Stop? {
      return Stopped(Returned(o.err), logs);
    }
    turn := Restarted(v.delay, logs);
  }

  /** `runLoop`: attempts one after the other until a turn stops the run (or the script ends). */
  method RunLoop(opts: Config.Options, script: seq<Attempt>) returns (t: Trace)
    ensures t == Supervise(opts, script, 0)
  {
    var graceCount := 0;
    var i := 0;
    var delays: seq<int> := [];
    var logs: seq<LogRecord> := [];
    assert script[0..] == script;
    assert After(0, [], [], Supervise(opts, script, 0)) == Supervise(opts, script, 0);
    while i < |script|
      invariant 0 <= i <= |script| && graceCount == i
      invariant Supervise(opts, script, 0) == After(i, delays, logs, Supervise(opts, script[i..], graceCount))
      decreases |script| - i
    {
      assert script[i..][0] == script[i] && script[i..][1..] == script[i + 1..];
      SuperviseStep(opts, script[i..], graceCount);
      var turn := TakeTurn(opts, script[i], graceCount);
      if turn.Stopped? {
        assert delays + [] == delays;
        return Trace(turn.exit, i + 1, delays, logs + turn.logs);
      }
      AfterAfter(i, delays, logs, 1, [turn.delay], turn.logs, Supervise(opts, script[i + 1..], graceCount + 1));
      graceCount := graceCount + 1;
      delays := delays + [turn.delay];
      logs := logs + turn.logs;
      i := i + 1;
    }
    t := Trace(StillRunning, i, delays, logs);
  }

  // ---------------------------------------------------------------------------
  // Properties of the loop

  /** An attempt whose failure the loop may restart: a recoverable error, from a panic only if panics restart. */
  predicate FailsRestartably(opts: Config.Options, a: Attempt) {
    var o := AttemptOutcome(a, opts.recoverPanic);
    o.Finished? && o.err.Some? && IsRecoverable(o.err.value) && (!o.isPanic || opts.restartOnPanic)
  }

  /** An attempt the loop does not restart whatever the ceilings: a nil result, or an error that is not recoverable. */
  predicate EndsRun(opts: Config.Options, a: Attempt) {
    var o := AttemptOutcome(a, opts.recoverPanic);
    o.Finished? && (o.err.None? || !IsRecoverable(o.err.value))
  }

  /** The turn the loop takes on an attempt that fails restartably is what `GraceVerdict` decides. */
  lemma RestartableTurn(opts: Config.Options, a: Attempt, count: int)
    requires opts.restartOnError && FailsRestartably(opts, a)
    ensures var v := GraceVerdict(opts, PanickedOf(opts, a), count + 1, a.elapsed);
      && (TurnOf(opts, a, count).Restarted? <==> v.Restart?)
      && (TurnOf(opts, a, count).Restarted? ==> TurnOf(opts, a, count).delay == v.delay)
      && (TurnOf(opts, a, count).Stopped? ==> TurnOf(opts, a, count).exit == Returned(ErrorOf(opts, a)))
      && (v == Stop(GracePeriodExceeded) ==> |TurnOf(opts, a, count).logs| == 1 && TurnOf(opts, a, count).logs[0].msg == GracePeriodMsg)
  {
  }

  /**
   * With restarts on and no ceiling, the run ends at the first attempt that
   * succeeds or fails unrecoverably, returning that attempt's result after
   * exactly that many attempts.
   */
  lemma RunEndsAtFirstUnrestarted(opts: Config.Options, script: seq<Attempt>, k: nat)
    requires opts.restartOnError && opts.gracePeriod <= 0 && opts.graceCount <= 0
    requires k < |script|
    requires forall j :: 0 <= j < k ==> FailsRestartably(opts, script[j])
    requires EndsRun(opts, script[k])
    ensures Supervise(opts, script, 0).exit == Returned(ErrorOf(opts, script[k]))
    ensures Supervise(opts, script, 0).attempts == k + 1
  {
    forall j | 0 <= j < k ensures TurnOf(opts, script[j], 0 + j).Restarted? {
      RestartableTurn(opts, script[j], j);
    }
    PlayStopsAt(Turns(opts, script, 0), k);
  }

  /** A first attempt that fails while restarts are off ends the run on its error, after one attempt. */
  lemma RestartsOffStopAtOnce(opts: Config.Options, script: seq<Attempt>)
    requires !opts.restartOnError && script != []
    requires AttemptOutcome(script[0], opts.recoverPanic).Finished?
    ensures Supervise(opts, script, 0) ==
      Trace(Returned(AttemptOutcome(script[0], opts.recoverPanic).err), 1, [],
            ShutdownLogs(AttemptOutcome(script[0], opts.recoverPanic).closeErr))
  {
  }

  /**
   * `GraceCount = N > 0` with no grace period: when every attempt fails
   * restartably, the loop makes exactly N + 1 attempts (N restarts) and
   * returns the error of the last.
   */
  lemma GraceCountAttempts(opts: Config.Options, script: seq<Attempt>)
    requires opts.restartOnError && opts.gracePeriod <= 0 && opts.graceCount > 0
    requires |script| > opts.graceCount
    requires forall j :: 0 <= j < |script| ==> FailsRestartably(opts, script[j])
    ensures Supervise(opts, script, 0).attempts == opts.graceCount + 1
    ensures |Supervise(opts, script, 0).delays| == opts.graceCount
    ensures Supervise(opts, script, 0).exit == Returned(ErrorOf(opts, script[opts.graceCount]))
  {
    var n := opts.graceCount;
    forall j | 0 <= j < n ensures TurnOf(opts, script[j], 0 + j).Restarted? {
      RestartableTurn(opts, script[j], j);
    }
    RestartableTurn(opts, script[n], n);
    PlayStopsAt(Turns(opts, script, 0), n);
  }

  /**
   * With a grace period, the loop stops on the first attempt after which more
   * time than the period has passed, returning that attempt's error and
   * logging "exceeded grace period" last, provided the count ceiling (if any)
   * was not passed first; the period is checked before the count.
   */
  lemma GracePeriodStops(opts: Config.Options, script: seq<Attempt>, k: nat)
    requires opts.restartOnError && opts.gracePeriod > 0
    requires k < |script|
    requires forall j :: 0 <= j <= k ==> FailsRestartably(opts, script[j])
    requires forall j :: 0 <= j < k ==> script[j].elapsed <= opts.gracePeriod
    requires script[k].elapsed > opts.gracePeriod
    requires opts.graceCount <= 0 || k <= opts.graceCount
    ensures var t := Supervise(opts, script, 0);
      && t.attempts == k + 1
      && t.exit == Returned(ErrorOf(opts, script[k]))
      && |t.logs| > 0 && t.logs[|t.logs| - 1].msg == GracePeriodMsg
  {
    forall j | 0 <= j < k ensures TurnOf(opts, script[j], 0 + j).Restarted? {
      RestartableTurn(opts, script[j], j);
    }
    RestartableTurn(opts, script[k], k);
    PlayStopsAt(Turns(opts, script, 0), k);
  }

  /**
   * With both ceilings off and every attempt failing restartably, the loop
   * never stops: every scripted attempt is made and each restart waits the
   * delay `RestartDelay` chooses for it.
   */
  lemma NoCeilingsKeepRunning(opts: Config.Options, script: seq<Attempt>)
    requires opts.restartOnError && opts.gracePeriod <= 0 && opts.graceCount <= 0
    requires forall j :: 0 <= j < |script| ==> FailsRestartably(opts, script[j])
    ensures var t := Supervise(opts, script, 0);
      && t.exit == StillRunning
      && t.attempts == |script|
      && |t.delays| == |script|
      && forall j :: 0 <= j < |script| ==> t.delays[j] == RestartDelay(opts, PanickedOf(opts, script[j]))
  {
    forall j | 0 <= j < |script|
      ensures TurnOf(opts, script[j], 0 + j).Restarted?
      ensures TurnOf(opts, script[j], 0 + j).delay == RestartDelay(opts, PanickedOf(opts, script[j]))
    {
      RestartableTurn(opts, script[j], j);
    }
    PlayGoesThrough(Turns(opts, script, 0));
  }

  /** `validateService`: every identity violation, in order, gathered under one "invalid service" error. */
  method ValidateService(svc: ServiceInfo) returns (err: Option<Error>)
    ensures err.None? <==> svc.name != "" && svc.namespace != ""
    ensures err.Some? ==> err.value == Many(InvalidServiceMsg,
      (if svc.name == "" then [Message(EmptyNameMsg)] else []) +
      (if svc.namespace == "" then [Message(EmptyNamespaceMsg)] else []))
  {
    var errs: seq<Error> := [];
    if svc.name == "" {
      errs := errs + [Message(EmptyNameMsg)];
    }
    if svc.namespace == "" {
      errs := errs + [Message(EmptyNamespaceMsg)];
    }
    err := WrapMany(InvalidServiceMsg, errs);
  }

  /** The deferred OTEL shutdown of `RunC`: a failure is logged once the loop has ended (returned or escaped). */
  function WithOtelShutdown(t: Trace, shutdownErr: Option<Error>): (r: Trace)
    ensures r.exit == t.exit && r.attempts == t.attempts && r.delays == t.delays
    ensures r.logs == t.logs + (if shutdownErr.Some? && !t.exit.StillRunning?
                                then [LogRecord(OtelShutdownFailedMsg, [Attr("error", ErrorValue(shutdownErr.value))])]
                                else [])
  {
    if shutdownErr.Some? && !t.exit.StillRunning?
    then t.(logs := t.logs + [LogRecord(OtelShutdownFailedMsg, [Attr("error", ErrorValue(shutdownErr.value))])])
    else t
  }

  /**
   * `RunC`. The caller's context is not used: the run context is derived from
   * a fresh background context (`signal.NotifyContext(context.Background(), …)`).
   * `buildInfo`, `env`, `logLevel` and `isTerminal` stand for the build
   * settings, the environment parser, the missing `LogLevel` option and the
   * terminal test; `otelInit` and `otelShutdown` for what `initOtel` and the
   * shutdown it returns report. `runCtx` is the context the attempts run under.
   */
  method RunC(svc: ServiceInfo, ctx: Ctx, opts: seq<Config.Setter>, buildInfo: Option<seq<Config.BuildSetting>>,
              env: string -> seq<Config.EnvSetting>, logLevel: string, isTerminal: bool,
              otelInit: Option<Error>, otelShutdown: Option<Error>, script: seq<Attempt>)
    returns (t: Trace, runCtx: Ctx)
    ensures (svc.name == "" || svc.namespace == "") ==>
      t.attempts == 0 && t.exit.Returned? && t.exit.err.Some? &&
      t.exit.err.value.Fatal? && t.exit.err.value.msg == InvalidServiceMsg &&
      t.exit.err.value.cause.Many? && t.exit.err.value.cause.msg == InvalidServiceMsg
    ensures svc.name != "" && svc.namespace != "" && otelInit.Some? ==>
      t == Trace(Returned(Some(Fatal(OtelInitFailedMsg, otelInit.value))), 0, [], [])
    ensures svc.name != "" && svc.namespace != "" && otelInit.None? ==>
      t == WithOtelShutdown(
             Supervise(Config.Resolve(svc.name, svc.namespace, opts, Config.VcsModified(buildInfo), env), script, 0),
             otelShutdown)
    ensures svc.name != "" && svc.namespace != "" ==>
      Names.Name(runCtx) == svc.name && Namespaces.Namespace(runCtx) == svc.namespace &&
      Versions.Version(runCtx) == svc.version && Logging.Logger(runCtx).Configured?
  {
    runCtx := Background;
    var invalid := ValidateService(svc);
    if invalid.Some? {
      return Trace(Returned(Some(Fatal(InvalidServiceMsg, invalid.value))), 0, [], []), runCtx;
    }

    var options := Config.ApplyOptions(svc.name, svc.namespace, opts, buildInfo, env);

    runCtx := Decoration.Decorate(runCtx, svc.name, svc.version, svc.namespace, options.envPrefix);
    var logger := Logging.InitLogger(runCtx, options, logLevel, isTerminal);
    runCtx := Decoration.BindLogger(runCtx, logger);

    if otelInit.Some? {
      return Trace(Returned(Some(Fatal(OtelInitFailedMsg, otelInit.value))), 0, [], []), runCtx;
    }

    t := RunLoop(options, script);
    t := WithOtelShutdown(t, otelShutdown);
  }
}
