/**
 * The struct-based supervisor (service.go): a `Service` value carries its
 * identity and optional Init/Run/Shutdown functions, guards against being run
 * twice, and restarts failed attempts under the same options as the
 * interface-based loop, with its own rules: OTEL is set up on every attempt,
 * an OTEL failure is internal and never restarted, any other error may be
 * restarted whether or not it is marked recoverable, and the restart counter
 * starts at one.
 *
 * As in the interface-based model, what the hosted functions and OTEL report
 * is given per attempt (`Attempt`), with the time elapsed since the loop
 * started, and a run is a finite script of attempts.
 */
module Legacy {
  import opened Wrappers
  import opened Errors
  import opened Lifecycle
  import opened Context
  import Config
  import Names
  import Namespaces
  import Versions
  import Logging
  import Decoration

  const InitFailedMsg: string := "service initialization failed"
  const ServiceFailedMsg: string := "service failed"
  const ShutdownAggregateMsg: string := "shutdown failed"
  const AlreadyRunningMsg: string := "already running"
  const NameNotSetMsg: string := "service name must be set"
  const VersionNotSetMsg: string := "service version must be set"

  /** Which of the optional functions a `Service` was given (a nil function is skipped). */
  datatype Funcs = Funcs(hasInit: bool, hasRun: bool, hasShutdown: bool)

  /**
   * One attempt as scripted: what `initOtel` reports and, when it succeeds,
   * what the shutdown function it returns reports; what InitFunc, RunFunc and
   * ShutdownFunc do when present; and the time since the loop started, as
   * read after the attempt.
   */
  datatype Attempt = Attempt(otelInit: Option<Error>, otelShutdown: Option<Error>,
                             init: Call, run: Call, shutdown: Call, elapsed: nat)

  /** The `otelShutdown` field: never set (nil), or a shutdown function and what it reports. */
  datatype OtelHook = NoHook | Hook(result: Option<Error>)

  /**
   * What `runOnce` produced: its three results `(err, isInternal, isPanic)`
   * and the shutdown error it only logged; or a panic that escaped because
   * recovery is off.
   */
  datatype Outcome =
    | Finished(err: Option<Error>, isInternal: bool, isPanic: bool, shutdownErr: Option<Error>)
    | Crashed(value: PanicValue)

  /**
   * What the shutdown function stored by `init` reports: on an OTEL failure
   * `initOtel` hands back the no-op shutdown, which reports nothing.
   */
  function HookOf(a: Attempt): (r: Option<Error>)
    ensures a.otelInit.Some? ==> r.None?
    ensures a.otelInit.None? ==> r == a.otelShutdown
  {
    if a.otelInit.Some? then None else a.otelShutdown
  }

  /** `init`: OTEL first, an OTEL failure being internal; then InitFunc when there is one. */
  function InitResult(f: Funcs, a: Attempt): (r: (Call, bool))
    ensures r.1 <==> a.otelInit.Some?
    ensures a.otelInit.Some? ==> r.0 == Fails(a.otelInit.value)
    ensures a.otelInit.None? && !f.hasInit ==> r.0 == Returns
    ensures a.otelInit.None? && f.hasInit ==> r.0 == a.init
  {
    if a.otelInit.Some? then (Fails(a.otelInit.value), true)
    else if f.hasInit then (a.init, false)
    else (Returns, false)
  }

  /** `run`: RunFunc when there is one; a missing RunFunc succeeds at once. */
  function RunResult(f: Funcs, a: Attempt): (r: Call)
    ensures !f.hasRun ==> r == Returns
    ensures f.hasRun ==> r == a.run
  {
    if f.hasRun then a.run else Returns
  }

  /** The errors `shutdown` collects, ShutdownFunc's before the OTEL shutdown's. */
  function ShutdownErrors(f: Funcs, a: Attempt, hook: Option<Error>): seq<Error> {
    (if f.hasShutdown && a.shutdown.Fails? then [a.shutdown.err] else []) +
    (if hook.Some? then [hook.value] else [])
  }

  /**
   * `shutdown`: ShutdownFunc when there is one (a panic there goes no further),
   * then the stored OTEL shutdown; the errors they report are aggregated,
   * ShutdownFunc's first.
   */
  function ShutdownResult(f: Funcs, a: Attempt, hook: Option<Error>): (r: Call)
    ensures r.Panics? <==> f.hasShutdown && a.shutdown.Panics?
    ensures r.Panics? ==> r == a.shutdown
    ensures r.Fails? <==> !r.Panics? && ((f.hasShutdown && a.shutdown.Fails?) || hook.Some?)
    ensures r.Fails? ==> r.err.Many? && r.err.msg == ShutdownAggregateMsg && 1 <= |r.err.errs| <= 2
    ensures r.Fails? && f.hasShutdown && a.shutdown.Fails? ==> r.err.errs[0] == a.shutdown.err
    ensures r.Fails? && hook.Some? ==> r.err.errs[|r.err.errs| - 1] == hook.value
  {
    if f.hasShutdown && a.shutdown.Panics? then a.shutdown
    else
      match WrapMany(ShutdownAggregateMsg, ShutdownErrors(f, a, hook))
      case None => Returns
      case Some(e) => Fails(e)
  }

  /**
   * The deferred recover in `runOnce`. When a step panics the named result
   * `err` still holds nil (the step's own assignment never completed and the
   * steps before it succeeded), so the panic error has no related error, and
   * `isInternal` is false.
   */
  function Recovered(v: PanicValue, recoverPanic: bool): (o: Outcome)
    ensures recoverPanic <==> o.Finished?
    ensures o.Finished? ==> o == Finished(Some(Panic(PanicCause(v), None)), false, true, None)
    ensures o.Crashed? ==> o.value == v
  {
    if recoverPanic then Finished(Some(Panic(PanicCause(v), None)), false, true, None) else Crashed(v)
  }

  /** Whether every step of an attempt returns: the attempt then ends with no error. */
  predicate Succeeds(f: Funcs, a: Attempt) {
    && a.otelInit.None?
    && (f.hasInit ==> a.init.Returns?)
    && (f.hasRun ==> a.run.Returns?)
    && !(f.hasShutdown && a.shutdown.Panics?)
  }

  /**
   * What `runOnce` does with one attempt: init, then run (a cancellation is a
   * failure like any other), then shutdown, whose error is only logged.
   */
  function AttemptOutcome(f: Funcs, a: Attempt, recoverPanic: bool): (o: Outcome)
  {
    var (ic, internal) := InitResult(f, a);
    match ic
    case Panics(v) => Recovered(v, recoverPanic)
    case Fails(e) => Finished(Some(Wrapped(InitFailedMsg, e)), internal, false, None)
    case Returns =>
      match RunResult(f, a)
      case Panics(v) => Recovered(v, recoverPanic)
      case Fails(e) => Finished(Some(Wrapped(ServiceFailedMsg, e)), false, false, None)
      case Returns =>
        match ShutdownResult(f, a, HookOf(a))
        case Panics(v) => Recovered(v, recoverPanic)
        case Fails(e) => Finished(None, false, false, Some(e))
        case Returns => Finished(None, false, false, None)
  }
  /**
   * The rules `runOnce` follows: an OTEL failure is the only internal one; a
   * failing InitFunc or RunFunc is wrapped; the attempt ends with no error
   * exactly when every step returns; a shutdown error is only logged; and a
   * recovered panic carries no related error.
   */
  lemma OutcomeRules(f: Funcs, a: Attempt, recoverPanic: bool)
    ensures var o := AttemptOutcome(f, a, recoverPanic);
      && (a.otelInit.Some? ==> o == Finished(Some(Wrapped(InitFailedMsg, a.otelInit.value)), true, false, None))
      && (o.Finished? && o.isInternal <==> a.otelInit.Some?)
      && (a.otelInit.None? && f.hasInit && a.init.Fails? ==>
        o == Finished(Some(Wrapped(InitFailedMsg, a.init.err)), false, false, None))
      && (Succeeds(f, a) ==> o.Finished? && o.err.None? && !o.isPanic)
      && (o.Finished? && o.err.None? ==> Succeeds(f, a))
      && (a.otelInit.None? && (f.hasInit ==> a.init.Returns?) && f.hasRun && a.run.Fails? ==>
        o == Finished(Some(Wrapped(ServiceFailedMsg, a.run.err)), false, false, None))
      && (o.Finished? && o.shutdownErr.Some? ==>
        o.err.None? && o.shutdownErr == Some(Many(ShutdownAggregateMsg, ShutdownErrors(f, a, HookOf(a)))))
      && (o.Finished? && o.isPanic ==> o.err.Some? && o.err.value.Panic? && o.err.value.related.None?)
      && (o.Crashed? ==> !recoverPanic)
  {
  }

  /** The attributes of the loop's error line: the error, the grace period if set, the count and the counter if set. */
  function GraceAttrs(opts: Config.Options, err: Error, count: int): (attrs: seq<Attr>)
  {
    [Attr("error", ErrorValue(err))]
    + (if opts.gracePeriod > 0 then [Attr("grace_period", DurationValue(opts.gracePeriod))] else [])
    + (if opts.graceCount > 0
       then [Attr("grace_count", IntValue(opts.graceCount)), Attr("grace_counter", IntValue(count))]
       else [])
  }

  /** The error line always names the error first, and the ceilings only when they are on. */
  lemma GraceAttrsContent(opts: Config.Options, err: Error, count: int)
    ensures var attrs := GraceAttrs(opts, err, count);
      && |attrs| >= 1 && attrs[0] == Attr("error", ErrorValue(err))
      && (Attr("grace_period", DurationValue(opts.gracePeriod)) in attrs <==> opts.gracePeriod > 0)
      && (Attr("grace_counter", IntValue(count)) in attrs <==> opts.graceCount > 0)
  {
  }

  /**
   * What the legacy `runLoop` does with the outcome `o` of one attempt, the
   * counter at `count` before it: a nil result ends the run, and so does an
   * internal error or any error while restarts are off; every other error
   * advances the counter and is judged by `GraceVerdict`. Whether the error
   * is marked recoverable plays no part.
   */
  function TurnFrom(opts: Config.Options, o: Outcome, count: int, elapsed: int): (r: Turn)
    ensures r.Stopped? ==> !r.exit.StillRunning?
    ensures r.Stopped? && r.exit.Aborted? ==> o.Crashed? && r.exit.value == o.value
    ensures r.Stopped? && r.exit.Returned? ==> o.Finished? && r.exit.err == o.err
    ensures o.Crashed? ==> r == Stopped(Aborted(o.value), [])
    ensures o.Finished? && o.err.None? ==> r == Stopped(Returned(None), ShutdownLogs(o.shutdownErr))
    ensures o.Finished? && o.err.Some? && (o.isInternal || !opts.restartOnError) ==> r == Stopped(Returned(o.err), [])
    ensures r.Restarted? ==> o.Finished? && o.err.Some? && !o.isInternal && opts.restartOnError
    ensures o.Finished? && o.err.Some? && !o.isInternal && opts.restartOnError ==>
      var v := GraceVerdict(opts, o.isPanic, count + 1, elapsed);
      && (r.Restarted? <==> v.Restart?)
      && (r.Stopped? ==> r.exit == Returned(o.err))
      && (r.Restarted? ==> r.delay == RestartDelay(opts, o.isPanic))
  {
    match o
    case Crashed(v) => Stopped(Aborted(v), [])
    case Finished(err, isInternal, isPanic, shutdownErr) =>
      if err.None? then Stopped(Returned(None), ShutdownLogs(shutdownErr))
      else if isInternal || !opts.restartOnError then Stopped(Returned(err), [])
      else
        var v := GraceVerdict(opts, isPanic, count + 1, elapsed);
        var logs := VerdictLogs(v, GraceAttrs(opts, err.value, count + 1));
        if v.Stop? then Stopped(Returned(err), logs) else Restarted(v.delay, logs)
  }

  /** The error `runOnce` returns for an attempt (none when the panic escaped). */
  function ErrorOf(opts: Config.Options, f: Funcs, a: Attempt): Option<Error> {
    var o := AttemptOutcome(f, a, opts.recoverPanic);
    if o.Finished? then o.err else None
  }

  /** Whether `runOnce` reports the attempt as a recovered panic. */
  predicate PanickedOf(opts: Config.Options, f: Funcs, a: Attempt) {
    var o := AttemptOutcome(f, a, opts.recoverPanic);
    o.Finished? && o.isPanic
  }

  /** The turn the legacy loop takes on attempt `a`. */
  function TurnOf(opts: Config.Options, f: Funcs, a: Attempt, count: int): Turn {
    TurnFrom(opts, AttemptOutcome(f, a, opts.recoverPanic), count, a.elapsed)
  }

  /** The turns the legacy loop would take on each scripted attempt, the counter at `count` before the first. */
  function Turns(opts: Config.Options, f: Funcs, script: seq<Attempt>, count: int): (ts: seq<Turn>)
    ensures |ts| == |script|
    ensures forall j :: 0 <= j < |script| ==> ts[j] == TurnOf(opts, f, script[j], count + j)
  {
    seq(|script|, j requires 0 <= j < |script| => TurnOf(opts, f, script[j], count + j))
  }

  /** The legacy `runLoop` over a script of attempts, the counter at `count` before the first. */
  function Supervise(opts: Config.Options, f: Funcs, script: seq<Attempt>, count: int): Trace {
    Play(Turns(opts, f, script, count))
  }

  /** The counter value the legacy loop starts from. */
  const FirstCount: int := 1

  /** One step of the loop: the first attempt's turn stops the run, or restarts it with the counter advanced. */
  lemma SuperviseStep(opts: Config.Options, f: Funcs, script: seq<Attempt>, count: int)
    requires script != []
    ensures var turn := TurnOf(opts, f, script[0], count);
      && (turn.Stopped? ==> Supervise(opts, f, script, count) == Trace(turn.exit, 1, [], turn.logs))
      && (turn.Restarted? ==>
            Supervise(opts, f, script, count) == After(1, [turn.delay], turn.logs, Supervise(opts, f, script[1..], count + 1)))
  {
    var ts := Turns(opts, f, script, count);
    assert ts[0] == TurnOf(opts, f, script[0], count + 0);
    assert ts[1..] == Turns(opts, f, script[1..], count + 1) by {
      forall j | 0 <= j < |script| - 1 ensures ts[1..][j] == Turns(opts, f, script[1..], count + 1)[j] {
        assert script[1..][j] == script[j + 1];
      }
    }
  }

  /** The shape of every legacy run: no more attempts than scripted, one delay per restart, a stopped run's exit from its last turn. */
  lemma SuperviseShape(opts: Config.Options, f: Funcs, script: seq<Attempt>, count: int)
    ensures var t := Supervise(opts, f, script, count);
      && t.attempts <= |script|
      && (t.exit.StillRunning? ==> t.attempts == |script|)
      && |t.delays| == (if t.exit.StillRunning? then t.attempts else t.attempts - 1)
      && (!t.exit.StillRunning? ==>
            t.attempts >= 1 && TurnOf(opts, f, script[t.attempts - 1], count + t.attempts - 1).Stopped? &&
            t.exit == TurnOf(opts, f, script[t.attempts - 1], count + t.attempts - 1).exit)
  {
    PlayShape(Turns(opts, f, script, count));
  }

  /** The part of the legacy `runLoop` after the counter was advanced to `count`: gather the attributes, check, log. */
  method CheckCeilings(opts: Config.Options, err: Error, isPanic: bool, count: int, elapsed: int)
    returns (v: Verdict, line: seq<LogRecord>)
    ensures v == GraceVerdict(opts, isPanic, count, elapsed)
    ensures line == VerdictLogs(v, GraceAttrs(opts, err, count))
  {
    var logAttrs := [Attr("error", ErrorValue(err))];
    if opts.gracePeriod > 0 {
      logAttrs := logAttrs + [Attr("grace_period", DurationValue(opts.gracePeriod))];
    }
    if opts.graceCount > 0 {
      logAttrs := logAttrs + [Attr("grace_count", IntValue(opts.graceCount)), Attr("grace_counter", IntValue(count))];
    }
    assert logAttrs == GraceAttrs(opts, err, count);

    if opts.gracePeriod > 0 && elapsed > opts.gracePeriod {
      return Stop(GracePeriodExceeded), [LogRecord(GracePeriodMsg, logAttrs)];
    }
    if opts.graceCount > 0 && count > opts.graceCount {
      return Stop(GraceCountExceeded), [LogRecord(GraceCountMsg, logAttrs)];
    }

    var restartDelay := opts.restartOnErrorDelay;
    if isPanic {
      if !opts.restartOnPanic {
        return Stop(PanicNotRestarted), [];
      }
      if opts.restartOnPanicDelay > 0 {
        restartDelay := opts.restartOnPanicDelay;
      }
    }

    logAttrs := logAttrs + [Attr("restart_delay", DurationValue(restartDelay))];
    v := Restart(restartDelay);
    if restartDelay > 0 {
      line := [LogRecord(RestartDelayedMsg, logAttrs)];
    } else {
      line := [LogRecord(RestartNowMsg, logAttrs)];
    }
  }

  /** A `Service`: its identity and functions, which the loop only reads, and the two fields it updates. */
  class Service {
    const name: string
    const namespace: string
    const version: string
    const funcs: Funcs
    /** Set by the first run and never cleared. */
    var running: bool
    /** The OTEL shutdown function the latest `init` stored. */
    var otelShutdown: OtelHook

    constructor(name: string, namespace: string, version: string, funcs: Funcs)
      ensures this.name == name && this.namespace == namespace && this.version == version && this.funcs == funcs
      ensures !running && otelShutdown == NoHook
    {
      this.name := name;
      this.namespace := namespace;
      this.version := version;
      this.funcs := funcs;
      running := false;
      otelShutdown := NoHook;
    }

    /** `validate`: the name must be set, then the version; the namespace is not checked. A failure is a panic. */
    method Validate() returns (p: Option<PanicValue>)
      ensures p.None? <==> name != "" && version != ""
      ensures name == "" ==> p == Some(PanicOther(NameNotSetMsg))
      ensures name != "" && version == "" ==> p == Some(PanicOther(VersionNotSetMsg))
    {
      if name == "" {
        return Some(PanicOther(NameNotSetMsg));
      }
      if version == "" {
        return Some(PanicOther(VersionNotSetMsg));
      }
      p := None;
    }

    /** `init`: set up OTEL, storing its shutdown function whatever happens, then call InitFunc if there is one. */
    method Initialize(a: Attempt) returns (c: Call, isInternal: bool)
      modifies this`otelShutdown
      ensures otelShutdown == Hook(HookOf(a))
      ensures (c, isInternal) == InitResult(funcs, a)
    {
      otelShutdown := Hook(HookOf(a));
      if a.otelInit.Some? {
        return Fails(a.otelInit.value), true;
      }
      if funcs.hasInit {
        return a.init, false;
      }
      c, isInternal := Returns, false;
    }

    /** `run`: call RunFunc if there is one. */
    method Execute(a: Attempt) returns (c: Call)
      ensures c == RunResult(funcs, a)
    {
      c := Returns;
      if funcs.hasRun {
        c := a.run;
      }
    }

    /** `shutdown`: ShutdownFunc if there is one, then the stored OTEL shutdown (which `init` has always set). */
    method Shutdown(a: Attempt) returns (c: Call)
      requires otelShutdown.Hook?
      ensures c == ShutdownResult(funcs, a, otelShutdown.result)
    {
      var errs: seq<Error> := [];
      if funcs.hasShutdown {
        match a.shutdown {
          case Panics(_) => return a.shutdown;
          case Fails(e) => errs := errs + [e];
          case Returns =>
        }
      }
      if otelShutdown.result.Some? {
        errs := errs + [otelShutdown.result.value];
      }
      assert errs == ShutdownErrors(funcs, a, otelShutdown.result);
      var w := WrapMany(ShutdownAggregateMsg, errs);
      c := if w.Some? then Fails(w.value) else Returns;
    }

    /** `runOnce`, step by step, each panic handed to the deferred recover. */
    method RunOnce(a: Attempt, recoverPanic: bool) returns (o: Outcome)
      modifies this`otelShutdown
      ensures otelShutdown == Hook(HookOf(a))
      ensures o == AttemptOutcome(funcs, a, recoverPanic)
    {
      var ic, isInternal := Initialize(a);
      match ic {
        case Panics(v) => return Recovered(v, recoverPanic);
        case Fails(e) => return Finished(Some(Wrapped(InitFailedMsg, e)), isInternal, false, None);
        case Returns =>
      }

      var rc := Execute(a);
      match rc {
        case Panics(v) => return Recovered(v, recoverPanic);
        case Fails(e) => return Finished(Some(Wrapped(ServiceFailedMsg, e)), false, false, None);
        case Returns =>
      }

      var sc := Shutdown(a);
      match sc {
        case Panics(v) => return Recovered(v, recoverPanic);
        case Fails(e) => return Finished(None, false, false, Some(e));
        case Returns =>
      }
      o := Finished(None, false, false, None);
    }

    /** One pass of the legacy `runLoop`'s body, the counter at `graceCount` before the attempt. */
    method TakeTurn(opts: Config.Options, a: Attempt, graceCount: int) returns (turn: Turn)
      modifies this`otelShutdown
      ensures otelShutdown == Hook(HookOf(a))
      ensures turn == TurnOf(opts, funcs, a, graceCount)
    {
      var o := RunOnce(a, opts.recoverPanic);
      if o.Crashed? {
        return Stopped(Aborted(o.value), []);
      }
      if o.err.None? {
        return Stopped(Returned(None), ShutdownLogs(o.shutdownErr));
      }
      if o.isInternal || !opts.restartOnError {
        return Stopped(Returned(o.err), []);
      }

      var count := graceCount + 1;
      var v, line := CheckCeilings(opts, o.err.value, o.isPanic, count, a.elapsed);
      if v.Stop? {
        return Stopped(Returned(o.err), line);
      }
      turn := Restarted(v.delay, line);
    }

    /** The first lines of `runLoop`: bind the identity and the env prefix, then the logger built from them. */
    method Prepare(ctx: Ctx, opts: Config.Options, logLevel: string, isTerminal: bool) returns (runCtx: Ctx)
      ensures Names.Name(runCtx) == (if name != "" then name else Names.Name(ctx))
      ensures Versions.Version(runCtx) == (if version != "" then version else Versions.Version(ctx))
      ensures Namespaces.Namespace(runCtx) == (if namespace != "" then namespace else Namespaces.Namespace(ctx))
      ensures Logging.Logger(runCtx).Configured?
    {
      runCtx := Decoration.Decorate(ctx, name, version, namespace, opts.envPrefix);
      var logger := Logging.InitLogger(runCtx, opts, logLevel, isTerminal);
      runCtx := Decoration.BindLogger(runCtx, logger);
    }

    /**
     * `runLoop`: decorate the context and bind the logger, refuse a second
     * run, then attempt until a turn stops the run (or the script ends).
     * `logLevel` and `isTerminal` are as for `initLogger`; `runCtx` is the
     * context the attempts run under.
     */
    method RunLoop(ctx: Ctx, opts: Config.Options, logLevel: string, isTerminal: bool, script: seq<Attempt>)
      returns (t: Trace, runCtx: Ctx)
      modifies this`running, this`otelShutdown
      ensures running
      ensures old(running) ==> t == Trace(Returned(Some(Message(AlreadyRunningMsg))), 0, [], []) && otelShutdown == old(otelShutdown)
      ensures !old(running) ==> t == Supervise(opts, funcs, script, FirstCount)
      ensures t.attempts <= |script|
      ensures !old(running) && t.attempts > 0 ==> otelShutdown == Hook(HookOf(script[t.attempts - 1]))
      ensures t.attempts == 0 ==> otelShutdown == old(otelShutdown)
      ensures Names.Name(runCtx) == (if name != "" then name else Names.Name(ctx))
      ensures Versions.Version(runCtx) == (if version != "" then version else Versions.Version(ctx))
      ensures Namespaces.Namespace(runCtx) == (if namespace != "" then namespace else Namespaces.Namespace(ctx))
      ensures Logging.Logger(runCtx).Configured?
    {
      runCtx := Prepare(ctx, opts, logLevel, isTerminal);
      var wasRunning := running;
      running := true;
      if wasRunning {
        return Trace(Returned(Some(Message(AlreadyRunningMsg))), 0, [], []), runCtx;
      }
      t := Attempts(opts, script);
    }

    /** The `for` loop of the legacy `runLoop`: one turn after the other, the counter starting at one. */
    method Attempts(opts: Config.Options, script: seq<Attempt>) returns (t: Trace)
      modifies this`otelShutdown
      ensures t == Supervise(opts, funcs, script, FirstCount)
      ensures t.attempts <= |script|
      ensures t.attempts > 0 ==> otelShutdown == Hook(HookOf(script[t.attempts - 1]))
      ensures t.attempts == 0 ==> otelShutdown == old(otelShutdown)
    {
      var graceCount := FirstCount;
      var i := 0;
      var delays: seq<int> := [];
      var logs: seq<LogRecord> := [];
      assert script[0..] == script;
      assert After(0, [], [], Supervise(opts, funcs, script, FirstCount)) == Supervise(opts, funcs, script, FirstCount);
      while i < |script|
        invariant 0 <= i <= |script| && graceCount == FirstCount + i && |delays| == i
        invariant Supervise(opts, funcs, script, FirstCount) == After(i, delays, logs, Supervise(opts, funcs, script[i..], graceCount))
        invariant i > 0 ==> otelShutdown == Hook(HookOf(script[i - 1]))
        invariant i == 0 ==> otelShutdown == old(otelShutdown)
        decreases |script| - i
      {
        assert script[i..][0] == script[i] && script[i..][1..] == script[i + 1..];
        SuperviseStep(opts, funcs, script[i..], graceCount);
        var turn := TakeTurn(opts, script[i], graceCount);
        if turn.Stopped? {
          assert delays + [] == delays;
          return Trace(turn.exit, i + 1, delays, logs + turn.logs);
        }
        AfterAfter(i, delays, logs, 1, [turn.delay], turn.logs, Supervise(opts, funcs, script[i + 1..], graceCount + 1));
        graceCount := graceCount + 1;
        delays := delays + [turn.delay];
        logs := logs + turn.logs;
        i := i + 1;
      }
      t := Trace(StillRunning, i, delays, logs);
    }

    /**
     * `RunC`: validate (a failure panics before anything else happens), resolve
     * the options, then run the loop under the caller's context. `buildInfo`
     * and `env` stand for the build settings and the environment parser.
     */
    method RunC(ctx: Ctx, opts: seq<Config.Setter>, buildInfo: Option<seq<Config.BuildSetting>>,
                env: string -> seq<Config.EnvSetting>, logLevel: string, isTerminal: bool, script: seq<Attempt>)
      returns (t: Trace, runCtx: Ctx)
      modifies this`running, this`otelShutdown
      ensures (name == "" || version == "") ==>
        t.attempts == 0 && t.exit.Aborted? && t.exit.value.PanicOther? &&
        running == old(running) && otelShutdown == old(otelShutdown)
      ensures name != "" && version != "" ==> running
      ensures name != "" && version != "" && old(running) ==> t == Trace(Returned(Some(Message(AlreadyRunningMsg))), 0, [], [])
      ensures name != "" && version != "" && !old(running) ==>
        t == Supervise(Config.Resolve(name, namespace, opts, Config.VcsModified(buildInfo), env), funcs, script, FirstCount)
      ensures t.attempts <= |script|
      ensures name != "" && version != "" && !old(running) && t.attempts > 0 ==> otelShutdown == Hook(HookOf(script[t.attempts - 1]))
      ensures t.attempts == 0 ==> otelShutdown == old(otelShutdown)
      ensures name != "" && version != "" && old(running) ==> otelShutdown == old(otelShutdown)
    {
      var p := Validate();
      if p.Some? {
        return Trace(Aborted(p.value), 0, [], []), ctx;
      }
      var options := Config.ApplyOptions(name, namespace, opts, buildInfo, env);
      t, runCtx := RunLoop(ctx, options, logLevel, isTerminal, script);
    }

    /** `Run`, as written: it receives options but calls `RunC` on a background context without them. */
    method Run(opts: seq<Config.Setter>, buildInfo: Option<seq<Config.BuildSetting>>,
               env: string -> seq<Config.EnvSetting>, logLevel: string, isTerminal: bool, script: seq<Attempt>)
      returns (t: Trace)
      modifies this`running, this`otelShutdown
      ensures (name == "" || version == "") ==>
        t.attempts == 0 && t.exit.Aborted? && t.exit.value.PanicOther? &&
        running == old(running) && otelShutdown == old(otelShutdown)
      ensures name != "" && version != "" ==> running
      ensures name != "" && version != "" && old(running) ==>
        t == Trace(Returned(Some(Message(AlreadyRunningMsg))), 0, [], []) && otelShutdown == old(otelShutdown)
      ensures name != "" && version != "" && !old(running) ==>
        t == Supervise(Config.Resolve(name, namespace, [], Config.VcsModified(buildInfo), env), funcs, script, FirstCount)
      ensures t.attempts <= |script|
      ensures name != "" && version != "" && !old(running) && t.attempts > 0 ==> otelShutdown == Hook(HookOf(script[t.attempts - 1]))
      ensures t.attempts == 0 ==> otelShutdown == old(otelShutdown)
    {
      var runCtx;
      t, runCtx := RunC(Background, [], buildInfo, env, logLevel, isTerminal, script);
    }

    /** `Run` as its documentation describes it: `RunC` on a background context with the given options. */
    method RunWithOptions(opts: seq<Config.Setter>, buildInfo: Option<seq<Config.BuildSetting>>,
                          env: string -> seq<Config.EnvSetting>, logLevel: string, isTerminal: bool, script: seq<Attempt>)
      returns (t: Trace)
      modifies this`running, this`otelShutdown
      ensures (name == "" || version == "") ==>
        t.attempts == 0 && t.exit.Aborted? && t.exit.value.PanicOther? &&
        running == old(running) && otelShutdown == old(otelShutdown)
      ensures name != "" && version != "" ==> running
      ensures name != "" && version != "" && old(running) ==>
        t == Trace(Returned(Some(Message(AlreadyRunningMsg))), 0, [], []) && otelShutdown == old(otelShutdown)
      ensures name != "" && version != "" && !old(running) ==>
        t == Supervise(Config.Resolve(name, namespace, opts, Config.VcsModified(buildInfo), env), funcs, script, FirstCount)
      ensures t.attempts <= |script|
      ensures name != "" && version != "" && !old(running) && t.attempts > 0 ==> otelShutdown == Hook(HookOf(script[t.attempts - 1]))
      ensures t.attempts == 0 ==> otelShutdown == old(otelShutdown)
    {
      var runCtx;
      t, runCtx := RunC(Background, opts, buildInfo, env, logLevel, isTerminal, script);
    }
  }

  /** A second run of the same `Service` is refused, whatever the first did: `running` is never cleared. */
  method RunTwice(s: Service, ctx: Ctx, opts: Config.Options, script1: seq<Attempt>, script2: seq<Attempt>)
    returns (t1: Trace, t2: Trace)
    modifies s
    ensures t2 == Trace(Returned(Some(Message(AlreadyRunningMsg))), 0, [], [])
  {
    var c1, c2;
    t1, c1 := s.RunLoop(ctx, opts, "", false, script1);
    t2, c2 := s.RunLoop(ctx, opts, "", false, script2);
  }

  // ---------------------------------------------------------------------------
  // Properties of the legacy loop

  /** An attempt whose failure the legacy loop may restart: a non-internal error, from a panic only if panics restart. */
  predicate FailsRestartably(opts: Config.Options, f: Funcs, a: Attempt) {
    var o := AttemptOutcome(f, a, opts.recoverPanic);
    o.Finished? && o.err.Some? && !o.isInternal && (!o.isPanic || opts.restartOnPanic)
  }

  /** The turn the legacy loop takes on an attempt that fails restartably is what `GraceVerdict` decides. */
  lemma RestartableTurn(opts: Config.Options, f: Funcs, a: Attempt, count: int)
    requires opts.restartOnError && FailsRestartably(opts, f, a)
    ensures var v := GraceVerdict(opts, PanickedOf(opts, f, a), count + 1, a.elapsed);
      && (TurnOf(opts, f, a, count).Restarted? <==> v.Restart?)
      && (TurnOf(opts, f, a, count).Restarted? ==> TurnOf(opts, f, a, count).delay == v.delay)
      && (TurnOf(opts, f, a, count).Stopped? ==> TurnOf(opts, f, a, count).exit == Returned(ErrorOf(opts, f, a)))
  {
  }

  /**
   * `GraceCount = N > 0` with no grace period: when every attempt fails
   * restartably, the legacy loop, counting from `start`, makes N - start + 1
   * attempts and returns the error of the last.
   */
  lemma {:induction false} GraceCountFrom(opts: Config.Options, f: Funcs, script: seq<Attempt>, start: int)
    requires opts.restartOnError && opts.gracePeriod <= 0 && opts.graceCount > 0 && 0 <= start <= opts.graceCount
    requires |script| > opts.graceCount - start
    requires forall j :: 0 <= j < |script| ==> FailsRestartably(opts, f, script[j])
    ensures Supervise(opts, f, script, start).attempts == opts.graceCount - start + 1
    ensures |Supervise(opts, f, script, start).delays| == opts.graceCount - start
    ensures Supervise(opts, f, script, start).exit == Returned(ErrorOf(opts, f, script[opts.graceCount - start]))
  {
    var n := opts.graceCount - start;
    forall j | 0 <= j < n ensures Turns(opts, f, script, start)[j].Restarted? {
      RestartableTurn(opts, f, script[j], start + j);
      assert GraceVerdict(opts, PanickedOf(opts, f, script[j]), start + j + 1, script[j].elapsed).Restart?;
    }
    RestartableTurn(opts, f, script[n], start + n);
    assert GraceVerdict(opts, PanickedOf(opts, f, script[n]), start + n + 1, script[n].elapsed) == Stop(GraceCountExceeded);
    assert Turns(opts, f, script, start)[n] == TurnOf(opts, f, script[n], start + n);
    PlayStopsAt(Turns(opts, f, script, start), n);
  }

  /**
   * As written: with `GraceCount = N > 0`, no grace period and every attempt
   * failing restartably, the legacy loop makes only N attempts, that is N - 1
   * restarts, although N is documented as the number of allowed restarts.
   */
  lemma GraceCountAttempts(opts: Config.Options, f: Funcs, script: seq<Attempt>)
    requires opts.restartOnError && opts.gracePeriod <= 0 && opts.graceCount > 0
    requires |script| >= opts.graceCount
    requires forall j :: 0 <= j < |script| ==> FailsRestartably(opts, f, script[j])
    ensures Supervise(opts, f, script, FirstCount).attempts == opts.graceCount
    ensures |Supervise(opts, f, script, FirstCount).delays| == opts.graceCount - 1
    ensures Supervise(opts, f, script, FirstCount).exit == Returned(ErrorOf(opts, f, script[opts.graceCount - 1]))
  {
    GraceCountFrom(opts, f, script, FirstCount);
  }

  /**
   * Corrected: a counter starting at zero allows exactly N restarts, N + 1
   * attempts, as documented.
   */
  lemma GraceCountFromZero(opts: Config.Options, f: Funcs, script: seq<Attempt>)
    requires opts.restartOnError && opts.gracePeriod <= 0 && opts.graceCount > 0
    requires |script| > opts.graceCount
    requires forall j :: 0 <= j < |script| ==> FailsRestartably(opts, f, script[j])
    ensures Supervise(opts, f, script, 0).attempts == opts.graceCount + 1
    ensures |Supervise(opts, f, script, 0).delays| == opts.graceCount
    ensures Supervise(opts, f, script, 0).exit == Returned(ErrorOf(opts, f, script[opts.graceCount]))
  {
    GraceCountFrom(opts, f, script, 0);
  }

  /** An OTEL failure ends the legacy run at once, whatever the restart options say. */
  lemma OtelFailureStops(opts: Config.Options, f: Funcs, script: seq<Attempt>, count: int)
    requires script != [] && script[0].otelInit.Some?
    ensures Supervise(opts, f, script, count) ==
      Trace(Returned(Some(Wrapped(InitFailedMsg, script[0].otelInit.value))), 1, [], [])
  {
    SuperviseStep(opts, f, script, count);
  }

  /**
   * As written, `Run` drops its options: asked for a grace count of five, a
   * run under no environment overrides gets the default of three.
   */
  lemma RunDropsOptions(name: string, namespace: string, logDebug: bool)
    ensures var noEnv := (prefix: string) => [];
      && Config.Resolve(name, namespace, [Config.WithGraceCount(5)], logDebug, noEnv).graceCount == 5
      && Config.Resolve(name, namespace, [], logDebug, noEnv).graceCount == 3
  {
    var noEnv: string -> seq<Config.EnvSetting> := (prefix: string) => [];
    var o := Config.ApplyAll(Config.Defaults(logDebug), [Config.WithGraceCount(5)]);
    assert [Config.WithGraceCount(5)][..0] == [];
    assert o == Config.Apply(Config.Defaults(logDebug), Config.WithGraceCount(5));
  }
}
