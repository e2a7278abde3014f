/**
 * The two supervision loops side by side. An attempt of the interface-based
 * loop is read as the same attempt of a `Service` that has all three
 * functions and whose OTEL set-up and shutdown succeed.
 */
module Variants {
  import opened Wrappers
  import opened Errors
  import opened Lifecycle
  import Config
  import Supervisor
  import Legacy

  /** Every function present. */
  const AllFuncs: Legacy.Funcs := Legacy.Funcs(true, true, true)

  /** An interface-based attempt as the same attempt of a `Service`: Close becomes ShutdownFunc, OTEL succeeds. */
  function AsLegacy(a: Supervisor.Attempt): (r: Legacy.Attempt)
    ensures r.otelInit.None? && r.otelShutdown.None? && r.elapsed == a.elapsed
    ensures r.init == a.init && r.run == a.run && r.shutdown == a.close
  {
    Legacy.Attempt(None, None, a.init, a.run, a.close, a.elapsed)
  }

  /** The script of `AsLegacy` attempts. */
  function AsLegacyScript(script: seq<Supervisor.Attempt>): (r: seq<Legacy.Attempt>)
    ensures |r| == |script|
    ensures forall j :: 0 <= j < |script| ==> r[j] == AsLegacy(script[j])
  {
    seq(|script|, j requires 0 <= j < |script| => AsLegacy(script[j]))
  }

  /**
   * An attempt the interface-based loop may restart, the legacy loop may
   * restart too: the legacy loop fails on every step the other fails on, and
   * asks nothing of recoverability.
   */
  lemma RestartableInBoth(opts: Config.Options, a: Supervisor.Attempt)
    requires Supervisor.FailsRestartably(opts, a)
    ensures Legacy.FailsRestartably(opts, AllFuncs, AsLegacy(a))
  {
    var o := Legacy.AttemptOutcome(AllFuncs, AsLegacy(a), opts.recoverPanic);
    if a.init.Returns? && !a.run.Panics? && !(a.run.Fails? && !IsCanceled(a.run.err)) && !a.run.Fails? {
      assert a.close.Panics?;
    }
  }

  /**
   * Under the same `GraceCount = N > 0`, no grace period and attempts that
   * keep failing restartably, the legacy loop stops one attempt earlier: N
   * attempts against N + 1.
   */
  lemma LegacyStopsOneEarlier(opts: Config.Options, script: seq<Supervisor.Attempt>)
    requires opts.restartOnError && opts.gracePeriod <= 0 && opts.graceCount > 0
    requires |script| > opts.graceCount
    requires forall j :: 0 <= j < |script| ==> Supervisor.FailsRestartably(opts, script[j])
    ensures Legacy.Supervise(opts, AllFuncs, AsLegacyScript(script), Legacy.FirstCount).attempts + 1 ==
            Supervisor.Supervise(opts, script, 0).attempts
    ensures Supervisor.Supervise(opts, script, 0).attempts == opts.graceCount + 1
  {
    var ls := AsLegacyScript(script);
    forall j | 0 <= j < |ls| ensures Legacy.FailsRestartably(opts, AllFuncs, ls[j]) {
      RestartableInBoth(opts, script[j]);
    }
    Supervisor.GraceCountAttempts(opts, script);
    Legacy.GraceCountAttempts(opts, AllFuncs, ls);
  }

  /** A Run that fails with an error marked fatal, everything before it having succeeded. */
  predicate RunFailsFatally(a: Supervisor.Attempt) {
    a.init.Returns? && a.run.Fails? && a.run.err.Fatal?
  }

  /**
   * A fatal error ends the interface-based run at once, while the legacy loop,
   * which does not ask whether an error is recoverable, restarts it (when no
   * ceiling is reached first).
   */
  lemma FatalErrorRestartsOnlyInLegacy(opts: Config.Options, a: Supervisor.Attempt, rest: seq<Supervisor.Attempt>)
    requires opts.restartOnError && opts.gracePeriod <= 0 && (opts.graceCount <= 0 || opts.graceCount >= 2)
    requires RunFailsFatally(a)
    ensures Supervisor.Supervise(opts, [a] + rest, 0).attempts == 1
    ensures Supervisor.Supervise(opts, [a] + rest, 0).exit == Returned(Some(Wrapped(Supervisor.RunFailedMsg, a.run.err)))
    ensures Legacy.TurnOf(opts, AllFuncs, AsLegacy(a), Legacy.FirstCount).Restarted?
  {
    var script := [a] + rest;
    assert script[0] == a;
    var err := Wrapped(Supervisor.RunFailedMsg, a.run.err);
    assert !IsRecoverable(err);
    assert Supervisor.AttemptOutcome(a, opts.recoverPanic) == Supervisor.Finished(Some(err), false, [InitCall, RunCall], None);
    assert Supervisor.TurnOf(opts, a, 0) == Stopped(Returned(Some(err)), []);
    Supervisor.SuperviseStep(opts, script, 0);
  }

  /** A Run that returns the cancellation error, everything else succeeding. */
  predicate RunCanceled(a: Supervisor.Attempt) {
    a.init.Returns? && a.run == Fails(Canceled) && a.close.Returns?
  }

  /**
   * A cancelled Run ends the interface-based run with no error, after Close;
   * the legacy loop reports it as a failure ("service failed") and restarts
   * it (when no ceiling is reached first).
   */
  lemma CancellationRestartsOnlyInLegacy(opts: Config.Options, a: Supervisor.Attempt, rest: seq<Supervisor.Attempt>)
    requires opts.restartOnError && opts.gracePeriod <= 0 && (opts.graceCount <= 0 || opts.graceCount >= 2)
    requires RunCanceled(a)
    ensures Supervisor.Supervise(opts, [a] + rest, 0) == Trace(Returned(None), 1, [], [])
    ensures Legacy.ErrorOf(opts, AllFuncs, AsLegacy(a)) == Some(Wrapped(Legacy.ServiceFailedMsg, Canceled))
    ensures Legacy.TurnOf(opts, AllFuncs, AsLegacy(a), Legacy.FirstCount).Restarted?
  {
    var script := [a] + rest;
    assert script[0] == a;
    Supervisor.SuperviseStep(opts, script, 0);
  }
}
