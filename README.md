# A verified model of the `as` service supervisor

`as` is a Go library that hosts a long-running service and supervises it.
It does four things:

- It runs the service's start-up, main and clean-up functions as one *attempt*.
- It restarts failed attempts under a restart policy. The policy can be switched off, capped by a grace period (time since the first attempt) and by a grace count (number of failures), and it treats panics separately.
- It decorates the execution context with the service's name, version, namespace, environment-variable prefix and logger.
- It resolves its options from defaults, option functions and the environment.

The library has two supervisors:

- An interface-based one, in `run.go`. The service is a value with `Init`, `Run` and `Close`.
- A legacy struct-based one, in `service.go`. The service is a `Service` record with optional `InitFunc`, `RunFunc` and `ShutdownFunc`, a `running` flag and a stored OTEL shutdown function.

This project models both supervisors, the option resolution, the environment-key normalisation and the context helpers. It proves properties of the model in Dafny.

To make the model deterministic:

- What the hosted functions do is given per attempt, in an `Attempt` value. Each call returns, fails with an error, or panics.
- A run is a finite *script* of attempts.
- Time enters as the elapsed time the loop would read after each attempt.
- A `sleep` is recorded as the delay chosen, not performed.
- What the loop logs is recorded as a list of log records.

A run's result is a `Trace`: how the run ended, the number of attempts made, the delays slept and the error lines logged. How a run can end:

- it returned nil or an error;
- a panic escaped;
- the script ran out while the loop would have gone on.

Both loops share one structure. Each attempt yields a *turn*: stop with an exit, or restart after a delay, each with the lines logged. A run plays its turns in order up to the first stop. This is `Lifecycle.Play`, with `PlayShape`, `PlayStopsAt` and `PlayGoesThrough` proved about it. Each loop is a `while` method, `RunLoop` (interface-based) and `Legacy.Service.Attempts` (legacy). Each is proved equal to the functional `Supervise` of its module, and the loop properties are lemmas about `Supervise`.

The legacy `Service` is a class:

- The identity and function presence are constant fields.
- `running` and `otelShutdown` are mutable fields, which the methods change under `modifies` clauses.

Files:

| file | module | models |
|---|---|---|
| wrappers.dfy | `Wrappers` | an option type for Go's nilable results |
| errors.dfy | `Errors` | the errors the loops create and inspect, and the `ae` questions `errors.Is(…, context.Canceled)` and `IsRecoverable` |
| context.dfy | `Context` | `context.Context` as a map from private keys to values |
| slog.dfy | `Slog` | log levels, the three handlers, a logger value |
| name.dfy, namespace.dfy, version.dfy | `Names`, `Namespaces`, `Versions` | name.go, namespace.go, version.go |
| env.dfy | `Env` | env.go |
| logger.dfy | `Logging` | logger.go |
| options.dfy | `Config` | options.go |
| decorate.dfy | `Decoration` | the decoration sequence both entry points perform |
| lifecycle.dfy | `Lifecycle` | what both loops share: calls, verdicts, log lines, turns, traces |
| run.dfy | `Supervisor` | run.go: `runOnce`, `runLoop`, `validateService`, `RunC` |
| service.dfy | `Legacy` | service.go: the `Service` class and its methods |
| variants.dfy | `Variants` | lemmas setting the two loops side by side |

Where the documentation and the code disagree, the model follows the code:

- options.go:46 says debug logging disables JSON logging. `initLogger` does not do this: `LogJson` alone picks the JSON handler (`Logging.InitLogger`).
- options.go:45 says the debug default follows local source modifications. `DefaultOptions` only checks whether a `vcs.modified` setting is present, not its value (`Config.VcsModified`).
- `RunC` takes a `ctx` parameter (run.go:48) and never uses it: it derives the run context from `context.Background()` (run.go:49) (`Supervisor.RunC`).
- The legacy loop wraps a cancelled `RunFunc` as "service failed" and restarts it like any other error. It also never asks whether an error is recoverable (`Variants.CancellationRestartsOnlyInLegacy`, `Variants.FatalErrorRestartsOnlyInLegacy`).
- `initLogger` reads `opts.LogLevel`, a field `Options` does not declare. The model passes it in as the parameter `logLevel`.

## Model

| member | source | states |
|---|---|---|
| Context.WithValue | env.go:18 | the child context finds the new value under its key and the parent's value under every other key |
| Names.WithName | name.go:11-17 | an empty name returns the context unchanged; otherwise `Name` then returns the new name; no other key changes |
| Names.Name | name.go:21-28 | "" when no name is bound |
| Namespaces.WithNamespace | namespace.go:11-16 | an empty namespace returns the context unchanged; otherwise `Namespace` then returns it; no other key changes |
| Namespaces.Namespace | namespace.go:20-26 | "" when no namespace is bound |
| Versions.WithVersion | version.go:10-16 | an empty version returns the context unchanged; otherwise `Version` then returns it; no other key changes |
| Versions.Version | version.go:20-27 | "" when no version is bound |
| Env.WithEnvPrefix | env.go:17-19 | the prefix is bound even when empty, and `EnvPrefix` then returns it; no other key changes |
| Env.EnvPrefix | env.go:23-29 | "" when no prefix is bound |
| Env.ToUpper | env.go:76-79 | lower-case ASCII letters move up by 32 code points; other characters are unchanged; letters and digits land in `[A-Z0-9]` |
| Env.NormalizeEnvKey | env.go:64-90 | the rune loop and trim compute `NormalizedKey`; the result is a well-formed key, and its letters are the input's ASCII letters and digits, upper-cased and in order |
| Env.GetEnv | env.go:33-35 | reads the variable named by the normalised prefix-plus-key; "" when it is unset |
| Env.LookupEnv | env.go:40-43 | reports presence for the raw prefix-plus-key name; a present value comes back normalised (so a well-formed key), an absent one as "" |
| Env.PushAllScanned | env.go:68-86 | the loop only ever appends key characters and never two `_` in a row |
| Env.PushAllLetters | env.go:71-85 | the letters the loop emits are exactly the input's ASCII letters and digits, upper-cased, in order |
| Env.TrimLeftShape | env.go:89 | trimming the leading `_` removes only `_` and leaves no `_` in front |
| Env.TrimRightShape | env.go:89 | trimming the trailing `_` removes only `_` and leaves no `_` at the end |
| Env.NormalizedKeyShape | env.go:54-90 | the output is in `[A-Z0-9_]`, has no `_` at either end and no `__`, and its letters are the input's ASCII letters and digits, upper-cased, in order |
| Env.NoAlnumGivesEmptyKey | env.go:76-89 | an input with no ASCII letter or digit normalises to "" |
| Env.PushAllKeepsKey | env.go:68-86 | the loop copies a well-formed key unchanged |
| Env.NormalizeIdempotent | env.go:62-89 | normalising a normalised key gives the same key |
| Env.PushAllAppend | env.go:68-86 | running the loop over `a + b` equals running it over `a`, then over `b` |
| Env.SeparatorRun | env.go:71-85 | a run of non-alphanumeric characters adds exactly one `_` (none if the output already ends in `_`), whatever combining marks sit in it; a run of marks alone adds nothing |
| Env.AlnumWord | env.go:76-79 | ASCII letters and digits are appended one for one, upper-cased |
| Env.WordsJoinedBySeparator | env.go:64-90 | two alphanumeric words joined by any separator run normalise to the upper-cased words joined by one `_` |
| Env.DocumentedExamplePrefix | env.go:63 | the loop turns "my-E" followed by U+0301 into "MY_E" |
| Env.DocumentedExampleMiddle | env.go:63 | the loop turns "my-E", U+0301, "nv." into "MY_ENV_" |
| Env.DocumentedExample | env.go:63 | "my-Énv.key", with É decomposed, normalises to "MY_ENV_KEY" |
| Env.PushAllSameSpelling | env.go:68-86 | names that differ only in letter case, in which separator characters they use, and in marks at the same places give the same loop output |
| Env.GetEnvIgnoresSpelling | env.go:33-35 | `GetEnv` reads the same variable for such keys |
| Env.LookupEnvReadsRawName | env.go:33-43 | with prefix "app_" and only `APP_PORT` set, `GetEnv(ctx, "port")` finds the value while `LookupEnv(ctx, "port")` reports it unset |
| Logging.WithLogger | logger.go:19-30 | nil keeps a context that already has a logger; nil binds the default logger otherwise; a given logger is bound; no other key changes |
| Logging.Logger | logger.go:35-42 | the default logger when none is bound |
| Logging.InitLogger | logger.go:44-98 | level from the level name, forced to debug by `LogDebug`; the JSON handler exactly when `LogJson`; tint exactly when not JSON and colours are on, or forced on by (auto-colours or debug) on a terminal; attributes service, version, namespace, each only when non-empty |
| Config.Target | options.go:91-139 | none of the `WithX` options sets the env prefix; only a caller-written option setting `EnvPrefix` does |
| Config.Apply | options.go:93-139 | an option sets its own field to its value; any option but a prefix option keeps the env prefix |
| Config.ApplyKeeps | options.go:93-139 | an option leaves every other field unchanged |
| Config.ApplyAll | options.go:147-150 | the fold over options with no prefix option keeps the env prefix |
| Config.DefaultOptions | options.go:64-87 | the documented defaults: 10 s error delay, restarts and recovery on, 1 min grace period, count 3, 30 s shutdown timeout, JSON and auto-colours on, panic delay, colours and prefix zero; debug exactly when a `vcs.modified` setting is present |
| Config.EnvParserPrefix | options.go:152-162 | the parser receives the normalised derived prefix (the options' own prefix if set, otherwise `<namespace>_<name>_`, or `<name>_` without a namespace), a well-formed key (never ending in `_`) |
| Config.Resolve | options.go:146-165 | the environment overlay never changes the prefix the options left, so the derived prefix is never stored: the result's prefix is "" unless an option set it |
| Config.ApplyOptions | options.go:146-165 | the defaults, the option loop in list order, the prefix derivation and the overlay compute `Resolve` |
| Config.LastPrefixWins | options.go:147-150 | the last prefix option in the list decides the env prefix the fold leaves |
| Config.ResolveOwnPrefix | options.go:151-162 | when the last prefix option sets a non-empty prefix, the environment is read under that prefix, normalised, and the result keeps it |
| Config.ResolveDerivedPrefix | options.go:151-162 | with no prefix option, the environment is read under `<namespace>_<name>_` (or `<name>_`), normalised |
| Config.LastSetterWins | options.go:147-150 | the last option in the list for a field decides that field |
| Config.UnsetFieldKept | options.go:147-150 | a field no option sets keeps its value |
| Config.ExampleServicePrefix | options.go:152-161 | namespace "service" and name "example" read the environment under "SERVICE_EXAMPLE" |
| Decoration.Decorate | run.go:69-72 | name, version and namespace are bound only when non-empty, the env prefix always; the logger binding is untouched |
| Decoration.BindLogger | run.go:75 | the built logger becomes the context's logger; name, version, namespace and prefix are untouched |
| Lifecycle.VerdictMessage | run.go:140-174 | which error line a verdict logs: the two ceilings, restart after a delay or immediately; no line for success, for not restarting, or for the panic rule |
| Lifecycle.GraceVerdict | run.go:140-165 | grace period first, then grace count, then the panic rule, each an iff; a restart waits the panic delay for a panic when that is set (> 0), the error delay otherwise; with both ceilings off and panics allowed it always restarts |
| Lifecycle.VerdictLogs | run.go:130-174 | at most one line, with the verdict's message; a stop carries the gathered attributes, a restart also the delay |
| Lifecycle.PlayShape | run.go:118-175 | no more attempts than turns; one delay per restart, each the delay its turn chose; a run that ended did so on a stopping turn, with its exit and its lines last |
| Lifecycle.PlayStopsAt | run.go:118-175 | k restarting turns then a stopping one give k + 1 attempts, that turn's exit and k delays |
| Lifecycle.PlayGoesThrough | run.go:118-175 | turns that all restart leave the run still going, having waited each turn's delay |
| Supervisor.AttemptOutcome | run.go:178-221 | Init failure wrapped "service initialization failed"; a non-cancellation Run failure wrapped "service run failed"; no error exactly when Close is reached and does not panic; a Close error is kept aside and never returned; `isPanic` exactly for a panic error |
| Supervisor.AttemptCalls | run.go:178-221 | Run is called only after Init returned, Close only after Run returned or was cancelled; a panic escapes exactly when recovery is off; a recovered panic becomes a "panic" error whose cause is the panic value (an error kept as it is, any other value as a message with its text), and a Close panic carries the pending Run error as related |
| Supervisor.RunOnce | run.go:178-221 | the step-by-step attempt computes `AttemptOutcome` |
| Supervisor.GraceAttrsContent | run.go:130-138 | the error line names the error first, the grace period only when set, the remaining count only when the count is set |
| Supervisor.TurnFrom | run.go:119-174 | nil stops with no error; an error while restarts are off or not recoverable stops with that error; on these two stops the only line logged is the Close error's "service shutdown failed" line, if Close failed; otherwise `GraceVerdict` on the advanced counter decides stop or restart, and a restart waits `RestartDelay` |
| Supervisor.SuperviseStep | run.go:118-175 | the first attempt's turn ends the run, or the run continues with one more failure counted |
| Supervisor.SuperviseShape | run.go:114-176 | no more attempts than scripted; every restart is its attempt's turn; an ended run ended on the turn of its last attempt |
| Supervisor.TurnBlame | run.go:119-159 | a restart follows a failure; a stop returns the attempt's own result; an escaped panic is the attempt's |
| Supervisor.CheckCeilings | run.go:128-174 | the attribute gathering, the checks and the logging compute `GraceVerdict` and `VerdictLogs` |
| Supervisor.TakeTurn | run.go:119-174 | one pass of the loop body computes `TurnOf` |
| Supervisor.RunLoop | run.go:114-176 | the `while` loop computes `Supervise` from a zero counter |
| Supervisor.RestartableTurn | run.go:140-174 | for a restartable failure the turn restarts iff `GraceVerdict` does, with its delay; a stop returns the error; a passed grace period logs only "exceeded grace period" |
| Supervisor.RunEndsAtFirstUnrestarted | run.go:119-126 | with no ceiling, a run ends on the first attempt that succeeds or fails unrecoverably, with its result, after exactly that many attempts |
| Supervisor.RestartsOffStopAtOnce | run.go:119-126 | with restarts off, the first attempt's result ends the run after one attempt |
| Supervisor.GraceCountAttempts | run.go:116-153 | `GraceCount = N > 0`, no grace period, every attempt failing restartably: N + 1 attempts, N delays, the last attempt's error |
| Supervisor.GracePeriodStops | run.go:140-154 | the first attempt after the grace period has passed ends the run with its error, logging "exceeded grace period" last, unless the count ceiling was passed first |
| Supervisor.NoCeilingsKeepRunning | run.go:156-174 | with both ceilings off and every attempt failing restartably, every attempt is made and each restart waits the delay `RestartDelay` chooses |
| Supervisor.ValidateService | run.go:99-110 | no error exactly when name and namespace are set; otherwise one "invalid service" aggregate of every violation, the name first |
| Supervisor.WithOtelShutdown | run.go:85-94 | a failed OTEL shutdown is logged once the loop has returned or escaped; nothing else about the run changes |
| Supervisor.RunC | run.go:48-97 | an invalid identity returns a fatal "invalid service" error before any attempt; an OTEL failure returns a fatal error before any attempt; otherwise the loop runs under the resolved options with the deferred OTEL shutdown, and the context carries the identity and a configured logger |
| Legacy.ShutdownResult | service.go:252-266 | a ShutdownFunc panic goes no further; otherwise the errors of ShutdownFunc and then the OTEL shutdown are aggregated as "shutdown failed", with none when both succeed |
| Legacy.OutcomeRules | service.go:176-218 | an OTEL failure is the only internal error; Init and Run failures are wrapped (a cancellation too, as "service failed"); no error exactly when every step returns; a shutdown error, the "shutdown failed" aggregate of the ShutdownFunc and OTEL shutdown errors, is kept aside and never returned; a recovered panic carries no related error |
| Legacy.GraceAttrsContent | service.go:128-136 | the error line names the error first, the grace period only when set, the counter only when the count is set |
| Legacy.TurnFrom | service.go:117-172 | nil stops; an internal error or any error while restarts are off stops with that error; otherwise `GraceVerdict` on the advanced counter decides, recoverability playing no part |
| Legacy.SuperviseStep | service.go:116-173 | the first attempt's turn ends the run, or the run continues with the counter advanced |
| Legacy.SuperviseShape | service.go:113-174 | no more attempts than scripted, one delay per restart, an ended run's exit from the turn of its last attempt |
| Legacy.CheckCeilings | service.go:126-172 | the attribute gathering, the checks and the logging compute `GraceVerdict` and `VerdictLogs` |
| Legacy.Service.constructor | service.go:19-41 | a fresh `Service` is not running and has no OTEL shutdown stored |
| Legacy.Service.Validate | service.go:81-88 | no panic exactly when name and version are set; a missing name is reported before a missing version; the namespace is not checked |
| Legacy.Service.Initialize | service.go:222-236 | stores the OTEL shutdown whatever happens, and computes `InitResult` |
| Legacy.Service.Execute | service.go:240-248 | computes `RunResult` |
| Legacy.Service.Shutdown | service.go:252-266 | computes `ShutdownResult` with the stored OTEL shutdown |
| Legacy.Service.RunOnce | service.go:176-218 | computes `AttemptOutcome` and leaves this attempt's OTEL shutdown stored |
| Legacy.Service.TakeTurn | service.go:117-172 | one pass of the loop body computes `TurnOf` |
| Legacy.Service.Prepare | service.go:100-107 | the context carries the non-empty identity values and a configured logger |
| Legacy.Service.RunLoop | service.go:92-174 | sets `running`; a second run returns "already running" with no attempt and no state change; a first run computes `Supervise` from a counter of one, leaving the last attempt's OTEL shutdown stored, or the one stored before when no attempt is made |
| Legacy.Service.Attempts | service.go:113-173 | the `while` loop computes `Supervise` from a counter of one |
| Legacy.Service.RunC | service.go:75-79 | a missing name or version panics before any state changes; otherwise the `Service` is marked running, a second run returns "already running", and a first run computes `Supervise` under the resolved options, leaving its last attempt's OTEL shutdown stored; a run with no attempt leaves the stored OTEL shutdown unchanged |
| Legacy.Service.Run | service.go:47-49 | as written: a missing name or version panics with the state untouched; otherwise the `Service` is marked running, a second call returns "already running", and a first call computes `Supervise` under options resolved from an empty option list; the stored OTEL shutdown is the last attempt's, or unchanged when no attempt is made |
| Legacy.Service.RunWithOptions | service.go:44-49 | as documented: the same as `Run`, except that a first call resolves the options from the given list |
| Legacy.RunTwice | service.go:109-111 | a second run of the same `Service`, even a sequential one, returns "already running" |
| Legacy.RestartableTurn | service.go:138-172 | for a restartable failure the turn restarts iff `GraceVerdict` does, with its delay; a stop returns the error |
| Legacy.GraceCountFrom | service.go:114-152 | counting from `start`, `GraceCount = N` with every attempt failing restartably gives N - start + 1 attempts and the last attempt's error |
| Legacy.GraceCountAttempts | service.go:113-152 | as written: `GraceCount = N > 0` gives only N attempts (N - 1 restarts) |
| Legacy.GraceCountFromZero | options.go:37-39 | a counter starting at zero gives the documented N restarts, N + 1 attempts |
| Legacy.OtelFailureStops | service.go:117-124 | an OTEL failure ends the run at once with "service initialization failed", whatever the restart options |
| Legacy.RunDropsOptions | service.go:47-49 | an option list with grace count 5 resolves to 5, while the empty list `Run` passes resolves to the default 3 |
| Variants.RestartableInBoth | service.go:122-124 | an attempt the interface-based loop may restart, the legacy loop may restart too |
| Variants.LegacyStopsOneEarlier | service.go:113-114 | under the same grace count the legacy loop makes one attempt fewer than the interface-based loop |
| Variants.FatalErrorRestartsOnlyInLegacy | run.go:124-126 | a fatal Run error ends the interface-based run after one attempt, while the legacy loop restarts it |
| Variants.CancellationRestartsOnlyInLegacy | service.go:205-208 | a cancelled Run ends the interface-based run with no error, while the legacy loop reports "service failed" and restarts |

## Left out

- otel.go is not part of this model. What `initOtel` and the shutdown function it returns report is given per attempt (legacy) or per run (`Supervisor.RunC`).
- `ae.WithOtelAttribute` is left out: it binds only OTEL attributes the model does not read.
- `RunAndExit`, `RunAndExitC`, `RunToCompletion` and `RunToCompletionC` are left out: they print and call `os.Exit`.
- `signal.NotifyContext` and the cancellation it brings are left out. A cancellation reaches the model only as the error a call returns.
- `time.Now`, `time.Since` and `time.Sleep` are replaced by an elapsed time per attempt and the recorded delays.
- The supervisor's debug-level log lines ("initializing service" and the like) are not recorded; only its error lines are.
- Log attributes that the source formats with `Duration.String()` (run.go:134, run.go:167, service.go:132) and the one it logs raw (service.go:165) are all recorded as nanoseconds.
- The `ae` library is replaced by the `Errors.Error` datatype: no stack traces, no message formatting.
- `Errors.IsCanceled` and `Errors.IsRecoverable` look through `Wrapped` causes only. They do not look through the cause of a `Fatal`, `Panic` or `Many` error, so a Run error `Fatal(_, Canceled)` counts as a failure, not a cancellation. How `ae` itself unwraps errors is not part of this model.
- The environment overlay (`env.ParseWithOptions`, options.go:160) is a parameter that maps the prefix to the option changes it finds. Those changes cannot include the env prefix, which has no `env` tag (`Config.EnvSetting`). Its parse errors, which the source discards, are not modelled.
- `Config.Setter`: an `Option` (options.go:91) is any closure. The model covers the twelve `WithX` helpers and the caller-written closure that sets `EnvPrefix`. A closure that sets several fields is the same as a list of these; closures that read fields or do anything else are not modelled.
- `debug.ReadBuildInfo` is a parameter.
- `LoadEnv`, a generic wrapper over the same parser, is left out.
- `Env.IsCombiningMark`: the Unicode category Mn is reduced to the block U+0300 to U+036F. NFD decomposition is not modelled: the input is taken as already decomposed.
- `running` is a plain boolean, not atomic. Concurrent runs are not modelled.
- `Legacy.Service.RunOnce`: a panic with recovery off is an escaped panic (`Crashed`); what the Go runtime then does is not modelled.
- Legacy attempts do not record which calls were made; the step order shows only in `Legacy.Service.RunOnce`.
- The slog handlers, their output and `isatty` are replaced by an enum and an `isTerminal` parameter.
- The group orchestrator is not part of the source shown and is not modelled.
- `Supervisor.RunC` and `Legacy.Service.Attempts`: a script that runs out ends as `StillRunning`. The source's loop would go on.

## Findings

| source | as written | input that shows it | evidently intended | confidence | as-written member | corrected member |
|---|---|---|---|---|---|---|
| service.go:47-49 | `Run(opts...)` calls `RunC(context.Background())` and drops its options | `Run(WithGraceCount(5))` runs with the default grace count 3 | pass the options on, as the doc comment's "with the given options" says | high, not executed | Legacy.RunDropsOptions | Legacy.Service.RunWithOptions |
| service.go:114 | the legacy restart counter starts at 1 and is checked after being advanced | `GraceCount = 3`, no grace period, every attempt failing: 3 attempts, 2 restarts | options.go:37 documents `GraceCount` as the number of allowed restarts, so 4 attempts and 3 restarts, as run.go does from a counter of 0 | medium, not executed | Legacy.GraceCountAttempts | Legacy.GraceCountFromZero |
