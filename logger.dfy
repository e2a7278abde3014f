/** Binding, retrieving and building the service logger (logger.go). */
module Logging {
  import opened Wrappers
  import opened Context
  import Slog
  import Config
  import Names
  import Namespaces
  import Versions

  /**
   * `WithLogger`: a given logger is bound; without one (nil), a context that
   * already holds a logger is returned as it is, and any other gets the default
   * logger bound. Either way, `Logger` then answers the given logger, or what it
   * answered before.
   */
  function WithLogger(ctx: Ctx, logger: Option<Slog.Logger>): (r: Ctx)
    ensures logger.None? && HasLogger(ctx) ==> r == ctx
    ensures logger.None? && !HasLogger(ctx) ==> Lookup(r, LoggerKey) == Some(LoggerValue(Slog.DefaultLogger))
    ensures logger.Some? ==> Lookup(r, LoggerKey) == Some(LoggerValue(logger.value))
    ensures forall k :: k != LoggerKey ==> Lookup(r, k) == Lookup(ctx, k)
    ensures Logger(r) == if logger.Some? then logger.value else Logger(ctx)
  {
    match logger
    case None => if HasLogger(ctx) then ctx else WithValue(ctx, LoggerKey, LoggerValue(Slog.DefaultLogger))
    case Some(l) => WithValue(ctx, LoggerKey, LoggerValue(l))
  }

  /** `ctx.Value(loggerKey{}).(*slog.Logger)` succeeds. */
  predicate HasLogger(ctx: Ctx) {
    Lookup(ctx, LoggerKey).Some? && Lookup(ctx, LoggerKey).value.LoggerValue?
  }

  /** `Logger`: the bound logger, or the default one when none is bound. */
  function Logger(ctx: Ctx): (r: Slog.Logger)
    ensures !HasLogger(ctx) ==> r == Slog.DefaultLogger
  {
    if HasLogger(ctx) then Lookup(ctx, LoggerKey).value.logger else Slog.DefaultLogger
  }

  /**
   * `initLogger`: choose the level, whether colours are on, the handler and the
   * identity attributes, one step after the other. `logLevel` stands for the
   * `opts.LogLevel` the source reads (a field `Options` does not declare) and
   * `isTerminal` for whether standard output is a terminal. The colour flag is
   * changed on a copy: the caller's options are passed by value.
   */
  method InitLogger(ctx: Ctx, opts: Config.Options, logLevel: string, isTerminal: bool) returns (logger: Slog.Logger)
    ensures logger.Configured?
    ensures opts.logDebug ==> logger.level == Slog.LevelDebug
    ensures !opts.logDebug ==>
      (logger.level ==
         if logLevel == "error" then Slog.LevelError
         else if logLevel == "warn" then Slog.LevelWarn
         else if logLevel == "debug" then Slog.LevelDebug
         else Slog.LevelInfo)
    ensures logger.handler == Slog.JsonHandler <==> opts.logJson
    ensures logger.handler == Slog.TintHandler <==>
      !opts.logJson && (opts.logColors || ((opts.logAutoColors || opts.logDebug) && isTerminal))
    ensures logger.attrs ==
      (if Names.Name(ctx) != "" then [("service", Names.Name(ctx))] else []) +
      (if Versions.Version(ctx) != "" then [("version", Versions.Version(ctx))] else []) +
      (if Namespaces.Namespace(ctx) != "" then [("namespace", Namespaces.Namespace(ctx))] else [])
  {
    var level := Slog.LevelInfo;
    if logLevel == "error" {
      level := Slog.LevelError;
    } else if logLevel == "warn" {
      level := Slog.LevelWarn;
    } else if logLevel == "debug" {
      level := Slog.LevelDebug;
    } else {
      level := Slog.LevelInfo;
    }

    if opts.logDebug {
      level := Slog.LevelDebug;
    }

    var colors := opts.logColors;
    if opts.logAutoColors || opts.logDebug {
      if isTerminal {
        colors := true;
      }
    }

    var handler: Slog.Handler;
    if opts.logJson {
      handler := Slog.JsonHandler;
    } else if colors {
      handler := Slog.TintHandler;
    } else {
      handler := Slog.TextHandler;
    }

    var attrs: seq<(string, string)> := [];
    if Names.Name(ctx) != "" {
      attrs := attrs + [("service", Names.Name(ctx))];
    }
    if Versions.Version(ctx) != "" {
      attrs := attrs + [("version", Versions.Version(ctx))];
    }
    if Namespaces.Namespace(ctx) != "" {
      attrs := attrs + [("namespace", Namespaces.Namespace(ctx))];
    }
    logger := Slog.Configured(level, handler, attrs);
  }
}
