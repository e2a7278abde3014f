/**
 * The context decoration both entry points perform before the first attempt:
 * name, version, namespace and env prefix are bound one after the other, and
 * then the logger built from that context.
 */
module Decoration {
  import opened Wrappers
  import opened Context
  import Slog
  import Names
  import Versions
  import Namespaces
  import Env
  import Logging

  /**
   * `withName`, `withVersion`, `withNamespace`, `withEnvPrefix` in that order.
   * Empty identity values leave what the context held; the env prefix is bound
   * even when empty; the logger binding is untouched.
   */
  function Decorate(ctx: Ctx, name: string, version: string, namespace: string, envPrefix: string): (r: Ctx)
    ensures Names.Name(r) == if name != "" then name else Names.Name(ctx)
    ensures Versions.Version(r) == if version != "" then version else Versions.Version(ctx)
    ensures Namespaces.Namespace(r) == if namespace != "" then namespace else Namespaces.Namespace(ctx)
    ensures Env.EnvPrefix(r) == envPrefix
    ensures Lookup(r, LoggerKey) == Lookup(ctx, LoggerKey)
  {
    var c1 := Names.WithName(ctx, name);
    var c2 := Versions.WithVersion(c1, version);
    var c3 := Namespaces.WithNamespace(c2, namespace);
    Env.WithEnvPrefix(c3, envPrefix)
  }

  /** `ctx = WithLogger(ctx, initLogger(ctx, opts))`: the freshly built logger becomes the context's logger. */
  function BindLogger(ctx: Ctx, logger: Slog.Logger): (r: Ctx)
    ensures Logging.Logger(r) == logger
    ensures Names.Name(r) == Names.Name(ctx) && Versions.Version(r) == Versions.Version(ctx)
    ensures Namespaces.Namespace(r) == Namespaces.Namespace(ctx) && Env.EnvPrefix(r) == Env.EnvPrefix(ctx)
    ensures forall k :: k != LoggerKey ==> Lookup(r, k) == Lookup(ctx, k)
  {
    Logging.WithLogger(ctx, Some(logger))
  }
}
