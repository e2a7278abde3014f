/**
 * The execution context (`context.Context`) as far as the supervisor uses it:
 * values stored under private keys. `context.WithValue` returns a child whose
 * lookup of its key finds the new value and whose other lookups fall through to
 * the parent, which is exactly a map update.
 */
module Context {
  import opened Wrappers
  import Slog

  /** One private key type per decorating file. */
  datatype Key = NameKey | NamespaceKey | VersionKey | EnvPrefixKey | LoggerKey

  datatype Value = Text(text: string) | LoggerValue(logger: Slog.Logger)

  datatype Ctx = Ctx(values: map<Key, Value>)

  /** `context.Background()`: nothing bound. */
  const Background: Ctx := Ctx(map[])

  /** `ctx.Value(k)`: the value bound to `k`, if any. */
  function Lookup(ctx: Ctx, k: Key): Option<Value> {
    if k in ctx.values then Some(ctx.values[k]) else None
  }

  /** `context.WithValue(ctx, k, v)`. */
  function WithValue(ctx: Ctx, k: Key, v: Value): (r: Ctx)
    ensures Lookup(r, k) == Some(v)
    ensures forall j :: j != k ==> Lookup(r, j) == Lookup(ctx, j)
  {
    Ctx(ctx.values[k := v])
  }

  /** `v, ok := ctx.Value(k).(string)`, giving "" when `ok` is false. */
  function TextValue(ctx: Ctx, k: Key): (r: string)
    ensures Lookup(ctx, k).None? ==> r == ""
    ensures Lookup(ctx, k).Some? && Lookup(ctx, k).value.Text? ==> r == Lookup(ctx, k).value.text
  {
    match Lookup(ctx, k)
    case Some(Text(s)) => s
    case _ => ""
  }
}
