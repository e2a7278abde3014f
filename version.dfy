/** The service version carried by the execution context (version.go). */
module Versions {
  import opened Context

  /**
   * `withVersion`: bind a non-empty version; an empty one leaves the context as it is,
   * so an earlier version stays visible.
   */
  function WithVersion(ctx: Ctx, version: string): (r: Ctx)
    ensures version == "" ==> r == ctx
    ensures Version(r) == if version != "" then version else Version(ctx)
    ensures forall k :: k != VersionKey ==> Lookup(r, k) == Lookup(ctx, k)
  {
    if version == "" then ctx else WithValue(ctx, VersionKey, Text(version))
  }

  /** `Version`: the bound version, or "" when none is bound. */
  function Version(ctx: Ctx): (r: string)
    ensures Lookup(ctx, VersionKey).None? ==> r == ""
  {
    TextValue(ctx, VersionKey)
  }
}
