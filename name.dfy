/** The service name carried by the execution context (name.go). */
module Names {
  import opened Context

  /**
   * `withName`: bind a non-empty name; an empty one leaves the context as it is,
   * so an earlier name stays visible.
   */
  function WithName(ctx: Ctx, name: string): (r: Ctx)
    ensures name == "" ==> r == ctx
    ensures Name(r) == if name != "" then name else Name(ctx)
    ensures forall k :: k != NameKey ==> Lookup(r, k) == Lookup(ctx, k)
  {
    if name == "" then ctx else WithValue(ctx, NameKey, Text(name))
  }

  /** `Name`: the bound name, or "" when none is bound. */
  function Name(ctx: Ctx): (r: string)
    ensures Lookup(ctx, NameKey).None? ==> r == ""
  {
    TextValue(ctx, NameKey)
  }
}
