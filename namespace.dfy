/** The service namespace carried by the execution context (namespace.go). */
module Namespaces {
  import opened Context

  /**
   * `withNamespace`: bind a non-empty namespace; an empty one leaves the context as it is,
   * so an earlier namespace stays visible.
   */
  function WithNamespace(ctx: Ctx, domain: string): (r: Ctx)
    ensures domain == "" ==> r == ctx
    ensures Namespace(r) == if domain != "" then domain else Namespace(ctx)
    ensures forall k :: k != NamespaceKey ==> Lookup(r, k) == Lookup(ctx, k)
  {
    if domain == "" then ctx else WithValue(ctx, NamespaceKey, Text(domain))
  }

  /** `Namespace`: the bound namespace, or "" when none is bound. */
  function Namespace(ctx: Ctx): (r: string)
    ensures Lookup(ctx, NamespaceKey).None? ==> r == ""
  {
    TextValue(ctx, NamespaceKey)
  }
}
