/** The session-scope decision: whether a cached value is scoped to a
    session, and the session id it is scoped to. */
module Session {
  import opened Js
  import opened GraphQL

  /** The `sessionId` option: absent, `null`, a literal string, or a function
      of the request context. */
  datatype SessionSource<!C> =
    | Unset
    | NullSession
    | Literal(id: string)
    | PerContext(compute: C -> Option<string>)

  /** `generateSessionId(sessionId, context, cacheHint)`. */
  function GenerateSessionId<C>(sessionId: SessionSource<C>, context: C, cacheHint: CacheHint): (r: Option<string>)
    // Entries that are not PRIVATE are never scoped.
    ensures cacheHint.scope != Some(Private) ==> r.None?
    // A falsy source (absent, null, the empty string) gives no session.
    ensures sessionId.Unset? || sessionId.NullSession? || (sessionId.Literal? && sessionId.id == "") ==> r.None?
    // A literal is returned as it is.
    ensures cacheHint.scope == Some(Private) && sessionId.Literal? && sessionId.id != "" ==> r == Some(sessionId.id)
    // A function is applied to the context and its result returned unchecked.
    ensures cacheHint.scope == Some(Private) && sessionId.PerContext? ==> r == sessionId.compute(context)
  {
    if cacheHint.scope != Some(Private) then None
    else
      match sessionId
      case Unset => None
      case NullSession => None
      case Literal(id) => if id == "" then None else Some(id)
      case PerContext(compute) => compute(context)
  }

  /** A literal session id does not depend on the request context. */
  lemma LiteralIgnoresContext<C>(id: string, c1: C, c2: C, cacheHint: CacheHint)
    ensures GenerateSessionId(Literal(id), c1, cacheHint) == GenerateSessionId(Literal(id), c2, cacheHint)
  {
  }

  /** The decision never yields the empty string from a literal source, so a
      literal-scoped key always carries its `<sid>` prefix. */
  lemma LiteralSessionIsNonEmpty<C>(id: string, context: C, cacheHint: CacheHint)
    ensures GenerateSessionId(Literal(id), context, cacheHint).Some? ==>
      GenerateSessionId(Literal(id), context, cacheHint).value != ""
  {
  }
}
