/** The optional `<session>` scope prefix both key formats begin with, and
    the reading of a session id back out of a scoped key. */
module KeyPrefix {
  import opened Js

  /** The optional scope prefix: `<sid>` for a non-empty session id, nothing
      for `null` or the empty string (both are falsy). */
  function SessionPrefix(sessionId: Option<string>): (p: string)
    ensures p == "" <==> sessionId.None? || sessionId.value == ""
    ensures sessionId.Some? && sessionId.value != "" ==> p == "<" + sessionId.value + ">"
  {
    if sessionId.Some? && sessionId.value != "" then "<" + sessionId.value + ">" else ""
  }

  /** `(a + b + c)[|a|..|a| + |b|] == b`. */
  lemma MiddleOfConcat(a: string, b: string, c: string)
    ensures (a + b + c)[|a|..|a| + |b|] == b
  {
  }

  /** Reads the session id back out of a scoped key whose unscoped part has
      the given length. */
  function SessionOf(key: string, unscopedLength: nat): string
    requires unscopedLength + 2 <= |key|
  {
    key[1..|key| - unscopedLength - 1]
  }

  /** The session id can be read back from a scoped key. */
  lemma SessionRoundTrip(sessionId: string, unscoped: string)
    ensures |unscoped| + 2 <= |"<" + sessionId + ">" + unscoped|
    ensures SessionOf("<" + sessionId + ">" + unscoped, |unscoped|) == sessionId
  {
    MiddleOfConcat("<", sessionId, ">" + unscoped);
    assert "<" + sessionId + ">" + unscoped == "<" + sessionId + (">" + unscoped);
  }
}
