/** The node-id key format `<session>Type.id`. */
module NodeIdKey {
  import opened Js
  import opened KeyPrefix

  /** `nodeIdCacheKey(nodeTypeName, nodeId, sessionId)`; a numeric id is
      taken as its string form. */
  function NodeIdCacheKey(nodeTypeName: string, nodeId: string, sessionId: Option<string>): (key: string)
    ensures sessionId.None? || sessionId.value == "" ==> key == nodeTypeName + "." + nodeId
    ensures sessionId.Some? && sessionId.value != "" ==>
      key == "<" + sessionId.value + ">" + (nodeTypeName + "." + nodeId)
    ensures |key| > |nodeId| && key[|key| - |nodeId| - 1..] == "." + nodeId
  {
    var key := SessionPrefix(sessionId) + nodeTypeName + "." + nodeId;
    assert key[|key| - |nodeId| - 1..] == "." + nodeId;
    key
  }

  /** Reads the id back out of a node-id key of a known type and session. */
  function NodeIdOf(key: string, nodeTypeName: string, sessionId: Option<string>): string
    requires |SessionPrefix(sessionId)| + |nodeTypeName| + 1 <= |key|
  {
    key[|SessionPrefix(sessionId)| + |nodeTypeName| + 1..]
  }

  /** The id can be read back from its key. */
  lemma NodeIdRoundTrip(nodeTypeName: string, nodeId: string, sessionId: Option<string>)
    ensures |SessionPrefix(sessionId)| + |nodeTypeName| + 1 <= |NodeIdCacheKey(nodeTypeName, nodeId, sessionId)|
    ensures NodeIdOf(NodeIdCacheKey(nodeTypeName, nodeId, sessionId), nodeTypeName, sessionId) == nodeId
  {
    var key := NodeIdCacheKey(nodeTypeName, nodeId, sessionId);
    assert key == SessionPrefix(sessionId) + nodeTypeName + "." + nodeId;
    assert key[|SessionPrefix(sessionId)| + |nodeTypeName| + 1..] == nodeId;
  }

  /** For a fixed type and session, distinct ids give distinct keys. */
  lemma NodeIdKeyInjective(nodeTypeName: string, sessionId: Option<string>, id1: string, id2: string)
    requires id1 != id2
    ensures NodeIdCacheKey(nodeTypeName, id1, sessionId) != NodeIdCacheKey(nodeTypeName, id2, sessionId)
  {
    NodeIdRoundTrip(nodeTypeName, id1, sessionId);
    NodeIdRoundTrip(nodeTypeName, id2, sessionId);
  }

  /** Two distinct non-empty sessions never share a node-id key. */
  lemma SessionsIsolateNodeKeys(nodeTypeName: string, nodeId: string, s1: string, s2: string)
    requires s1 != "" && s2 != "" && s1 != s2
    ensures NodeIdCacheKey(nodeTypeName, nodeId, Some(s1)) != NodeIdCacheKey(nodeTypeName, nodeId, Some(s2))
  {
    var unscoped := nodeTypeName + "." + nodeId;
    SessionRoundTrip(s1, unscoped);
    SessionRoundTrip(s2, unscoped);
  }

  /** A session-scoped node-id key never equals the public one. */
  lemma ScopedNodeKeyIsNotPublic(nodeTypeName: string, nodeId: string, s: string)
    requires s != ""
    ensures NodeIdCacheKey(nodeTypeName, nodeId, Some(s)) != NodeIdCacheKey(nodeTypeName, nodeId, None)
  {
  }
}
