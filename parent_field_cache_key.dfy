/** The parent-field key format `<session>Parent{id}.field(argsJSON)`. */
module ParentFieldKey {
  import opened Js
  import opened KeyPrefix

  /** The key without its scope prefix. */
  function Unscoped(parentTypeName: string, parentId: string, fieldName: string, argsJson: string): string {
    parentTypeName + "{" + parentId + "}." + fieldName + "(" + argsJson + ")"
  }

  /** `parentFieldCacheKey(parentTypeName, parentId, fieldName, args, sessionId)`. */
  function ParentFieldCacheKey(
    parentTypeName: string, parentId: string, fieldName: string,
    args: Record, json: Serializer, sessionId: Option<string>): (key: string)
    ensures sessionId.None? || sessionId.value == "" ==>
      key == parentTypeName + "{" + parentId + "}." + fieldName + "(" + json(args) + ")"
    ensures sessionId.Some? && sessionId.value != "" ==>
      key == "<" + sessionId.value + ">" + (parentTypeName + "{" + parentId + "}." + fieldName + "(" + json(args) + ")")
    ensures |key| >= |json(args)| + 2 && key[|key| - |json(args)| - 2..] == "(" + json(args) + ")"
  {
    var argsJson := json(args);
    var key := SessionPrefix(sessionId) + parentTypeName + "{" + parentId + "}." + fieldName + "(" + argsJson + ")";
    assert key == SessionPrefix(sessionId) + Unscoped(parentTypeName, parentId, fieldName, argsJson);
    assert key[|key| - |argsJson| - 2..] == "(" + argsJson + ")";
    key
  }

  /** Reads the argument serialisation back out of a key whose text up to
      the opening parenthesis has the given length. */
  function ArgumentsOf(key: string, headLength: nat): string
    requires headLength + 1 <= |key|
  {
    key[headLength..|key| - 1]
  }

  /** Reads the field name back out of a key, given the lengths of the text
      before the field name and of the parenthesised arguments after it. */
  function FieldNameOf(key: string, headLength: nat, tailLength: nat): string
    requires headLength + tailLength <= |key|
  {
    key[headLength..|key| - tailLength]
  }

  /** Everything of the key before the argument serialisation. */
  function Head(parentTypeName: string, parentId: string, fieldName: string, sessionId: Option<string>): string {
    SessionPrefix(sessionId) + parentTypeName + "{" + parentId + "}." + fieldName + "("
  }

  /** The argument serialisation can be read back from a key. */
  lemma ArgumentsRoundTrip(
    parentTypeName: string, parentId: string, fieldName: string,
    args: Record, json: Serializer, sessionId: Option<string>)
    ensures var key := ParentFieldCacheKey(parentTypeName, parentId, fieldName, args, json, sessionId);
      var head := Head(parentTypeName, parentId, fieldName, sessionId);
      |head| + 1 <= |key| && ArgumentsOf(key, |head|) == json(args)
  {
    var argsJson := json(args);
    var head := Head(parentTypeName, parentId, fieldName, sessionId);
    MiddleOfConcat(head, argsJson, ")");
  }

  /** The field name can be read back from a key. */
  lemma FieldNameRoundTrip(
    parentTypeName: string, parentId: string, fieldName: string,
    args: Record, json: Serializer, sessionId: Option<string>)
    ensures var key := ParentFieldCacheKey(parentTypeName, parentId, fieldName, args, json, sessionId);
      var front := SessionPrefix(sessionId) + parentTypeName + "{" + parentId + "}.";
      |front| + |json(args)| + 2 <= |key| && FieldNameOf(key, |front|, |json(args)| + 2) == fieldName
  {
    var argsJson := json(args);
    var front := SessionPrefix(sessionId) + parentTypeName + "{" + parentId + "}.";
    var key := ParentFieldCacheKey(parentTypeName, parentId, fieldName, args, json, sessionId);
    assert key == front + fieldName + "(" + argsJson + ")";
    assert key == front + fieldName + ("(" + argsJson + ")");
    MiddleOfConcat(front, fieldName, "(" + argsJson + ")");
  }

  /** With everything else fixed, distinct argument serialisations give
      distinct keys. */
  lemma ArgumentsSeparateKeys(
    parentTypeName: string, parentId: string, fieldName: string,
    args1: Record, args2: Record, json: Serializer, sessionId: Option<string>)
    requires json(args1) != json(args2)
    ensures ParentFieldCacheKey(parentTypeName, parentId, fieldName, args1, json, sessionId)
         != ParentFieldCacheKey(parentTypeName, parentId, fieldName, args2, json, sessionId)
  {
    ArgumentsRoundTrip(parentTypeName, parentId, fieldName, args1, json, sessionId);
    ArgumentsRoundTrip(parentTypeName, parentId, fieldName, args2, json, sessionId);
  }

  /** With everything else fixed, distinct field names give distinct keys. */
  lemma FieldNamesSeparateKeys(
    parentTypeName: string, parentId: string, field1: string, field2: string,
    args: Record, json: Serializer, sessionId: Option<string>)
    requires field1 != field2
    ensures ParentFieldCacheKey(parentTypeName, parentId, field1, args, json, sessionId)
         != ParentFieldCacheKey(parentTypeName, parentId, field2, args, json, sessionId)
  {
    FieldNameRoundTrip(parentTypeName, parentId, field1, args, json, sessionId);
    FieldNameRoundTrip(parentTypeName, parentId, field2, args, json, sessionId);
  }

  /** Two distinct non-empty sessions never share a parent-field key. */
  lemma SessionsIsolateParentFieldKeys(
    parentTypeName: string, parentId: string, fieldName: string,
    args: Record, json: Serializer, s1: string, s2: string)
    requires s1 != "" && s2 != "" && s1 != s2
    ensures ParentFieldCacheKey(parentTypeName, parentId, fieldName, args, json, Some(s1))
         != ParentFieldCacheKey(parentTypeName, parentId, fieldName, args, json, Some(s2))
  {
    var unscoped := Unscoped(parentTypeName, parentId, fieldName, json(args));
    SessionRoundTrip(s1, unscoped);
    SessionRoundTrip(s2, unscoped);
  }

  /** A session-scoped parent-field key never equals the public one. */
  lemma ScopedParentFieldKeyIsNotPublic(
    parentTypeName: string, parentId: string, fieldName: string,
    args: Record, json: Serializer, s: string)
    requires s != ""
    ensures ParentFieldCacheKey(parentTypeName, parentId, fieldName, args, json, Some(s))
         != ParentFieldCacheKey(parentTypeName, parentId, fieldName, args, json, None)
  {
  }
}
