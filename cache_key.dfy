/** Cache-key derivation: classifies a field as keyed by its own node id or by
    its parent's id, picks that id, and renders the key string. */
module CacheKey {
  import opened Js
  import opened GraphQL
  import opened Types
  import NodeIdKey
  import ParentFieldKey

  /** The reference-resolution entry point of a federated node type. */
  const ResolveReference: string := "__resolveReference"

  /** `getNodeObject`: removes one non-null wrapper, if there is one. */
  function NodeObject(t: OutputType): (u: OutputType)
    ensures if t.NonNullType? then t == NonNullType(u) else u == t
  {
    if t.NonNullType? then t.ofType else t
  }

  /** `t`, seen through at most one non-null wrapper, is an object type whose
      definition carries some `@key` directive. */
  ghost predicate HasKeyDirective(t: OutputType) {
    var u := NodeObject(t);
    && u.ObjectType?
    && u.astNode.Some?
    && exists i :: 0 <= i < |u.astNode.value| && u.astNode.value[i].name == "key"
  }

  /** `t` is an object type whose first `@key` directive has as its first
      `fields` argument the string `field`. */
  ghost predicate DeclaresKeyField(t: OutputType, field: string) {
    && t.ObjectType?
    && t.astNode.Some?
    && exists i: nat, j: nat ::
         && IsFirstDirective(t.astNode.value, i, "key")
         && IsFirstArgument(t.astNode.value[i].arguments, j, "fields")
         && t.astNode.value[i].arguments[j].value == StringValue(field)
  }

  /** `isNode`. */
  function IsNode(t: OutputType): (b: bool)
    ensures b <==> HasKeyDirective(t)
  {
    var u := NodeObject(t);
    if u.ObjectType? && u.astNode.Some? then
      var found := FindDirective(u.astNode.value, "key");
      assert found.Some? ==> u.astNode.value[found.value].name == "key";
      found.Some?
    else
      false
  }

  /** `getKeyFields`: the identifying field named by the first `@key`, or
      null when the definition, the directive or its `fields` argument is
      missing or the argument is not a string. */
  function KeyFields(t: OutputType): (r: Option<string>)
    ensures forall field :: DeclaresKeyField(t, field) <==> r == Some(field)
  {
    if !t.ObjectType? || t.astNode.None? then None
    else
      var ds := t.astNode.value;
      match FindDirective(ds, "key")
      case None => None
      case Some(i) =>
        match FindArgument(ds[i].arguments, "fields")
        case None => None
        case Some(j) =>
          match ds[i].arguments[j].value
          case StringValue(s) => Some(s)
          case OtherValue => None
  }

  /** `resolveIdForNode`: the node's key field read, as a string, from the
      parent for `__resolveReference` and from the arguments otherwise. */
  function ResolveIdForNode(returnType: OutputType, fieldName: string, parent: Record, args: Record): (r: Option<string>)
    ensures var source := if fieldName == ResolveReference then parent else args;
      && (r.Some? ==> exists field ::
            DeclaresKeyField(NodeObject(returnType), field) && field in source && source[field] == Str(r.value))
      && (r.None? ==> forall field ::
            DeclaresKeyField(NodeObject(returnType), field) ==> !(field in source && source[field].Str?))
  {
    match KeyFields(NodeObject(returnType))
    case None => None
    case Some(keyFields) =>
      if fieldName == ResolveReference then
        if keyFields in parent && parent[keyFields].Str? then Some(parent[keyFields].s) else None
      else
        if keyFields in args && args[keyFields].Str? then Some(args[keyFields].s) else None
  }

  /** `resolveCacheKeyType`: node-id exactly for node return types. */
  function ResolveCacheKeyType(info: ResolveInfo): (k: CacheKeyType)
    ensures k == NodeIdKind <==> HasKeyDirective(info.returnType)
    ensures k == ParentFieldKind <==> !HasKeyDirective(info.returnType)
  {
    if IsNode(info.returnType) then NodeIdKind else ParentFieldKind
  }

  /** `resolveId`. In the parent-field case the source checks the parent's
      key field but returns the arguments' property of that name, which is
      `undefined` when the arguments lack it; that is modelled as written. */
  function ResolveId(keyType: CacheKeyType, info: ResolveInfo, parent: Record, args: Record): (r: Ident)
    ensures keyType == NodeIdKind && IsNode(info.returnType) ==>
      r == FromNullable(ResolveIdForNode(info.returnType, info.fieldName, parent, args))
    ensures keyType == ParentFieldKind && IsNode(info.parentType) ==>
      forall field :: DeclaresKeyField(info.parentType, field) && field in parent && parent[field].Str? ==>
        r == Get(args, field)
    ensures !r.IsNull() ==>
      || (keyType == NodeIdKind && IsNode(info.returnType))
      || (keyType == ParentFieldKind && IsNode(info.parentType)
          && exists field :: DeclaresKeyField(info.parentType, field) && field in parent && parent[field].Str?)
  {
    if keyType == NodeIdKind && IsNode(info.returnType) then
      FromNullable(ResolveIdForNode(info.returnType, info.fieldName, parent, args))
    else if keyType == ParentFieldKind && IsNode(info.parentType) then
      match KeyFields(info.parentType)
      case None => NullIdent
      case Some(keyFields) =>
        if keyFields in parent && parent[keyFields].Str? then Get(args, keyFields) else NullIdent
    else
      NullIdent
  }

  /** `options.cacheKeyType || resolveCacheKeyType(info)`: a forced kind
      wins, otherwise node-id exactly for node return types. */
  function ChosenKeyType(options: KeyOptions, info: ResolveInfo): (k: CacheKeyType)
    ensures options.cacheKeyType.Some? ==> k == options.cacheKeyType.value
    ensures options.cacheKeyType.None? ==> (k == NodeIdKind <==> HasKeyDirective(info.returnType))
  {
    options.cacheKeyType.GetOr(ResolveCacheKeyType(info))
  }

  /** The id `resolveCacheKey` uses: the `nodeId` option's result when that
      option is a function, otherwise `resolveId`'s. */
  function ChosenId(options: KeyOptions, info: ResolveInfo, parent: Record, args: Record): (id: Ident)
    ensures options.nodeId.Some? ==>
      && (id.IsNull() <==> options.nodeId.value(parent, args).None?)
      && (!id.IsNull() ==> id == Defined(Str(options.nodeId.value(parent, args).value)))
    ensures options.nodeId.None? ==> id == ResolveId(ChosenKeyType(options, info), info, parent, args)
  {
    match options.nodeId
    case Some(nodeId) => FromNullable(nodeId(parent, args))
    case None => ResolveId(ChosenKeyType(options, info), info, parent, args)
  }

  /** The key string for a non-null id, in the chosen format: the node-id
      key names the return type with up to two wrappers removed, the
      parent-field key names the parent type with one removed; neither is
      session scoped. */
  function ComposeKey(keyType: CacheKeyType, info: ResolveInfo, id: Ident, args: Record, json: Serializer): (key: string)
    ensures keyType == NodeIdKind ==>
      key == NodeIdKey.NodeIdCacheKey(NameOf(NodeObject(NodeObject(info.returnType))), Render(id), None)
    ensures keyType == ParentFieldKind ==>
      key == ParentFieldKey.ParentFieldCacheKey(NameOf(NodeObject(info.parentType)), Render(id), info.fieldName, args, json, None)
  {
    if keyType == NodeIdKind then
      NameOf(NodeObject(NodeObject(info.returnType))) + "." + Render(id)
    else
      NameOf(NodeObject(info.parentType)) + "{" + Render(id) + "}." + info.fieldName + "(" + json(args) + ")"
  }

  /** `resolveCacheKey(options, info, parent, args)`. */
  function ResolveCacheKey(options: KeyOptions, info: ResolveInfo, parent: Record, args: Record, json: Serializer): (r: Option<string>)
    // No key exactly when the chosen id is null.
    ensures r.None? <==> ChosenId(options, info, parent, args).IsNull()
    // Otherwise the key is the one the format builders make without a session.
    ensures r.Some? && ChosenKeyType(options, info) == NodeIdKind ==>
      r.value == NodeIdKey.NodeIdCacheKey(
        NameOf(NodeObject(NodeObject(info.returnType))), Render(ChosenId(options, info, parent, args)), None)
    ensures r.Some? && ChosenKeyType(options, info) == ParentFieldKind ==>
      r.value == ParentFieldKey.ParentFieldCacheKey(
        NameOf(NodeObject(info.parentType)), Render(ChosenId(options, info, parent, args)),
        info.fieldName, args, json, None)
  {
    var keyType := ChosenKeyType(options, info);
    var nodeId := ChosenId(options, info, parent, args);
    if nodeId.IsNull() then None else Some(ComposeKey(keyType, info, nodeId, args, json))
  }

  // ---------------------------------------------------------------------
  // Properties of the classification and of the key.

  /** `isNode` looks through exactly one non-null wrapper, and scalars are
      never nodes. */
  lemma IsNodeStripsOneWrapper(t: OutputType)
    ensures IsNode(NonNullType(t)) <==> !t.NonNullType? && IsNode(t)
    ensures t.ScalarType? ==> !IsNode(t) && !IsNode(NonNullType(t))
    ensures t.ObjectType? && t.astNode.None? ==> !IsNode(t)
  {
  }

  /** `getNodeObject` on a node yields the object type carrying the `@key`
      directive, and leaves an unwrapped type as it is. */
  lemma NodeObjectOfNode(t: OutputType)
    ensures IsNode(t) ==> NodeObject(t).ObjectType? && IsNode(NodeObject(t))
    ensures !t.NonNullType? ==> NodeObject(t) == t
    ensures NodeObject(NonNullType(t)) == t
  {
  }

  /** An object type that declares a key field is a node. */
  lemma {:induction false} KeyFieldMakesNode(t: OutputType)
    requires KeyFields(t).Some?
    ensures IsNode(t)
  {
    var field := KeyFields(t).value;
    assert DeclaresKeyField(t, field);
    var i: nat, j: nat :| IsFirstDirective(t.astNode.value, i, "key")
      && IsFirstArgument(t.astNode.value[i].arguments, j, "fields")
      && t.astNode.value[i].arguments[j].value == StringValue(field);
    assert NodeObject(t) == t;
    var ds := t.astNode.value;
    assert 0 <= i < |ds| && ds[i].name == "key";
    assert exists k :: 0 <= k < |ds| && ds[k].name == "key";
  }

  /** The first `@key` directive wins over later ones. */
  lemma FirstKeyDirectiveWins(name: string, first: string, second: string, rest: seq<Directive>)
    ensures KeyFields(ObjectType(name, Some([Directive("key", [Argument("fields", StringValue(first))]),
                                             Directive("key", [Argument("fields", StringValue(second))])] + rest)))
         == Some(first)
  {
  }

  /** The key derivation is a node-id key on the argument's id for a node
      return type reached other than by `__resolveReference`, with no
      options set. */
  lemma NodeKeyFromArguments(info: ResolveInfo, parent: Record, args: Record, json: Serializer, field: string, id: string)
    requires IsNode(info.returnType) && info.fieldName != ResolveReference
    requires DeclaresKeyField(NodeObject(info.returnType), field)
    requires field in args && args[field] == Str(id)
    ensures ResolveCacheKey(NoKeyOptions, info, parent, args, json)
         == Some(NameOf(NodeObject(info.returnType)) + "." + id)
  {
    assert KeyFields(NodeObject(info.returnType)) == Some(field);
  }

  /** Under `__resolveReference` the id comes from the parent, whatever the
      arguments carry. */
  lemma NodeKeyFromParentOnReference(info: ResolveInfo, parent: Record, args: Record, json: Serializer, field: string, id: string)
    requires IsNode(info.returnType) && info.fieldName == ResolveReference
    requires DeclaresKeyField(NodeObject(info.returnType), field)
    requires field in parent && parent[field] == Str(id)
    ensures ResolveCacheKey(NoKeyOptions, info, parent, args, json)
         == Some(NameOf(NodeObject(info.returnType)) + "." + id)
  {
    assert KeyFields(NodeObject(info.returnType)) == Some(field);
  }

  /** Without a `nodeId` option, a field whose return type and parent type
      are both not nodes never gets a key, whatever `cacheKeyType` says. */
  lemma NoNodeNoKey(options: KeyOptions, info: ResolveInfo, parent: Record, args: Record, json: Serializer)
    requires options.nodeId.None?
    requires !IsNode(info.returnType) && !IsNode(info.parentType)
    ensures ResolveCacheKey(options, info, parent, args, json).None?
  {
  }

  /** The `nodeId` option is not gated on the type being a node: it yields a
      parent-field key even when neither type is a node. */
  lemma OverrideIsNotGated(info: ResolveInfo, parent: Record, args: Record, json: Serializer,
                           nodeId: (Record, Record) -> Option<string>, id: string)
    requires !IsNode(info.returnType) && !IsNode(info.parentType)
    requires nodeId(parent, args) == Some(id)
    ensures ResolveCacheKey(KeyOptions(None, Some(nodeId)), info, parent, args, json)
         == Some(NameOf(NodeObject(info.parentType)) + "{" + id + "}." + info.fieldName + "(" + json(args) + ")")
  {
  }

  /** A forced `cacheKeyType` replaces the automatic classification. */
  lemma ForcedKeyTypeWins(keyType: CacheKeyType, nodeId: Option<(Record, Record) -> Option<string>>,
                          info: ResolveInfo, parent: Record, args: Record, json: Serializer)
    ensures ChosenKeyType(KeyOptions(Some(keyType), nodeId), info) == keyType
    ensures nodeId.None? ==>
      ChosenId(KeyOptions(Some(keyType), nodeId), info, parent, args) == ResolveId(keyType, info, parent, args)
  {
  }

  /** The parent-field id is read from the arguments: a node parent that
      carries its id, with arguments that do not, yields a key containing
      `undefined`. */
  lemma ParentFieldIdComesFromArguments(parentName: string, returnType: OutputType, fieldName: string, id: string, json: Serializer)
    requires !IsNode(returnType)
    ensures var parentType := ObjectType(parentName, Some([Directive("key", [Argument("fields", StringValue("id"))])]));
      ResolveCacheKey(NoKeyOptions, ResolveInfo(returnType, parentType, fieldName), map["id" := Str(id)], map[], json)
        == Some(parentName + "{undefined}." + fieldName + "(" + json(map[]) + ")")
  {
    var parentType := ObjectType(parentName, Some([Directive("key", [Argument("fields", StringValue("id"))])]));
    var info := ResolveInfo(returnType, parentType, fieldName);
    var parent: Record := map["id" := Str(id)];
    var args: Record := map[];
    assert FindDirective(parentType.astNode.value, "key") == Some(0);
    assert KeyFields(parentType) == Some("id");
    assert IsNode(parentType);
    assert ChosenKeyType(NoKeyOptions, info) == ParentFieldKind;
    assert ResolveId(ParentFieldKind, info, parent, args) == Undefined;
    assert ComposeKey(ParentFieldKind, info, Undefined, args, json)
        == parentName + "{" + "undefined" + "}." + fieldName + "(" + json(args) + ")";
    assert parentName + "{" + "undefined" + "}." == parentName + "{undefined}.";
  }

  /** The node-id key names the return type through two wrappers, but the
      parent-field key removes only one, so a doubly wrapped parent is
      named `undefined`. */
  lemma NameAfterUnwrapping(keyType: CacheKeyType, name: string, astNode: Option<seq<Directive>>, fieldName: string,
                            parent: Record, args: Record, json: Serializer, nodeId: (Record, Record) -> Option<string>, id: string)
    requires nodeId(parent, args) == Some(id)
    ensures var t := NonNullType(NonNullType(ObjectType(name, astNode)));
      && ResolveCacheKey(KeyOptions(Some(NodeIdKind), Some(nodeId)), ResolveInfo(t, t, fieldName), parent, args, json)
         == Some(name + "." + id)
      && ResolveCacheKey(KeyOptions(Some(ParentFieldKind), Some(nodeId)), ResolveInfo(t, t, fieldName), parent, args, json)
         == Some("undefined{" + id + "}." + fieldName + "(" + json(args) + ")")
  {
    var t := NonNullType(NonNullType(ObjectType(name, astNode)));
    var info := ResolveInfo(t, t, fieldName);
    assert ChosenId(KeyOptions(Some(ParentFieldKind), Some(nodeId)), info, parent, args) == Defined(Str(id));
    assert ComposeKey(ParentFieldKind, info, Defined(Str(id)), args, json)
        == "undefined" + "{" + id + "}." + fieldName + "(" + json(args) + ")";
    assert "undefined" + "{" + id == "undefined{" + id;
  }

  /** A non-null-wrapped parent type has no readable definition, so a
      parent-field key is never derived from it. */
  lemma WrappedParentHasNoKeyField(info: ResolveInfo, parent: Record, args: Record)
    requires info.parentType.NonNullType?
    ensures ResolveId(ParentFieldKind, info, parent, args).IsNull()
  {
  }
}
