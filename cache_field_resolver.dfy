/** The earlier revision of the key helpers, kept beside the resolver
    decorator `cacheFieldResolver`. The helpers compute what the current
    revision computes, except that they read `astNode` without a guard and,
    through the `!getKeyFields` test, read `.kind` of a missing `fields`
    argument: those reads throw a TypeError, which is modelled as a
    `Completion`. */
module LegacyResolver {
  import opened Js
  import opened GraphQL
  import opened Types
  import CacheKey

  /** An object type, seen through at most one non-null wrapper, that has no
      definition node: reading `astNode.directives` on it throws. */
  ghost predicate Undescribed(t: OutputType) {
    var u := CacheKey.NodeObject(t);
    u.ObjectType? && u.astNode.None?
  }

  /** `t` is an object type with a definition whose first `@key` directive
      has a `fields` argument, so `keyFields.kind` can be read. */
  ghost predicate HasFieldsArgument(t: OutputType) {
    && t.ObjectType?
    && t.astNode.Some?
    && exists i: nat, j: nat ::
         IsFirstDirective(t.astNode.value, i, "key") && IsFirstArgument(t.astNode.value[i].arguments, j, "fields")
  }

  /** `isNode` without the `astNode?.` guard. */
  function LegacyIsNode(t: OutputType): (r: Completion<bool>)
    ensures r.TypeError? <==> Undescribed(t)
    ensures r.Normal? ==> r.value == CacheKey.IsNode(t)
  {
    var u := CacheKey.NodeObject(t);
    if !u.ObjectType? then Normal(false)
    else if u.astNode.None? then TypeError
    else Normal(FindDirective(u.astNode.value, "key").Some?)
  }

  /** `getKeyFields` as written: `!getKeyFields` is never true, so a missing
      definition, `@key` directive or `fields` argument reaches
      `keyFields.kind` on `undefined`. */
  function LegacyGetKeyFields(t: OutputType): (r: Completion<Option<string>>)
    ensures r.Normal? <==> HasFieldsArgument(t)
    ensures r.Normal? ==> r.value == CacheKey.KeyFields(t)
  {
    if !t.ObjectType? || t.astNode.None? then TypeError
    else
      var ds := t.astNode.value;
      match FindDirective(ds, "key")
      case None => TypeError
      case Some(i) =>
        match FindArgument(ds[i].arguments, "fields")
        case None => TypeError
        case Some(j) =>
          assert IsFirstDirective(ds, i, "key") && IsFirstArgument(ds[i].arguments, j, "fields");
          match ds[i].arguments[j].value
          case StringValue(s) => Normal(Some(s))
          case OtherValue => Normal(None)
  }

  /** `resolveIdForNode` over the unguarded `getKeyFields`. */
  function LegacyResolveIdForNode(returnType: OutputType, fieldName: string, parent: Record, args: Record)
    : (r: Completion<Option<string>>)
    ensures r.Normal? <==> HasFieldsArgument(CacheKey.NodeObject(returnType))
    ensures r.Normal? ==> r.value == CacheKey.ResolveIdForNode(returnType, fieldName, parent, args)
  {
    var keyFields :- LegacyGetKeyFields(CacheKey.NodeObject(returnType));
    match keyFields
    case None => Normal(None)
    case Some(k) =>
      if fieldName == CacheKey.ResolveReference then
        if k in parent && parent[k].Str? then Normal(Some(parent[k].s)) else Normal(None)
      else
        if k in args && args[k].Str? then Normal(Some(args[k].s)) else Normal(None)
  }

  /** `resolveCacheKeyType` over the unguarded `isNode`. */
  function LegacyResolveCacheKeyType(info: ResolveInfo): (r: Completion<CacheKeyType>)
    ensures r.TypeError? <==> Undescribed(info.returnType)
    ensures r.Normal? ==> r.value == CacheKey.ResolveCacheKeyType(info)
  {
    var node :- LegacyIsNode(info.returnType);
    Normal(if node then NodeIdKind else ParentFieldKind)
  }

  /** Looking up a key field of a `@key`-carrying type `t` through the
      definition of `keyed` throws. */
  ghost predicate LookupThrows(t: OutputType, keyed: OutputType) {
    Undescribed(t) || (CacheKey.IsNode(t) && !HasFieldsArgument(keyed))
  }

  /** `resolveId` throws in the branch its key kind selects. The parent-field
      branch reads the definition of the parent type itself, without
      removing a non-null wrapper. */
  ghost predicate ResolveIdThrows(keyType: CacheKeyType, info: ResolveInfo) {
    || (keyType == NodeIdKind && LookupThrows(info.returnType, CacheKey.NodeObject(info.returnType)))
    || (keyType == ParentFieldKind && LookupThrows(info.parentType, info.parentType))
  }

  /** `resolveId`: `isNode` is only evaluated for the matching key kind. */
  function LegacyResolveId(keyType: CacheKeyType, info: ResolveInfo, parent: Record, args: Record): (r: Completion<Ident>)
    ensures r.TypeError? <==> ResolveIdThrows(keyType, info)
    ensures r.Normal? ==> r.value == CacheKey.ResolveId(keyType, info, parent, args)
  {
    if keyType == NodeIdKind then
      var node :- LegacyIsNode(info.returnType);
      if node then
        var id :- LegacyResolveIdForNode(info.returnType, info.fieldName, parent, args);
        Normal(FromNullable(id))
      else Normal(NullIdent)
    else
      var node :- LegacyIsNode(info.parentType);
      if node then
        var keyFields :- LegacyGetKeyFields(info.parentType);
        match keyFields
        case None => Normal(NullIdent)
        case Some(k) =>
          if k in parent && parent[k].Str? then Normal(Get(args, k)) else Normal(NullIdent)
      else Normal(NullIdent)
  }

  /** `resolveCacheKey` throws: through the classification when no key kind
      is forced, or through `resolveId` when no `nodeId` function is set. */
  ghost predicate ResolveCacheKeyThrows(options: KeyOptions, info: ResolveInfo) {
    || (options.cacheKeyType.None? && Undescribed(info.returnType))
    || (options.nodeId.None? && ResolveIdThrows(CacheKey.ChosenKeyType(options, info), info))
  }

  /** `resolveCacheKey` of this revision: whenever it does not throw it
      returns exactly the current revision's key. */
  function LegacyResolveCacheKey(options: KeyOptions, info: ResolveInfo, parent: Record, args: Record, json: Serializer)
    : (r: Completion<Option<string>>)
    ensures r.TypeError? <==> ResolveCacheKeyThrows(options, info)
    ensures r.Normal? ==> r.value == CacheKey.ResolveCacheKey(options, info, parent, args, json)
  {
    var keyType :- match options.cacheKeyType
      case Some(k) => Normal(k)
      case None => LegacyResolveCacheKeyType(info);
    var nodeId :- match options.nodeId
      case Some(f) => Normal(FromNullable(f(parent, args)))
      case None => LegacyResolveId(keyType, info, parent, args);
    if nodeId.IsNull() then Normal(None) else Normal(Some(CacheKey.ComposeKey(keyType, info, nodeId, args, json)))
  }

  /** The revisions agree on every field whose types are fully described:
      no object type lacks its definition, every `@key` directive has a
      `fields` argument, and the parent is not non-null wrapped. */
  lemma AgreesOnDescribedTypes(options: KeyOptions, info: ResolveInfo, parent: Record, args: Record, json: Serializer)
    requires !Undescribed(info.returnType) && !Undescribed(info.parentType)
    requires CacheKey.IsNode(info.returnType) ==> HasFieldsArgument(CacheKey.NodeObject(info.returnType))
    requires CacheKey.IsNode(info.parentType) ==> HasFieldsArgument(info.parentType)
    ensures LegacyResolveCacheKey(options, info, parent, args, json)
         == Normal(CacheKey.ResolveCacheKey(options, info, parent, args, json))
  {
  }

  // ---------------------------------------------------------------------
  // The decorator.

  /** Every `CacheOptions` field except `cacheKey`: the key options, and the
      `cacheHint` and `cache` values as opaque tokens of what the caller
      supplied (none of the modelled code reads them). */
  datatype OptionFields = OptionFields(keyOptions: KeyOptions, cacheHint: Option<nat>, cache: Option<nat>)

  /** The token of the `InMemoryCache` that `defaultOptions` creates. */
  const DefaultCacheToken: nat := 0

  /** `CacheKeyGenerator`: this revision's `resolveCacheKey`, or a generator
      the caller supplies (which may throw). A caller's generator is handed
      every option field but its own `cacheKey`. */
  datatype KeyGenerator =
    | ResolveCacheKeyGenerator
    | CustomGenerator(generate: (OptionFields, ResolveInfo, Record, Record) -> Completion<Option<string>>)

  /** `CacheOptions`: the fields the generator sees, and `cacheKey`, which may
      be missing. */
  datatype LegacyOptions = LegacyOptions(fields: OptionFields, cacheKey: Option<KeyGenerator>)

  /** `defaultOptions` of this file: `resolveCacheKey`, a fresh cache, and no
      key options or cache hint. */
  function DefaultOptions(): (o: LegacyOptions)
    ensures o.cacheKey == Some(ResolveCacheKeyGenerator)
    ensures o.fields.cache == Some(DefaultCacheToken)
    ensures o.fields.keyOptions.cacheKeyType.None? && o.fields.keyOptions.nodeId.None?
    ensures o.fields.cacheHint.None?
  {
    LegacyOptions(OptionFields(NoKeyOptions, None, Some(DefaultCacheToken)), Some(ResolveCacheKeyGenerator))
  }

  /** `GraphQLFieldResolver`: `(parent, args, context, info) => result`. */
  type Resolver<!C, R> = (Record, Record, C, ResolveInfo) -> R

  /** The two argument shapes `[resolver]` and `[options, resolver]`; the
      supplied options may be nullish, in which case `options?.` yields
      `undefined`. */
  datatype FieldResolverArgs<!C, R> =
    | ResolverOnly(resolver: Resolver<C, R>)
    | OptionsAndResolver(options: Option<LegacyOptions>, resolver: Resolver<C, R>)

  /** What the decorated resolver does, in order: log a key, call through. */
  datatype Event<C> =
    | LoggedKey(key: Ident)
    | InvokedResolver(parent: Record, args: Record, context: C, info: ResolveInfo)

  /** The options an argument shape selects. */
  function SelectedOptions<C, R>(fieldArgs: FieldResolverArgs<C, R>): (o: Option<LegacyOptions>)
    ensures fieldArgs.ResolverOnly? ==> o == Some(DefaultOptions())
    ensures fieldArgs.OptionsAndResolver? ==> o == fieldArgs.options
  {
    match fieldArgs
    case ResolverOnly(_) => Some(DefaultOptions())
    case OptionsAndResolver(options, _) => options
  }

  /** `options?.cacheKey(options, info, parent, args)`: `undefined` for
      nullish options, a TypeError when `cacheKey` is missing; a caller's
      generator is applied to the options it was supplied with. */
  function GenerateKey(options: Option<LegacyOptions>, info: ResolveInfo, parent: Record, args: Record, json: Serializer)
    : (r: Completion<Ident>)
    ensures options.None? ==> r == Normal(Undefined)
    ensures options.Some? && options.value.cacheKey.None? ==> r.TypeError?
    ensures options.Some? && options.value.cacheKey == Some(ResolveCacheKeyGenerator) ==>
      && (r.TypeError? <==> ResolveCacheKeyThrows(options.value.fields.keyOptions, info))
      && (r.Normal? ==> r.value == FromNullable(CacheKey.ResolveCacheKey(options.value.fields.keyOptions, info, parent, args, json)))
    ensures options.Some? && options.value.cacheKey.Some? && options.value.cacheKey.value.CustomGenerator? ==>
      var generated := options.value.cacheKey.value.generate(options.value.fields, info, parent, args);
      && (r.TypeError? <==> generated.TypeError?)
      && (r.Normal? ==> r.value == FromNullable(generated.value))
  {
    match options
    case None => Normal(Undefined)
    case Some(o) =>
      match o.cacheKey
      case None => TypeError
      case Some(ResolveCacheKeyGenerator) =>
        var key :- LegacyResolveCacheKey(o.fields.keyOptions, info, parent, args, json);
        Normal(FromNullable(key))
      case Some(CustomGenerator(generate)) =>
        var key :- generate(o.fields, info, parent, args);
        Normal(FromNullable(key))
  }

  /** The resolver `cacheFieldResolver(...cacheFieldArgs)` returns, applied
      to `(parent, args, context, info)`. The key is computed and logged,
      then the wrapped resolver is called once with the same arguments and
      its result returned unchanged; a throwing key generator stops it. */
  method CacheFieldResolver<C(==), R>(fieldArgs: FieldResolverArgs<C, R>, parent: Record, args: Record, context: C,
                                      info: ResolveInfo, json: Serializer)
    returns (result: Completion<R>, trace: seq<Event<C>>)
    ensures result.TypeError? <==> GenerateKey(SelectedOptions(fieldArgs), info, parent, args, json).TypeError?
    ensures result.TypeError? ==> trace == []
    ensures result.Normal? ==>
      && result.value == fieldArgs.resolver(parent, args, context, info)
      && trace == [LoggedKey(GenerateKey(SelectedOptions(fieldArgs), info, parent, args, json).value),
                   InvokedResolver(parent, args, context, info)]
  {
    var options: Option<LegacyOptions> := Some(DefaultOptions());
    var resolver: Resolver<C, R>;
    if fieldArgs.ResolverOnly? {
      resolver := fieldArgs.resolver;
    } else {
      options := fieldArgs.options;
      resolver := fieldArgs.resolver;
    }
    var cacheKey := GenerateKey(options, info, parent, args, json);
    if cacheKey.TypeError? {
      return TypeError, [];
    }
    trace := [LoggedKey(cacheKey.value)];
    var value := resolver(parent, args, context, info);
    trace := trace + [InvokedResolver(parent, args, context, info)];
    result := Normal(value);
  }

  /** The one-argument form logs the current revision's key for a fully
      described field, and never throws there. */
  lemma ResolverOnlyLogsCurrentKey<C, R>(resolver: Resolver<C, R>, info: ResolveInfo, parent: Record, args: Record, json: Serializer)
    requires !Undescribed(info.returnType) && !Undescribed(info.parentType)
    requires CacheKey.IsNode(info.returnType) ==> HasFieldsArgument(CacheKey.NodeObject(info.returnType))
    requires CacheKey.IsNode(info.parentType) ==> HasFieldsArgument(info.parentType)
    ensures GenerateKey(SelectedOptions(ResolverOnly(resolver)), info, parent, args, json)
         == Normal(FromNullable(CacheKey.ResolveCacheKey(NoKeyOptions, info, parent, args, json)))
  {
    AgreesOnDescribedTypes(NoKeyOptions, info, parent, args, json);
  }

  /** A node type whose `@key` directive has no `fields` argument: the
      earlier revision throws where the current one returns no key. */
  lemma KeyWithoutFieldsThrows(parentType: OutputType, fieldName: string, parent: Record, args: Record, json: Serializer)
    ensures var info := ResolveInfo(ObjectType("User", Some([Directive("key", [])])), parentType, fieldName);
      && LegacyResolveCacheKey(NoKeyOptions, info, parent, args, json) == TypeError
      && CacheKey.ResolveCacheKey(NoKeyOptions, info, parent, args, json) == None
  {
    var rt := ObjectType("User", Some([Directive("key", [])]));
    assert FindDirective(rt.astNode.value, "key") == Some(0);
    assert CacheKey.IsNode(rt);
    assert !HasFieldsArgument(rt);
  }
}
