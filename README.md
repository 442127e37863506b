# apollo-cache-field-resolver, modelled in Dafny

apollo-cache-field-resolver is a caching layer for GraphQL field resolvers.
For each resolved field it derives a cache key, in one of two formats:

- **node-id**: `Type.id`, for fields that return a federated node. A node is an object type, possibly NonNull-wrapped, carrying a `@key` directive, with or without a `fields` argument.
- **parent-field**: `Parent{id}.field(argsJSON)`, for fields hanging off a node parent.

Either format can be scoped to a session with a `<sid>` prefix. The package also ships a process-local key/value cache with lazy expiry (in two revisions) and a mutable registry of default options. An earlier revision of the key helpers sits beside the resolver decorator `cacheFieldResolver`.

The Dafny modules follow the source files:

| module | file | source |
|---|---|---|
| `Js` | js.dfy | JavaScript values the code observes: `null`, `undefined`, thrown TypeErrors, plain objects |
| `GraphQL` | graphql.dfy | the parts of GraphQL output types and resolve info that are read |
| `Types` | types.dfy | `CacheKeyType` and the key options of `src/types.ts` |
| `KeyPrefix` | key_prefix.dfy | the `<session>` prefix template both key builders begin with |
| `NodeIdKey` | node_id_cache_key.dfy | `src/node-id-cache-key.ts` |
| `ParentFieldKey` | parent_field_cache_key.dfy | `src/parent-field-cache-key.ts` |
| `Session` | session.dfy | `src/session.ts` |
| `CacheKey` | cache_key.dfy | `src/cache-key.ts` |
| `Store` | store.dfy | the map semantics both `InMemoryCache` revisions share |
| `MemoryCache` | in_memory_cache.dfy | `src/in-memory-cache.ts` |
| `Cache` | cache.dfy | `InMemoryCache` of `src/cache.ts` |
| `Options` | options.dfy | `src/options.ts` |
| `LegacyResolver` | cache_field_resolver.dfy | `src/cache-field-resolver.ts` |

The pure parts (key derivation, key formats, session decision) are datatypes and functions. The two caches and the options registry are classes:

- Each cache has a `map` field, reassigned by its methods. Each method is tied to a specification function of `Store` or `Options`, and the properties are proved about those functions.
- `cacheFieldResolver` is a method. It reassigns its locals `options` and `resolver` by argument shape and returns the wrapped resolver's result together with the trace of what it did.

JavaScript behaviour that decides a result is written out:

- A property read of an absent key yields `undefined` (`Js.Get`), and `undefined` is not `=== null`.
- A template literal renders `undefined` as the text `undefined` (`Js.Render`).
- A non-null wrapper has no `name` (`GraphQL.NameOf`). The node-id key applies `getNodeObject` twice and so names even a doubly wrapped return type. The parent-field key applies it once, so a doubly wrapped parent type is named `undefined` (`CacheKey.NameAfterUnwrapping`).
- Reading a property of `undefined` throws a TypeError (`Js.Completion`).

`JSON.stringify` is a parameter `json` of every operation that needs it. `Date.now()` is a parameter `now`.

There are three points where the code and its tests disagree, and the model follows the code in each; "## Left out" lists all three. The first is in `resolveId`'s parent-field branch: the parent's key field is checked, but the id is taken from the *arguments*. When the arguments lack that field, the key contains `{undefined}` (`CacheKey.ParentFieldIdComesFromArguments`). The other two are the ungated `nodeId` override and the missing session parameter.

## Model

| member | source | states |
|---|---|---|
| GraphQL.FindDirective | src/cache-key.ts:30-31 | `directives.find` by name: returns the index of the first directive of that name, and nothing exactly when no directive has it |
| GraphQL.FindArgument | src/cache-key.ts:31-32 | `arguments.find` by name: returns the index of the first argument of that name, and nothing exactly when no argument has it |
| CacheKey.IsNode | src/cache-key.ts:15-21 | true iff the type, after removing at most one NonNull, is an object type whose definition carries some `@key` directive |
| CacheKey.NodeObject | src/cache-key.ts:23-27 | `getNodeObject`: a NonNull type is the wrapper of the result; any other type is returned as it is |
| CacheKey.NodeObjectOfNode | src/cache-key.ts:23-27 | `getNodeObject` removes exactly one wrapper, leaves an unwrapped type alone, and maps a node to the object type that carries the `@key` |
| CacheKey.KeyFields | src/cache-key.ts:29-36 | for every name f: the result is f iff the first `@key` directive's first `fields` argument is the string f; otherwise null, including a missing definition, directive or argument, or a non-string value |
| CacheKey.ResolveIdForNode | src/cache-key.ts:38-58 | a non-null id is a string stored under the declared key field, read from `parent` for `__resolveReference` and from `args` otherwise; null when no declared key field holds a string there |
| CacheKey.ResolveCacheKeyType | src/cache-key.ts:60-65 | `node-id` iff the return type is a node, `parent-field` otherwise |
| CacheKey.ResolveId | src/cache-key.ts:67-89 | for node-id on a node return type, the node's id. For parent-field on a node parent whose key field holds a string in `parent`, the id is `args[keyField]` (possibly `undefined`). Under any other condition it is null |
| CacheKey.ResolveCacheKey | src/cache-key.ts:91-122 | null exactly when the chosen id (the `nodeId` option if set, else `resolveId`) is null. Otherwise the key equals `nodeIdCacheKey` or `parentFieldCacheKey` with no session, as the chosen key kind says |
| CacheKey.ChosenKeyType | src/cache-key.ts:99 | a set `cacheKeyType` is used as it is; otherwise the kind is node-id exactly when the return type is a node |
| CacheKey.ChosenId | src/cache-key.ts:100-102 | with a `nodeId` function, the id is null exactly when that function returns null, and is its string otherwise; without one, it is `resolveId` of the chosen kind |
| CacheKey.ComposeKey | src/cache-key.ts:107-121 | the node-id key is `nodeIdCacheKey` of the return type's name (two wrappers removed) with no session; the parent-field key is `parentFieldCacheKey` of the parent type's name (one wrapper removed) with no session |
| CacheKey.NameAfterUnwrapping | src/cache-key.ts:107-121 | for a doubly wrapped type with a `nodeId` override, the node-id key is `T.id` while the parent-field key is `undefined{id}.field(json)` |
| CacheKey.IsNodeStripsOneWrapper | src/cache-key.ts:15-21 | a NonNull-wrapped type is a node iff the wrapped type is an unwrapped node; scalars and object types without a definition are never nodes |
| CacheKey.KeyFieldMakesNode | src/cache-key.ts:15-36 | an object type that declares a key field is a node |
| CacheKey.FirstKeyDirectiveWins | src/cache-key.ts:29-32 | with two `@key` directives, the first one's `fields` is used |
| CacheKey.NodeKeyFromArguments | src/cache-key.ts:99-111 | with no options, a node return type reached other than by `__resolveReference` is keyed `Type.id`, where id is the argument named by the key field |
| CacheKey.NodeKeyFromParentOnReference | src/cache-key.ts:99-111 | under `__resolveReference`, the id in `Type.id` comes from the parent |
| CacheKey.NoNodeNoKey | src/cache-key.ts:67-105 | without a `nodeId` function, a field whose return and parent types are both not nodes gets no key, whatever `cacheKeyType` says |
| CacheKey.OverrideIsNotGated | src/cache-key.ts:99-102 | a `nodeId` function yields a parent-field key even when neither type is a node |
| CacheKey.ForcedKeyTypeWins | src/cache-key.ts:99-102 | a set `cacheKeyType` replaces the automatic classification, and without `nodeId` the id is `resolveId` of that kind |
| CacheKey.ParentFieldIdComesFromArguments | src/cache-key.ts:80-85 | a node parent carrying its id, with arguments that lack it, gives the key `Parent{undefined}.field(json)` |
| CacheKey.WrappedParentHasNoKeyField | src/cache-key.ts:80-83 | a NonNull-wrapped parent type yields a null parent-field id |
| KeyPrefix.SessionPrefix | src/node-id-cache-key.ts:5 | the prefix is empty iff the session id is null or empty; otherwise it is `"<" + sid + ">"` |
| NodeIdKey.NodeIdCacheKey | src/node-id-cache-key.ts:1-5 | `name.id` for a null or empty session, `<sid>` followed by that otherwise; every key ends with `.id` |
| NodeIdKey.NodeIdRoundTrip | src/node-id-cache-key.ts:5 | the id can be read back from its key |
| NodeIdKey.NodeIdKeyInjective | src/node-id-cache-key.ts:5 | for a fixed type and session, distinct ids give distinct keys |
| NodeIdKey.SessionsIsolateNodeKeys | src/node-id-cache-key.ts:5 | distinct non-empty sessions give distinct keys for the same node |
| NodeIdKey.ScopedNodeKeyIsNotPublic | src/node-id-cache-key.ts:5 | a session-scoped key never equals the unscoped one |
| ParentFieldKey.ParentFieldCacheKey | src/parent-field-cache-key.ts:1-12 | `P{id}.f(json)` for a null or empty session, `<sid>` followed by that otherwise; every key ends with `(json)` |
| ParentFieldKey.ArgumentsRoundTrip | src/parent-field-cache-key.ts:10-12 | the argument serialisation can be read back from the key |
| ParentFieldKey.FieldNameRoundTrip | src/parent-field-cache-key.ts:10-12 | the field name can be read back from the key |
| ParentFieldKey.ArgumentsSeparateKeys | src/parent-field-cache-key.ts:7-12 | with everything else fixed, distinct argument serialisations give distinct keys |
| ParentFieldKey.FieldNamesSeparateKeys | src/parent-field-cache-key.ts:7-12 | with everything else fixed, distinct field names give distinct keys |
| ParentFieldKey.SessionsIsolateParentFieldKeys | src/parent-field-cache-key.ts:7-9 | distinct non-empty sessions give distinct keys |
| ParentFieldKey.ScopedParentFieldKeyIsNotPublic | src/parent-field-cache-key.ts:7-9 | a session-scoped key never equals the unscoped one |
| Session.GenerateSessionId | src/session.ts:4-18 | null unless the scope is PRIVATE; null for an absent, null or empty source; under PRIVATE a non-empty literal is returned unchanged, and a function is applied to the context with its result returned unchecked |
| Session.LiteralIgnoresContext | src/session.ts:15-17 | a literal session id does not depend on the context |
| Session.LiteralSessionIsNonEmpty | src/session.ts:14-17 | a literal source never yields the empty session id |
| Store.Fetch | src/in-memory-cache.ts:9-18 | a value is returned iff the key is present with expiry strictly after `now`, and it is the stored value |
| Store.AfterFetch | src/in-memory-cache.ts:9-18 | an expired entry for the key is evicted; a live or absent entry leaves the map unchanged; other keys are unchanged |
| Store.Put | src/in-memory-cache.ts:26-28 | the key maps to the new value and expiry, overwriting; other keys are unchanged |
| Store.Remove | src/in-memory-cache.ts:33-35 | only the key is removed; removing an absent key changes nothing |
| Store.FetchChangesOnlyExpired | src/in-memory-cache.ts:9-18 | a successful get, or a get of an absent key, leaves the map unchanged |
| Store.PutThenFetch | src/in-memory-cache.ts:9-28 | a put value is fetched back strictly before its expiry; from then on it is absent and the read evicts it |
| Store.OtherKeysUnaffected | src/in-memory-cache.ts:26-35 | setting or deleting one key does not change what another key reads |
| Store.RemoveThenFetch | src/in-memory-cache.ts:9-35 | a deleted key reads as absent |
| MemoryCache.ExpiryAt | src/in-memory-cache.ts:27 | an entry set at `now` lives `ttl * 1000` milliseconds, and is expired at once when the ttl is zero or less |
| MemoryCache.InMemoryCache.constructor | src/in-memory-cache.ts:4 | the cache starts empty |
| MemoryCache.InMemoryCache.Get | src/in-memory-cache.ts:9-18 | returns `Fetch` of the old map; the new map is `AfterFetch` of it |
| MemoryCache.InMemoryCache.Set | src/in-memory-cache.ts:26-28 | the new map is the old one with `(value, now + ttl*1000)` stored for the key |
| MemoryCache.InMemoryCache.Delete | src/in-memory-cache.ts:33-35 | the new map is the old one without the key |
| MemoryCache.SetThenGet | src/in-memory-cache.ts:9-28 | after `set(k, v, ttl)` at t, `get(k)` at t' returns v when t' < t + ttl*1000, and k then holds `Entry(v, t + ttl*1000)`; otherwise it returns null and evicts k; other keys are unchanged |
| MemoryCache.SetThenGetRoundTrip | src/in-memory-cache.ts:9-28 | the same round trip, stated on the map functions |
| MemoryCache.TenSecondEntry | tests/in-memory-cache.spec.ts:37-50 | a 10 s entry set at 0 is read back at 0 and is absent at 15000 ms (absent is `null` in the source) |
| Cache.ExpiryAt | src/cache.ts:34 | an entry set at `now` lives `ttl` milliseconds, unscaled, and is expired at once when the ttl is zero or less |
| Cache.InMemoryCache.constructor | src/cache.ts:11 | the cache starts empty |
| Cache.InMemoryCache.Get | src/cache.ts:16-25 | returns `Fetch` of the old map; the new map is `AfterFetch` of it |
| Cache.InMemoryCache.Set | src/cache.ts:33-35 | the new map is the old one with `(value, now + ttl)` stored for the key, the ttl unscaled |
| Cache.InMemoryCache.Delete | src/cache.ts:40-42 | the new map is the old one without the key |
| Cache.SetThenGet | src/cache.ts:16-35 | after `set(k, v, ttl)` at t, `get(k)` at t' returns v when t' < t + ttl, and k then holds `Entry(v, t + ttl)`; otherwise it returns null and evicts k; other keys are unchanged |
| Cache.TenSecondEntryExpiresInMilliseconds | src/cache.ts:27-35 | an entry set for a documented 10 seconds at 0 is gone at 15 ms, where the later revision still returns it |
| Cache.ExpiresEarlierThanSeconds | src/cache.ts:33-35 | for every positive ttl, this revision's expiry is earlier than the seconds-scaled one |
| Options.Initial | src/options.ts:6-11 | the registry holds exactly `cacheKey`, `cache`, `cacheNull = false` and `logger` |
| Options.Assigned | src/options.ts:17-22 | the option maps to the value whether or not it was present; other options are unchanged |
| Options.Appended | src/options.ts:28-34 | no change when the option is present; otherwise it is added with the value; other options are unchanged |
| Options.Cleared | src/options.ts:40-45 | the option is gone; no change when it was absent; other options are unchanged |
| Options.Idempotent | src/options.ts:28-45 | appending twice is appending once, and clearing twice is clearing once |
| Options.ClearThenAppendIsSet | src/options.ts:17-45 | clear followed by append has the effect of set |
| Options.AppendKeepsDefaults | src/options.ts:6-34 | appending an option the defaults already hold leaves the defaults unchanged |
| Options.DefaultOptions.constructor | src/options.ts:6-11 | the registry starts as `Initial()` |
| Options.DefaultOptions.SetDefaultOption | src/options.ts:17-22 | the new registry is `Assigned` of the old |
| Options.DefaultOptions.AppendDefaultOption | src/options.ts:28-34 | the new registry is `Appended` of the old |
| Options.DefaultOptions.ClearDefaultOption | src/options.ts:40-45 | the new registry is `Cleared` of the old |
| Options.ClearThenAppend | src/options.ts:17-45 | on the registry object, clearing then appending an option sets it |
| LegacyResolver.LegacyIsNode | src/cache-field-resolver.ts:17-24 | throws exactly for an object type without a definition; otherwise agrees with the current `isNode` |
| LegacyResolver.LegacyGetKeyFields | src/cache-field-resolver.ts:29-35 | returns normally exactly when the first `@key` has a `fields` argument, and then agrees with the current `getKeyFields`; otherwise throws |
| LegacyResolver.LegacyResolveIdForNode | src/cache-field-resolver.ts:36-55 | returns normally exactly when the node's key directive has a `fields` argument, and then agrees with the current `resolveIdForNode` |
| LegacyResolver.LegacyResolveCacheKeyType | src/cache-field-resolver.ts:57-61 | throws exactly for an undescribed return type; otherwise agrees with the current classification |
| LegacyResolver.LegacyResolveId | src/cache-field-resolver.ts:63-84 | throws exactly when the branch its key kind selects reads a missing definition or `fields` argument (including a NonNull parent); otherwise agrees with the current `resolveId` |
| LegacyResolver.LegacyResolveCacheKey | src/cache-field-resolver.ts:86-114 | throws exactly under those conditions for the options in force; otherwise returns the current revision's key (same override, null propagation and formats) |
| LegacyResolver.AgreesOnDescribedTypes | src/cache-field-resolver.ts:86-114 | on fully described types the two revisions compute the same key |
| LegacyResolver.DefaultOptions | src/cache-field-resolver.ts:117-120 | `defaultOptions`: the built-in `resolveCacheKey` generator, the token of a fresh cache, no key options and no cache hint |
| LegacyResolver.SelectedOptions | src/cache-field-resolver.ts:131-138 | the one-argument form selects `defaultOptions`, the two-argument form the supplied options |
| LegacyResolver.GenerateKey | src/cache-field-resolver.ts:140 | nullish options give `undefined`; a missing `cacheKey` throws; the built-in generator throws or yields the current key as the legacy helpers do; a custom generator is applied to the supplied options (all fields but `cacheKey`), and its outcome is passed through |
| LegacyResolver.CacheFieldResolver | src/cache-field-resolver.ts:122-144 | throws exactly when key generation throws, with nothing done. Otherwise it logs the key, calls the selected resolver once with the original `(parent, args, context, info)`, and returns its result unchanged |
| LegacyResolver.ResolverOnlyLogsCurrentKey | src/cache-field-resolver.ts:117-120 | the one-argument form computes the current revision's key with no options on described types |
| LegacyResolver.KeyWithoutFieldsThrows | src/cache-field-resolver.ts:29-35 | a node whose `@key` has no `fields` argument makes this revision throw where the current one gives no key |

## Left out

- `RedisKeyValueCache` (src/cache.ts:45-93 and src/redis-key-value-cache.ts): a network client that only forwards to Redis with JSON encoding.
- The `KeyValueCache` interface (src/cache.ts:4-8): both `InMemoryCache` classes share its `Get`/`Set`/`Delete` signatures. There is no common interface type, and `ValueOrPromise` is not modelled.
- src/cache-reference-resolver.ts and src/index.ts are not part of this model. They hold an async adapter and re-exports.
- `JSON.stringify` is the parameter `json`, a function of the arguments as an unordered map. This assumes that arguments with equal contents serialise equally. The real `JSON.stringify` follows property insertion order, so two argument objects with the same properties in a different order can give different keys. Key distinctness is stated only for distinct serialisations.
- List types (`[User]`) and other wrappers than NonNull are not in `OutputType`. In the source, a `GraphQLList` has no `name`, so a forced node-id kind with a `nodeId` override renders `undefined.<id>` for a list return type. The model does not capture that case.
- `Date.now()` is the parameter `now`. Times and ttls are unbounded integers: floating-point time, `Infinity` and overflow are not modelled.
- Numeric `nodeId`/`parentId` values: ids are strings, and a number's rendering is not modelled.
- Property reads see own properties only. Keys inherited from `Object.prototype` (`"toString" in parent`) are not modelled.
- A scalar type is taken to have no definition node, so it never carries `@key`.
- `console.log` of the key is a `LoggedKey` event in the returned trace. The `logger` default is a token.
- Option values (the key generator, the cache object, the logger, caller-supplied values) are opaque tokens in `Options`.
- The `cache` and `cacheHint` options appear only as opaque entries: `Options.Initial` holds the default cache as a token, and `LegacyResolver.OptionFields` carries both as tokens handed to a caller's key generator. No modelled file reads them.
- The cache-aside hit/miss/store decision, the `cacheNull` policy and max-age gating: none of the modelled files implements them.
- Exceptions thrown by caller-supplied callbacks are not modelled: the wrapped resolver, the `options.nodeId` function (src/cache-key.ts:101, src/cache-field-resolver.ts:94; `Types.KeyOptions.nodeId`) and a function-valued `sessionId` (src/session.ts:16; `Session.SessionSource.PerContext`) are total Dafny functions. In the source an exception from any of them passes out of `resolveCacheKey`, `generateSessionId` or `cacheFieldResolver` (before the log line), so the "throws exactly" conditions of `LegacyResolver.LegacyResolveCacheKey`, `LegacyResolver.GenerateKey` and `LegacyResolver.CacheFieldResolver` hold for callbacks that return. Asynchronous results are not modelled either.
- `GraphQL.OutputType` admits shapes graphql-js never builds: a NonNull around a NonNull (a `GraphQLNonNull` needs a nullable inner type), and a NonNull or scalar parent type (`info.parentType` is a `GraphQLObjectType`). `CacheKey.NameAfterUnwrapping`, `CacheKey.WrappedParentHasNoKeyField`, `CacheKey.IsNodeStripsOneWrapper` and the NonNull-parent case of `LegacyResolver.ResolveIdThrows` only record what the code text would do on them.
- Test expectations that contradict the code are not proved. tests/cache-key/main.ts:99-113, 260, 267, 289, 296, 316, 318, 323 and 325, among others, expect the parent's id in parent-field keys. Rows throughout main.ts:320-398, among them 320, 350 and 377, expect the `nodeId` override to be gated on a node type. `CacheKey.ParentFieldIdComesFromArguments` and `CacheKey.OverrideIsNotGated` state what the code does instead.
- tests/cache-key/main.ts:421-428 call `resolveCacheKey` with a session id, but its signature (src/cache-key.ts:91-98) has no session parameter. The key is modelled without one.
- tests/in-memory-cache.spec.ts passes `{ ttl }` objects and expects `undefined` where `get` returns `null`. The model follows the code.
- LegacyResolver.GenerateKey: a caller's generator is handed every option field except its own `cacheKey` entry (src/cache-field-resolver.ts:140 passes the whole object), because a datatype cannot hold a function of itself; a generator that reads `options.cacheKey` has no counterpart. For a custom generator the contract only passes the generator's outcome through; what the generator computes is the caller's.

## Findings

| source | as written | input that shows it | evidently intended | confidence | as-written member | corrected member |
|---|---|---|---|---|---|---|
| src/cache-field-resolver.ts:33 | `!getKeyFields` tests the function itself, which is never falsy. A `@key` directive without a `fields` argument then reaches `keyFields.kind` on `undefined`, which throws | a return type `User` carrying `@key` with no arguments, and no options | `!keyFields`, returning null, as src/cache-key.ts:33 does | not executed | LegacyResolver.KeyWithoutFieldsThrows | CacheKey.KeyFields |
| src/cache.ts:34 | the expiry is `Date.now() + ttl`, although the ttl is documented as seconds and the clock counts milliseconds | `set("key", v, 10)` at time 0, then `get("key")` at 15 ms returns null | `Date.now() + ttl * 1000`, as src/in-memory-cache.ts:27 does | not executed | Cache.TenSecondEntryExpiresInMilliseconds | MemoryCache.SetThenGet |
