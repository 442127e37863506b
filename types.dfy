/** The option and key-kind types of the cache layer. */
module Types {
  import opened Js

  /** `'node-id' | 'parent-field'`. */
  datatype CacheKeyType = NodeIdKind | ParentFieldKind

  /** The two options the key generator reads: a forced key kind, and an
      id-extraction function `(parent, args) => string | null`. */
  datatype KeyOptions = KeyOptions(
    cacheKeyType: Option<CacheKeyType>,
    nodeId: Option<(Record, Record) -> Option<string>>)

  /** No options set. */
  const NoKeyOptions: KeyOptions := KeyOptions(None, None)
}
