/** The process-wide registry of default cache options (`defaultOptions`)
    and the three functions that mutate it. */
module Options {

  /** `keyof CacheOptions`. */
  datatype OptionName =
    | NodeIdOption | CacheKeyTypeOption | CacheKeyOption | CacheHintOption | CacheOption | CacheNullOption | LoggerOption | SessionIdOption

  /** An option's value. The defaults are named; anything else a caller
      supplies is an opaque token. */
  datatype OptionValue =
    | ResolveCacheKeyFn       // the key generator of cache-key.ts
    | DefaultInMemoryCache  // the InMemoryCache created when the module loads
    | Console               // the process's logging sink
    | Flag(b: bool)
    | Supplied(token: nat)

  type Registry = map<OptionName, OptionValue>

  /** The registry as the module initialises it. */
  function Initial(): (r: Registry)
    ensures r.Keys == {CacheKeyOption, CacheOption, CacheNullOption, LoggerOption}
    ensures r[CacheKeyOption] == ResolveCacheKeyFn && r[CacheOption] == DefaultInMemoryCache
    ensures r[CacheNullOption] == Flag(false) && r[LoggerOption] == Console
  {
    map[CacheKeyOption := ResolveCacheKeyFn, CacheOption := DefaultInMemoryCache, CacheNullOption := Flag(false), LoggerOption := Console]
  }

  /** The registry after `setDefaultOption(option, value)`. */
  function Assigned(m: Registry, option: OptionName, value: OptionValue): (r: Registry)
    ensures option in r && r[option] == value
    ensures forall o :: o != option ==> (o in r <==> o in m) && (o in r ==> r[o] == m[o])
  {
    m[option := value]
  }

  /** The registry after `appendDefaultOption(option, value)`. */
  function Appended(m: Registry, option: OptionName, value: OptionValue): (r: Registry)
    ensures option in m ==> r == m
    ensures option in r && r[option] == (if option in m then m[option] else value)
    ensures forall o :: o != option ==> (o in r <==> o in m) && (o in r ==> r[o] == m[o])
  {
    if option in m then m else m[option := value]
  }

  /** The registry after `clearDefaultOption(option)`. */
  function Cleared(m: Registry, option: OptionName): (r: Registry)
    ensures option !in r
    ensures option !in m ==> r == m
    ensures forall o :: o != option ==> (o in r <==> o in m) && (o in r ==> r[o] == m[o])
  {
    if option !in m then m else m - {option}
  }

  /** Appending twice is appending once; clearing twice is clearing once. */
  lemma Idempotent(m: Registry, option: OptionName, value: OptionValue, other: OptionValue)
    ensures Appended(Appended(m, option, value), option, other) == Appended(m, option, value)
    ensures Cleared(Cleared(m, option), option) == Cleared(m, option)
  {
  }

  /** Clearing then appending has the effect of setting. */
  lemma ClearThenAppendIsSet(m: Registry, option: OptionName, value: OptionValue)
    ensures Appended(Cleared(m, option), option, value) == Assigned(m, option, value)
  {
  }

  /** Appending to the initial registry keeps the defaults it already has. */
  lemma AppendKeepsDefaults(option: OptionName, value: OptionValue)
    requires option in {CacheKeyOption, CacheOption, CacheNullOption, LoggerOption}
    ensures Appended(Initial(), option, value) == Initial()
  {
  }

  class DefaultOptions {
    var registry: Registry

    constructor ()
      ensures registry == Initial()
    {
      registry := Initial();
    }

    /** `setDefaultOption(option, value)`: overrides any current value. */
    method SetDefaultOption(option: OptionName, value: OptionValue)
      modifies this
      ensures registry == Assigned(old(registry), option, value)
    {
      registry := registry[option := value];
    }

    /** `appendDefaultOption(option, value)`: does nothing if the option is set. */
    method AppendDefaultOption(option: OptionName, value: OptionValue)
      modifies this
      ensures registry == Appended(old(registry), option, value)
    {
      if option in registry {
        return;
      }
      registry := registry[option := value];
    }

    /** `clearDefaultOption(option)`: does nothing if the option is not set. */
    method ClearDefaultOption(option: OptionName)
      modifies this
      ensures registry == Cleared(old(registry), option)
    {
      if option !in registry {
        return;
      }
      registry := registry - {option};
    }
  }

  /** Clearing an option and then appending it sets it, on the registry
      object itself. */
  method ClearThenAppend(d: DefaultOptions, option: OptionName, value: OptionValue)
    modifies d
    ensures d.registry == Assigned(old(d.registry), option, value)
  {
    d.ClearDefaultOption(option);
    d.AppendDefaultOption(option, value);
    ClearThenAppendIsSet(old(d.registry), option, value);
  }
}
