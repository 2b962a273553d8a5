/**
 * The logger's configuration: `DEFAULT_OPTIONS` and the object spread
 * `{ ...DEFAULT_OPTIONS, ...options }` that merges the caller's options over it.
 */
module Config {
  import opened Js

  /** `DEFAULT_OPTIONS`. */
  const Defaults: map<string, Value> := map[
    "debug" := Bool(false),
    "dcl" := Bool(true),
    "cls" := Bool(true),
    "fcp" := Bool(true),
    "fid" := Bool(true),
    "fp" := Bool(true),
    "lcp" := Bool(true),
    "tbt" := Bool(true),
    "resources" := Bool(true)
  ]

  /** The argument of `init`: absent (`undefined` or `null`) or an object's own properties. */
  datatype CallerOptions = NoOptions | Options(fields: map<string, Value>)

  /** What spreading the argument contributes: nothing for `undefined` or `null`. */
  function Spread(options: CallerOptions): map<string, Value>
  {
    match options
    case NoOptions => map[]
    case Options(fields) => fields
  }

  /**
   * `{ ...DEFAULT_OPTIONS, ...options }`: every key the caller gives keeps the
   * caller's value, even `undefined`; every other default keeps its default;
   * keys outside the defaults are carried through.
   */
  function Merge(options: CallerOptions): (config: map<string, Value>)
    ensures config.Keys == Defaults.Keys + Spread(options).Keys
    ensures forall k :: k in Spread(options) ==> config[k] == Spread(options)[k]
    ensures forall k :: k in Defaults && k !in Spread(options) ==> config[k] == Defaults[k]
  {
    Defaults + Spread(options)
  }

  /** `if (config[key])`. */
  predicate Enabled(config: map<string, Value>, key: string): (b: bool)
    ensures key !in config ==> !b
    ensures key in config ==> (b <==> Truthy(config[key]))
  {
    Truthy(Get(config, key))
  }

  /** The `debug` flag of the merged configuration. */
  function MergedDebug(options: CallerOptions): bool
  {
    Enabled(Merge(options), "debug")
  }

  /** A key's flag after the merge: the caller's value decides when given, else the default does. */
  lemma EnabledAfterMerge(options: CallerOptions, key: string)
    ensures key in Spread(options) ==> (Enabled(Merge(options), key) <==> Truthy(Spread(options)[key]))
    ensures key !in Spread(options) ==> (Enabled(Merge(options), key) <==> key in Defaults && key != "debug")
  {
  }

  /** A key given as `undefined` switches its tracker off even though it defaults to true. */
  lemma ExplicitUndefinedDisables(key: string)
    requires key in Defaults
    ensures Merge(Options(map[key := Undefined]))[key] == Undefined
    ensures !Enabled(Merge(Options(map[key := Undefined])), key)
  {
  }

  /**
   * The trackers read `options.debug` from the raw argument; for an options
   * object this agrees with the merged `debug` flag, because `debug` defaults
   * to false and a missing property reads as `undefined`.
   */
  lemma DebugOfObjectAgreesWithMerge(fields: map<string, Value>)
    ensures Truthy(Get(fields, "debug")) <==> Enabled(Merge(Options(fields)), "debug")
  {
  }
}
