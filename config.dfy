/**
 * config.ts: the `config` decorator factory. Looks up a field's options,
 * derives its lookup key, asks the adapters in order, validates the value,
 * and binds it to a static field (written once) or to an instance field
 * (a getter that resolves again on every read).
 */
module Config {
  import opened Wrappers
  import opened Js
  import opened Options
  import opened Utils

  /** The process environment, passed in rather than read from `process.env`. */
  type Env = map<string, string>

  /** Whether the decorated field is static or an instance field (in place of `isInstanceMethod`). */
  datatype Mode = Static | Instance

  /** The two configuration errors `config` throws. */
  datatype ConfigError =
    | EmptyKey    // "Cannot use empty `key` option"
    | KeyOnClass  // "Cannot use `key` option when decorating class"

  /** What `config(options)` returns: a decorator holding its options. */
  datatype Decorator = Decorator(options: Options)

  /** `configAdapter`: `process.env[key]`. */
  function EnvAdapter(env: Env): Adapter {
    k => if k in env then Str(env[k]) else Undefined
  }

  /** `defaultValidate`: the identity. */
  function DefaultValidate(): Validator {
    v => v
  }

  // ---------------------------------------------------------------------------
  // find

  /** The index of the first adapter whose result for `x` is truthy, or `|adapters|`. */
  function FirstTruthy(adapters: seq<Adapter>, x: string): (i: nat)
    ensures i <= |adapters|
    ensures forall j | 0 <= j < i :: !Truthy(adapters[j](x))
    ensures i < |adapters| ==> Truthy(adapters[i](x))
  {
    if adapters == [] then 0
    else if Truthy(adapters[0](x)) then 0
    else 1 + FirstTruthy(adapters[1..], x)
  }

  /**
   * `find(sources, x)`: the result of the first adapter whose result is
   * truthy; `undefined` when there is none.
   */
  function Find(adapters: seq<Adapter>, x: string): (r: Value)
    ensures r == Undefined <==> forall i | 0 <= i < |adapters| :: !Truthy(adapters[i](x))
    ensures r != Undefined ==> Truthy(r)
    ensures r != Undefined ==> exists i | 0 <= i < |adapters| :: r == adapters[i](x)
  {
    var i := FirstTruthy(adapters, x);
    if i < |adapters| then adapters[i](x) else Undefined
  }

  /** Adapters after one that answers are never consulted. */
  lemma {:induction false} FindIgnoresLaterAdapters(first: seq<Adapter>, later: seq<Adapter>, x: string)
    requires exists i | 0 <= i < |first| :: Truthy(first[i](x))
    ensures Find(first + later, x) == Find(first, x)
  {
    var i := FirstTruthy(first, x);
    var j := FirstTruthy(first + later, x);
    assert i < |first|;
    assert forall k | 0 <= k < |first| :: (first + later)[k] == first[k];
  }

  /** Two adapters: the first answer wins; an absent or empty first answer falls through. */
  lemma FindTwo(a1: Adapter, a2: Adapter, x: string)
    ensures Truthy(a1(x)) ==> Find([a1, a2], x) == a1(x)
    ensures !Truthy(a1(x)) && Truthy(a2(x)) ==> Find([a1, a2], x) == a2(x)
    ensures !Truthy(a1(x)) && !Truthy(a2(x)) ==> Find([a1, a2], x) == Undefined
  {
    var s := [a1, a2];
    assert s[1..] == [a2];
    assert [a2][1..] == [];
    assert FirstTruthy(s, x) == if Truthy(a1(x)) then 0 else 1 + FirstTruthy([a2], x);
    assert FirstTruthy([a2], x) == if Truthy(a2(x)) then 0 else 1 + FirstTruthy([], x);
  }

  // ---------------------------------------------------------------------------
  // The lookup key

  /** `[prefix, toScreamingCase(name)].filter(Boolean).join("_")`. */
  function PrefixedKey(prefix: Option<string>, name: string): string {
    Join(FilterTruthy([prefix.GetOr(""), ToScreamingCase(name)]), "_")
  }

  /** `options.key` is truthy: given and non-empty. */
  predicate HasKey(o: Options) {
    o.key.Some? && o.key.value != ""
  }

  /** `key || prefixedKey`. */
  function LookupKey(o: Options, name: string): string {
    if HasKey(o) then o.key.value else PrefixedKey(o.prefix, name)
  }

  /**
   * A non-empty explicit key is used as it is, ignoring the prefix; otherwise
   * the prefix and the derived name are joined by `_`, and either is left out
   * when it is absent or empty.
   */
  lemma LookupKeyShape(o: Options, name: string)
    ensures o.key.Some? && o.key.value != "" ==> LookupKey(o, name) == o.key.value
    ensures o.key.None? || o.key.value == "" ==>
      var p, n := o.prefix.GetOr(""), ToScreamingCase(name);
      LookupKey(o, name) == if p != "" && n != "" then p + "_" + n else p + n
  {
    JoinTwo(o.prefix.GetOr(""), ToScreamingCase(name), "_");
  }

  /** A non-empty prefix is put in front of the unprefixed key, joined by `_`. */
  lemma PrefixedKeyExtends(prefix: string, name: string)
    requires prefix != "" && ToScreamingCase(name) != ""
    ensures PrefixedKey(Some(prefix), name) == prefix + "_" + PrefixedKey(None, name)
  {
    JoinTwo(prefix, ToScreamingCase(name), "_");
    JoinTwo("", ToScreamingCase(name), "_");
  }

  /** A name that derives to nothing leaves the prefix alone, with no trailing `_`. */
  lemma PrefixedKeyOfEmptyName(prefix: string, name: string)
    requires ToScreamingCase(name) == ""
    ensures PrefixedKey(Some(prefix), name) == prefix
    ensures PrefixedKey(None, name) == ""
  {
    JoinTwo(prefix, "", "_");
    JoinTwo("", "", "_");
  }

  // ---------------------------------------------------------------------------
  // retrieveValue

  /** The adapters the options name, or the environment adapter by default. */
  function AdaptersOf(o: Options, env: Env): seq<Adapter> {
    if o.adapters.Some? then Flat(o.adapters.value) else [EnvAdapter(env)]
  }

  /** The value the sources give for the field, validated; `None` when no source has one. */
  function Resolve(o: Options, name: string, env: Env): Option<Value> {
    var value := Find(AdaptersOf(o, env), LookupKey(o, name));
    if IsDefined(value) then Some(o.validate.GetOr(DefaultValidate())(value)) else None
  }

  /** `retrieveValue` on merged options `o`: the resolved value, or the field's current value. */
  function ResolveField(o: Options, name: string, current: Value, env: Env): Value {
    Resolve(o, name, env).GetOr(current)
  }

  /** `retrieveValue(target, name)`. */
  function RetrieveValue(target: Entity, name: string, env: Env): Value
    requires target.Linked()
    reads target.Lineage()`statics, target.Lineage()`slots
  {
    ResolveField(Retrieve(target.VisibleSlots(), name), name, target.Get(name), env)
  }

  /** With the default adapter and validator, the field reads the environment under its key. */
  lemma DefaultsReadEnvironment(o: Options, name: string, env: Env)
    requires o.adapters.None? && o.validate.None?
    ensures var k := LookupKey(o, name);
      Resolve(o, name, env) == if k in env && env[k] != "" then Some(Str(env[k])) else None
  {
    var k := LookupKey(o, name);
    assert AdaptersOf(o, env) == [EnvAdapter(env)];
    assert [EnvAdapter(env)][1..] == [];
  }

  /** When some adapter answers, the result is the validator applied to the first answer. */
  lemma ResolveValidates(o: Options, name: string, env: Env)
    ensures var adapters, k := AdaptersOf(o, env), LookupKey(o, name);
      var i := FirstTruthy(adapters, k);
      && (Resolve(o, name, env).Some? <==> i < |adapters|)
      && (i < |adapters| ==> Resolve(o, name, env) == Some(o.validate.GetOr(DefaultValidate())(adapters[i](k))))
  {
  }

  /** When no adapter answers, the field keeps its current value. */
  lemma ResolveFallsBack(o: Options, name: string, current: Value, env: Env)
    requires forall i | 0 <= i < |AdaptersOf(o, env)| :: !Truthy(AdaptersOf(o, env)[i](LookupKey(o, name)))
    ensures ResolveField(o, name, current, env) == current
  {
  }

  /** Resolving a field again with the same options and environment changes nothing. */
  lemma ResolveFieldIdempotent(o: Options, name: string, current: Value, env: Env)
    ensures ResolveField(o, name, ResolveField(o, name, current, env), env) == ResolveField(o, name, current, env)
  {
  }

  /** Field-level options override class-level ones attribute by attribute. */
  lemma FieldOverridesClass(visible: map<string, Options>, field: string, env: Env)
    requires field != ""
    ensures var cls, fld := SlotOf(visible, "options"), SlotOf(visible, "options:" + field);
      var o := Retrieve(visible, field);
      && LookupKey(o, field) == LookupKey(Options(Over(cls.prefix, fld.prefix), Over(cls.key, fld.key), None, None), field)
      && AdaptersOf(o, env) == (if fld.adapters.Some? then Flat(fld.adapters.value)
                                else if cls.adapters.Some? then Flat(cls.adapters.value)
                                else [EnvAdapter(env)])
      && o.validate == (if fld.validate.Some? then fld.validate else cls.validate)
  {
    RetrieveLayers(visible, field);
  }

  // ---------------------------------------------------------------------------
  // config

  /** `config(options)`: fails when `key` is given but blank, before any target is seen. */
  function Config(options: Options): (r: Result<Decorator, ConfigError>)
    ensures r.Failure? <==> options.key.Some? && IsBlank(options.key.value)
    ensures r.Failure? ==> r.error == EmptyKey
    ensures r.Success? ==> r.value.options == options
  {
    match options.key
    case Some(k) =>
      TrimEmptyIffBlank(k);
      if |Trim(k)| == 0 then Failure(EmptyKey) else Success(Decorator(options))
    case None => Success(Decorator(options))
  }

  /**
   * The property descriptor installed for an instance field: `get` resolves
   * again on every read, and `set` does nothing.
   */
  datatype Accessor = Accessor(target: Entity, name: string) {
    /**
     * `get()`. `None` when no adapter has a value: the source then reads
     * `target[name]` on the prototype, which is this getter again, so the
     * read does not return.
     */
    function Get(env: Env): Option<Value>
      requires target.Linked()
      reads target.Lineage()`slots
    {
      Resolve(Retrieve(target.VisibleSlots(), name), name, env)
    }

    /** `set()`: a no-op. */
    method Set(value: Value)
      requires target.Linked()
      ensures forall env :: Get(env) == old(Get(env))
    {
    }
  }

  /** `staticPropertyWrapper`: writes the resolved value into the field, once. */
  method StaticPropertyWrapper(target: Entity, name: string, env: Env)
    requires target.Linked()
    modifies target`statics
    ensures target.statics == old(target.statics)[name := ResolveField(Retrieve(target.VisibleSlots(), name), name, old(target.Get(name)), env)]
    ensures target.VisibleSlots() == old(target.VisibleSlots())
  {
    target.statics := target.statics[name := RetrieveValue(target, name, env)];
  }

  /** `propertyWrapper`: stores the field's options, then binds the field by mode. */
  method PropertyWrapper(options: Options, target: Entity, name: string, mode: Mode, env: Env)
    returns (accessor: Option<Accessor>)
    requires target.Linked()
    modifies target
    ensures target.slots == old(target.slots)[GenerateKey(name) := Merge(SlotOf(old(target.VisibleSlots()), GenerateKey(name)), options)]
    ensures target.VisibleSlots() == Persisted(old(target.VisibleSlots()), options, name)
    ensures mode == Instance ==> (accessor == Some(Accessor(target, name)) && target.statics == old(target.statics))
    ensures mode == Static ==> (
      && accessor == None
      && target.statics == old(target.statics)[name := ResolveField(Retrieve(target.VisibleSlots(), name), name, old(target.Get(name)), env)])
  {
    Persist(target, options, name);
    if mode == Instance {
      accessor := Some(Accessor(target, name));
    } else {
      StaticPropertyWrapper(target, name, env);
      accessor := None;
    }
  }

  /** The handler `classWrapper` passes to `decorateFnToAllMethods`: `retrieveValue` against fixed slots. */
  function Binder(visible: map<string, Options>, env: Env): (string, Value) -> Value {
    (name, current) => ResolveField(Retrieve(visible, name), name, current, env)
  }

  /**
   * `classWrapper`: refuses a non-empty `key` without storing anything;
   * otherwise stores the class options and resolves every static field again
   * under them, each falling back to its current value.
   */
  method ClassWrapper(options: Options, cls: Entity, env: Env) returns (r: Outcome<ConfigError>)
    requires cls.Linked()
    modifies cls
    ensures HasKey(options) ==> (r == Fail(KeyOnClass) && unchanged(cls))
    ensures !HasKey(options) ==> (
      && r == Pass
      && cls.slots == old(cls.slots)[GenerateKey("") := Merge(SlotOf(old(cls.VisibleSlots()), GenerateKey("")), options)]
      && cls.VisibleSlots() == Persisted(old(cls.VisibleSlots()), options, "")
      && cls.statics == Rebound(old(cls.statics), Binder(cls.VisibleSlots(), env)))
  {
    if HasKey(options) {
      return Fail(KeyOnClass);
    }
    Persist(cls, options, "");
    DecorateFnToAllMethods(cls, Binder(cls.VisibleSlots(), env));
    r := Pass;
  }

  /**
   * The decorator `config(options)` returns: applied to a class when the
   * property key is empty, to a field otherwise.
   */
  method Decorate(d: Decorator, target: Entity, propertyKey: string, mode: Mode, env: Env)
    returns (r: Result<Option<Accessor>, ConfigError>)
    requires target.Linked()
    modifies target
    ensures propertyKey == "" && HasKey(d.options) ==> (r == Failure(KeyOnClass) && unchanged(target))
    ensures propertyKey == "" && !HasKey(d.options) ==> (
      && r == Success(None)
      && target.slots == old(target.slots)[GenerateKey("") := Merge(SlotOf(old(target.VisibleSlots()), GenerateKey("")), d.options)]
      && target.VisibleSlots() == Persisted(old(target.VisibleSlots()), d.options, "")
      && target.statics == Rebound(old(target.statics), Binder(target.VisibleSlots(), env)))
    ensures propertyKey != "" ==> (
      && r.Success?
      && target.VisibleSlots() == Persisted(old(target.VisibleSlots()), d.options, propertyKey))
    ensures propertyKey != "" && mode == Instance ==> (
      && r == Success(Some(Accessor(target, propertyKey)))
      && target.statics == old(target.statics))
    ensures propertyKey != "" && mode == Static ==> (
      && r == Success(None)
      && target.statics == old(target.statics)[propertyKey :=
           ResolveField(Retrieve(target.VisibleSlots(), propertyKey), propertyKey, old(target.Get(propertyKey)), env)])
  {
    if propertyKey == "" {
      var outcome := ClassWrapper(d.options, target, env);
      r := if outcome.Fail? then Failure(outcome.error) else Success(None);
    } else {
      var accessor := PropertyWrapper(d.options, target, propertyKey, mode, env);
      r := Success(accessor);
    }
  }
}
