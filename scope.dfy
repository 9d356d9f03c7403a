/**
 * scope.ts: `scope(obj)` derives a subclass whose static properties are the
 * original's, each replaced by `obj[key]` when that is defined. The option
 * slots are inherited through the new class's prototype chain.
 */
module Scope {
  import opened Wrappers
  import opened Js
  import opened Options
  import opened Utils

  /** The error `scope` throws on a property target: "Can only be applied to class". */
  datatype ScopeError = NotAClass

  /** The mapper `(value, key) => isDefined(obj[key]) ? obj[key] : value`. */
  function Overridden(overrides: map<string, Value>, key: string, value: Value): Value {
    if key in overrides && IsDefined(overrides[key]) then overrides[key] else value
  }

  /** The static properties of the scoped class, given the original's. */
  function Scoped(statics: map<string, Value>, overrides: map<string, Value>): (r: map<string, Value>)
    ensures r.Keys == StaticProperties(statics)
  {
    map p | p in StaticProperties(statics) :: Overridden(overrides, p, statics[p])
  }

  /**
   * `cloneStaticProperties(source, target, mapper)`, which utils.ts does not
   * define: taken to write `mapper(value, key)` into `target` for every
   * static property `getStaticProperties` lists for `source`.
   */
  method CloneStaticProperties(source: Entity, target: Entity, mapper: (Value, string) -> Value)
    requires source != target && target.Linked()
    modifies target`statics
    ensures target.statics == old(target.statics) + map p | p in StaticProperties(source.statics) :: mapper(source.statics[p], p)
    ensures target.VisibleSlots() == old(target.VisibleSlots())
  {
    var names := StaticProperties(source.statics);
    var todo := names;
    while todo != {}
      invariant todo <= names
      invariant target.statics.Keys == old(target.statics).Keys + (names - todo)
      invariant forall p | p in target.statics ::
        target.statics[p] == if p in names && p !in todo then mapper(source.statics[p], p) else old(target.statics)[p]
      invariant target.VisibleSlots() == old(target.VisibleSlots())
      decreases todo
    {
      var p :| p in todo;
      target.statics := target.statics[p := mapper(source.statics[p], p)];
      todo := todo - {p};
    }
  }

  /**
   * The decorator `scope(overrides)` returns. On a class it builds
   * `class extends target {}` and fills its static properties; on a property
   * it fails. The original class is not modified (there is no `modifies`).
   */
  method Scope(overrides: map<string, Value>, target: Entity, propertyKey: string) returns (r: Result<Entity, ScopeError>)
    requires target.Linked()
    ensures propertyKey != "" ==> r == Failure(NotAClass)
    ensures propertyKey == "" ==> (
      && r.Success?
      && fresh(r.value)
      && r.value.Linked()
      && r.value.parent == target
      && r.value.statics == Scoped(target.statics, overrides)
      && r.value.slots == map[]
      && r.value.VisibleSlots() == target.VisibleSlots())
  {
    if propertyKey != "" {
      return Failure(NotAClass);
    }
    var derived := new Entity.Extend(target);
    CloneStaticProperties(target, derived, (value, key) => Overridden(overrides, key, value));
    r := Success(derived);
  }

  /** A defined override always takes effect, falsy ones (`null`, `""`, `0`, `false`) included. */
  lemma DefinedOverrideApplies(statics: map<string, Value>, overrides: map<string, Value>, p: string)
    requires p in StaticProperties(statics)
    ensures p in overrides && overrides[p] != Undefined ==> Scoped(statics, overrides)[p] == overrides[p]
    ensures (p !in overrides || overrides[p] == Undefined) ==> Scoped(statics, overrides)[p] == statics[p]
  {
  }

  /** Scoping with no overrides keeps every static value. */
  lemma ScopeWithoutOverrides(statics: map<string, Value>)
    ensures forall p | p in Scoped(statics, map[]) :: Scoped(statics, map[])[p] == statics[p]
    ensures statics.Keys !! BuiltIns ==> Scoped(statics, map[]) == statics
  {
  }

  /** Scoping twice with the same overrides gives what scoping once gives. */
  lemma ScopeTwice(statics: map<string, Value>, overrides: map<string, Value>)
    ensures Scoped(Scoped(statics, overrides), overrides) == Scoped(statics, overrides)
  {
    var once := Scoped(statics, overrides);
    assert StaticProperties(once) == once.Keys;
  }

  /** Scoping with `first` then `second` is scoping once with `second`'s defined entries laid over `first`. */
  lemma ScopeCompose(statics: map<string, Value>, first: map<string, Value>, second: map<string, Value>)
    ensures var both := map k | k in first.Keys + second.Keys :: Overridden(second, k, if k in first then first[k] else Undefined);
      Scoped(Scoped(statics, first), second) == Scoped(statics, both)
  {
    var once := Scoped(statics, first);
    assert StaticProperties(once) == once.Keys;
  }
}
