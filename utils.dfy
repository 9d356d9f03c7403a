/**
 * utils.ts: key derivation (`toScreamingCase`), `isDefined`, the option store
 * (`OptionsHandler`) and the loop that rewrites every static property of a
 * class (`decorateFnToAllMethods` over `getStaticProperties`).
 */
module Utils {
  import opened Wrappers
  import opened Js
  import opened Options

  // ---------------------------------------------------------------------------
  // toScreamingCase

  /**
   * `str.replace(/([A-Z])/g, "_$1")`: an underscore before every ASCII capital.
   * The tail is written `s[1..|s|]` rather than `s[1..]` so that the verifier
   * does not unfold the function on string literals by itself; concrete
   * names are worked out through the lemmas below instead.
   */
  function Underscored(s: string): string
    decreases |s|
  {
    if s == [] then []
    else (if IsUpper(s[0]) then ['_', s[0]] else [s[0]]) + Underscored(s[1..|s|])
  }

  /** `str.replace(/^_/, "")`: drops one leading underscore. */
  function StripLeadingUnderscore(s: string): string {
    if s != [] && s[0] == '_' then s[1..] else s
  }

  /** `toScreamingCase(str)`. */
  function ToScreamingCase(s: string): string {
    StripLeadingUnderscore(ToUpper(Underscored(s)))
  }

  /** The number of ASCII capitals in `s`. */
  function CountUpper(s: string): nat {
    if s == [] then 0 else (if IsUpper(s[0]) then 1 else 0) + CountUpper(s[1..])
  }

  /** Whether the underscored string starts with `_`, i.e. whether a leading `_` is stripped. */
  predicate StartsUnderscored(s: string) {
    s != [] && (IsUpper(s[0]) || s[0] == '_')
  }

  lemma {:induction false} UnderscoredLength(s: string)
    ensures |Underscored(s)| == |s| + CountUpper(s)
    decreases |s|
  {
    if s != [] {
      assert s[1..|s|] == s[1..];
      UnderscoredLength(s[1..|s|]);
    }
  }

  lemma UnderscoredHead(s: string)
    ensures Underscored(s) != [] && Underscored(s)[0] == '_' <==> StartsUnderscored(s)
    ensures Underscored(s) != [] && Underscored(s)[0] != '_' ==> Underscored(s)[0] == s[0]
  {
  }

  /** Every lowercase ASCII letter of the input has been upper-cased in the output. */
  lemma ScreamingCaseHasNoLowercase(s: string)
    ensures forall i | 0 <= i < |ToScreamingCase(s)| :: !IsLower(ToScreamingCase(s)[i])
  {
    var u := ToUpper(Underscored(s));
    forall i | 0 <= i < |ToScreamingCase(s)| ensures !IsLower(ToScreamingCase(s)[i]) {
      if u != [] && u[0] == '_' {
        assert ToScreamingCase(s)[i] == u[i + 1];
      } else {
        assert ToScreamingCase(s)[i] == u[i];
      }
    }
  }

  /** Output length: one extra character per capital, minus the stripped leading `_`. */
  lemma ScreamingCaseLength(s: string)
    ensures |ToScreamingCase(s)| == |s| + CountUpper(s) - (if StartsUnderscored(s) then 1 else 0)
  {
    UnderscoredLength(s);
    UnderscoredHead(s);
    var u := Underscored(s);
    if u != [] {
      assert ToUpper(u)[0] == UpperChar(u[0]);
      assert UpperChar(u[0]) == '_' <==> u[0] == '_';
    }
  }

  lemma {:induction false} UnderscoredWithoutCapitals(s: string)
    requires forall i | 0 <= i < |s| :: !IsUpper(s[i])
    ensures Underscored(s) == s
    decreases |s|
  {
    if s != [] {
      UnderscoredWithoutCapitals(s[1..|s|]);
    }
  }

  /** Without capitals nothing is inserted: the result is the upper-cased input minus a leading `_`. */
  lemma ScreamingCaseWithoutCapitals(s: string)
    requires forall i | 0 <= i < |s| :: !IsUpper(s[i])
    ensures ToScreamingCase(s) == StripLeadingUnderscore(ToUpper(s))
    ensures s != [] && s[0] != '_' ==> ToScreamingCase(s) == ToUpper(s)
  {
    UnderscoredWithoutCapitals(s);
  }

  lemma {:induction false} UnderscoredAppend(a: string, b: string)
    ensures Underscored(a + b) == Underscored(a) + Underscored(b)
    decreases |a|
  {
    if a == [] {
      assert a + b == b;
    } else {
      assert (a + b)[0] == a[0];
      assert (a + b)[1..|a + b|] == a[1..|a|] + b;
      UnderscoredAppend(a[1..|a|], b);
    }
  }

  /** One step of the replacement: the first character, then the rest. */
  lemma UnderscoredCons(c: char, rest: string)
    ensures Underscored([c] + rest) == (if IsUpper(c) then ['_', c] else [c]) + Underscored(rest)
  {
    var s := [c] + rest;
    assert s[0] == c && s[1..|s|] == rest;
  }

  /** A capital followed by no further capitals gets one underscore in front. */
  lemma UnderscoredCapitalized(c: char, w: string)
    requires IsUpper(c)
    requires forall i | 0 <= i < |w| :: !IsUpper(w[i])
    ensures Underscored([c] + w) == ['_', c] + w
  {
    UnderscoredCons(c, w);
    UnderscoredWithoutCapitals(w);
  }

  lemma UnderscoredAtCapital(word: string, c: char, rest: string)
    requires IsUpper(c)
    ensures Underscored(word + [c] + rest) == Underscored(word) + "_" + ([c] + Underscored(rest))
  {
    assert word + [c] + rest == word + ([c] + rest);
    UnderscoredAppend(word, [c] + rest);
    UnderscoredCons(c, rest);
  }

  lemma ScreamingCaseOfCapitalized(c: char, rest: string)
    requires IsUpper(c)
    ensures ToScreamingCase([c] + rest) == ToUpper([c] + Underscored(rest))
  {
    UnderscoredCons(c, rest);
    var u := Underscored([c] + rest);
    assert u == ['_'] + ([c] + Underscored(rest));
    ToUpperAppend(['_'], [c] + Underscored(rest));
    assert ToUpper(u) == ['_'] + ToUpper([c] + Underscored(rest));
  }

  lemma ScreamingCaseOfWord(word: string)
    requires word != [] && !IsUpper(word[0]) && word[0] != '_'
    ensures ToScreamingCase(word) == ToUpper(Underscored(word))
    ensures ToUpper(Underscored(word))[0] != '_'
  {
    UnderscoredHead(word);
  }

  /**
   * Splitting at a capital: a camelCase name whose first word does not start
   * with a capital or `_` becomes that word in capitals, `_`, then the rest.
   */
  lemma ScreamingCaseSplit(word: string, c: char, rest: string)
    requires word != [] && !IsUpper(word[0]) && word[0] != '_'
    requires IsUpper(c)
    ensures ToScreamingCase(word + [c] + rest) == ToScreamingCase(word) + "_" + ToScreamingCase([c] + rest)
  {
    var uw, tail := Underscored(word), [c] + Underscored(rest);
    var whole := ToUpper(uw) + "_" + ToUpper(tail);
    assert ToUpper(Underscored(word + [c] + rest)) == whole by {
      UnderscoredAtCapital(word, c, rest);
      ToUpperAppend(uw + "_", tail);
      ToUpperAppend(uw, "_");
    }
    assert ToScreamingCase(word) == ToUpper(uw) && whole[0] != '_' by {
      ScreamingCaseOfWord(word);
      assert whole[0] == ToUpper(uw)[0];
    }
    ScreamingCaseOfCapitalized(c, rest);
  }

  // ---------------------------------------------------------------------------
  // isDefined

  /** `isDefined`: only `undefined` counts as absent. */
  predicate IsDefined(v: Value) {
    v != Undefined
  }

  // ---------------------------------------------------------------------------
  // Class objects

  /**
   * A JavaScript class object (or, for instance fields, the prototype object a
   * property decorator receives). `statics` holds its own string-keyed
   * properties; `slots` holds the option objects stored under
   * `Symbol.for(<description>)`, keyed by that description, which property
   * enumeration never sees. `parent` is the object it inherits from.
   */
  class Entity {
    const parent: Entity?
    ghost const depth: nat
    var statics: map<string, Value>
    var slots: map<string, Options>

    /** The inheritance chain is finite. */
    ghost predicate Linked()
      decreases depth
    {
      parent != null ==> parent.depth < depth && parent.Linked()
    }

    /** The objects on the inheritance chain, this one included. */
    ghost function Lineage(): (r: set<Entity>)
      requires Linked()
      ensures this in r
      ensures forall e | e in r :: e.depth <= depth
      decreases depth
    {
      {this} + if parent == null then {} else parent.Lineage()
    }

    /** The string-keyed properties readable on this object, own ones winning over inherited ones. */
    function VisibleStatics(): map<string, Value>
      requires Linked()
      reads Lineage()`statics
      decreases depth
    {
      if parent == null then statics else parent.VisibleStatics() + statics
    }

    /** The option slots readable on this object, own ones winning over inherited ones. */
    function VisibleSlots(): map<string, Options>
      requires Linked()
      reads Lineage()`slots
      decreases depth
    {
      if parent == null then slots else parent.VisibleSlots() + slots
    }

    /** `cls[name]`: `undefined` when neither this object nor its ancestors have it. */
    function Get(name: string): (v: Value)
      requires Linked()
      reads Lineage()`statics
      ensures name in statics ==> v == statics[name]
      ensures name !in statics ==> v == if parent == null then Undefined else parent.Get(name)
      decreases depth
    {
      var visible := VisibleStatics();
      if name in visible then visible[name] else Undefined
    }

    /** A class declared with the given static properties. */
    constructor Declare(initial: map<string, Value>)
      ensures Linked() && parent == null
      ensures statics == initial && slots == map[]
    {
      parent := null;
      depth := 0;
      statics := initial;
      slots := map[];
    }

    /** `class extends base {}`: no own properties yet. */
    constructor Extend(base: Entity)
      requires base.Linked()
      ensures Linked() && parent == base
      ensures statics == map[] && slots == map[]
    {
      parent := base;
      depth := base.depth + 1;
      statics := map[];
      slots := map[];
    }
  }

  /** Own properties are read before inherited ones. */
  lemma OwnStaticsVisible(e: Entity, name: string)
    requires e.Linked()
    requires name in e.statics
    ensures name in e.VisibleStatics() && e.VisibleStatics()[name] == e.statics[name]
  {
  }

  // ---------------------------------------------------------------------------
  // OptionsHandler

  /** `OptionsHandler.generateKey`: the description of the slot's symbol. */
  function GenerateKey(name: string): string {
    Join(FilterTruthy(["options", name]), ":")
  }

  /** The class slot is `options`; the slot of field `name` is `options:m`. */
  lemma GenerateKeyShape(name: string)
    ensures GenerateKey(name) == if name == "" then "options" else "options:" + name
  {
    JoinTwo("options", name, ":");
  }

  /** Distinct field names never share a slot, and no named field shares the class slot. */
  lemma SlotsDistinct(a: string, b: string)
    requires a != ""
    ensures GenerateKey(a) != GenerateKey("")
    ensures b != "" && a != b ==> GenerateKey(a) != GenerateKey(b)
  {
    GenerateKeyShape(a);
    GenerateKeyShape(b);
    GenerateKeyShape("");
    assert |GenerateKey(a)| > |"options"|;
    if b != "" && GenerateKey(a) == GenerateKey(b) {
      assert a == GenerateKey(a)[8..];
      assert b == GenerateKey(b)[8..];
    }
  }

  /** `{ ...slots[key] }`: an unset slot spreads as `{}`. */
  function SlotOf(slots: map<string, Options>, key: string): Options {
    if key in slots then slots[key] else Empty
  }

  /** The slots after `options` were merged into the slot of `name`. */
  function Persisted(slots: map<string, Options>, options: Options, name: string): map<string, Options> {
    slots[GenerateKey(name) := Merge(SlotOf(slots, GenerateKey(name)), options)]
  }

  /**
   * `OptionsHandler.persist(cls, options, name)`: merges `options` over what
   * `cls` already sees in the slot, attribute by attribute, and stores the
   * result as an own slot of `cls`.
   */
  method Persist(cls: Entity, options: Options, name: string)
    requires cls.Linked()
    modifies cls`slots
    ensures cls.VisibleStatics() == old(cls.VisibleStatics())
    ensures cls.slots == old(cls.slots)[GenerateKey(name) := Merge(SlotOf(old(cls.VisibleSlots()), GenerateKey(name)), options)]
    ensures cls.VisibleSlots() == Persisted(old(cls.VisibleSlots()), options, name)
  {
    var key := GenerateKey(name);
    var current := SlotOf(cls.VisibleSlots(), key);
    ghost var inherited := if cls.parent == null then map[] else cls.parent.VisibleSlots();
    cls.slots := cls.slots[key := Merge(current, options)];
    assert cls.parent != null ==> cls !in cls.parent.Lineage();
    assert cls.parent != null ==> cls.parent.VisibleSlots() == inherited;
  }

  /**
   * `OptionsHandler.retrieve(cls, name)`, given the slots `cls` sees: the
   * class slot with the field slot spread over it.
   */
  function Retrieve(visible: map<string, Options>, name: string): Options {
    Merge(SlotOf(visible, GenerateKey("")), SlotOf(visible, GenerateKey(name)))
  }

  /** Per attribute, the field's own option wins and the class option fills in. */
  lemma RetrieveLayers(visible: map<string, Options>, field: string)
    requires field != ""
    ensures var cls, fld, r := SlotOf(visible, "options"), SlotOf(visible, "options:" + field), Retrieve(visible, field);
      && r.prefix == (if fld.prefix.Some? then fld.prefix else cls.prefix)
      && r.key == (if fld.key.Some? then fld.key else cls.key)
      && r.validate == (if fld.validate.Some? then fld.validate else cls.validate)
      && r.adapters == (if fld.adapters.Some? then fld.adapters else cls.adapters)
  {
    GenerateKeyShape(field);
    GenerateKeyShape("");
  }

  /** With no field name both reads hit the class slot: the result is the class options. */
  lemma RetrieveClassOnly(visible: map<string, Options>)
    ensures Retrieve(visible, "") == SlotOf(visible, "options")
  {
    GenerateKeyShape("");
    MergeIdempotent(SlotOf(visible, "options"));
  }

  /** A field without options of its own gets exactly the class options. */
  lemma RetrieveWithoutFieldOptions(visible: map<string, Options>, field: string)
    requires "options:" + field !in visible
    ensures Retrieve(visible, field) == SlotOf(visible, "options")
  {
    GenerateKeyShape(field);
    GenerateKeyShape("");
    MergeEmpty(SlotOf(visible, "options"));
    MergeIdempotent(SlotOf(visible, "options"));
  }

  /** Nothing persisted: empty options, and no failure. */
  lemma RetrieveUnset(visible: map<string, Options>, field: string)
    requires "options" !in visible && "options:" + field !in visible
    ensures Retrieve(visible, field) == Empty
  {
    GenerateKeyShape(field);
    GenerateKeyShape("");
  }

  // ---------------------------------------------------------------------------
  // getStaticProperties and decorateFnToAllMethods

  /** The own properties every class object has, which are never rewritten. */
  const BuiltIns: set<string> := {"constructor", "length", "name", "prototype"}

  /** `getStaticProperties`: own string-keyed properties except the built-in ones. */
  function StaticProperties(statics: map<string, Value>): (r: set<string>)
    ensures forall p | p in r :: p in statics && p !in BuiltIns
    ensures forall p | p in statics && p !in BuiltIns :: p in r
  {
    set p | p in statics && p !in BuiltIns
  }

  /** The static properties after each non-built-in one was replaced by `handler(name, value)`. */
  function Rebound(statics: map<string, Value>, handler: (string, Value) -> Value): (r: map<string, Value>)
    ensures r.Keys == statics.Keys
  {
    map p | p in statics :: if p in BuiltIns then statics[p] else handler(p, statics[p])
  }

  /**
   * `decorateFnToAllMethods(constructor, handler)` on class `cls`: sets every static property
   * to the handler's result. The handler receives the property's current
   * value rather than the class object, which is all it reads of the
   * properties; the option slots are not in the frame.
   */
  method DecorateFnToAllMethods(cls: Entity, handler: (string, Value) -> Value)
    requires cls.Linked()
    modifies cls`statics
    ensures cls.statics == Rebound(old(cls.statics), handler)
    ensures cls.VisibleSlots() == old(cls.VisibleSlots())
  {
    var before := cls.statics;
    var names := StaticProperties(before);
    var todo := names;
    while todo != {}
      invariant todo <= names
      invariant cls.statics.Keys == before.Keys
      invariant cls.VisibleSlots() == old(cls.VisibleSlots())
      invariant forall p | p in before ::
        cls.statics[p] == if p in names && p !in todo then handler(p, before[p]) else before[p]
      decreases todo
    {
      var p :| p in todo;
      cls.statics := cls.statics[p := handler(p, cls.statics[p])];
      todo := todo - {p};
    }
  }
}
