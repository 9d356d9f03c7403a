# Configuration resolution of `dimkl/config`, modelled in Dafny

`dimkl/config` is a TypeScript library of decorators. They bind the static and
instance fields of a class to configuration values.

`@config(options)` does four things:

- It derives a lookup key for each field: the explicit `key`, or `prefix` joined
  by `_` to the field name in SCREAMING_SNAKE case.
- It asks the configured adapters in order, taking the first truthy answer. The
  default adapter is `process.env`.
- It passes the answer through `validate`.
- It writes the result into the field, or keeps the field's current value when
  no adapter answers.

Options are stored per class and per field in symbol-keyed slots. The field's
options override the class options attribute by attribute.

`@scope(overrides)` derives a subclass whose static fields are replaced by the
override map's defined entries.

The project has seven modules:

- `Wrappers`: `Option`, `Result` and `Outcome`.
- `Js`: the JavaScript built-ins the core relies on. These are values and their
  truthiness, `filter(Boolean)` followed by `join`, `trim`, and `toUpperCase`
  on ASCII letters.
- `Options`: the option record and the spread merge `{ ...a, ...b }`.
- `Utils` (src/utils.ts) contains:
  - `toScreamingCase` and `isDefined`
  - the class object as a Dafny `class Entity`, with its own static properties,
    its symbol-keyed option slots and its parent on the prototype chain
  - `OptionsHandler.persist`, `retrieve` and `generateKey`
  - `getStaticProperties`
  - the in-place loop `decorateFnToAllMethods`
- `Config` (src/config.ts) contains `find`, the key derivation, `retrieveValue`,
  the static and instance wrappers, `classWrapper` and the decorator itself.
- `Scope` (src/scope.ts) contains the override rule, the cloning loop, and the
  decorator, which refuses property targets.
- `Scenarios`: the behaviours src/__tests__/config.test.ts describes. Each is
  stated as a method that builds the test's class, applies the decorators in
  TypeScript's order and ensures the values the test expects.

The state changes where the source changes it, through methods with `modifies`
clauses:

- `persist` writes an option slot.
- `staticPropertyWrapper` and `decorateFnToAllMethods` write static fields.
- `scope` allocates a subclass and fills in its static fields.

Each of these methods ensures its new state in terms of a pure function
(`Persisted`, `Retrieve`, `Rebound`, `Scoped`, `ResolveField`). The lemmas
about those functions prove the promised properties.

Two consequences of the code are worth stating, because a reading of the
library's intent might suggest otherwise:

- **Empty derived name.** The key is built with
  `[prefix, name].filter(Boolean).join("_")`. So a name that derives to the
  empty string gives the bare prefix, with no `_` (`PrefixedKeyOfEmptyName`).
- **Option slots under `scope`.** Under the assumed `cloneStaticProperties`
  (see "## Left out"), only static properties are written into the scoped
  class. The option slots are reached through inheritance, not copied.
  `Scope.Scope` states that the visible slots are unchanged, and that the
  subclass's own slots are empty.

## Model

| member | source | states |
|---|---|---|
| Js.FilterTruthy | src/config.ts:38-39 | `filter(Boolean)` on strings keeps no empty part and never lengthens the list |
| Js.JoinTwo | src/config.ts:38-40 | joining two filtered parts puts the separator in only when both parts are non-empty, otherwise it concatenates them |
| Js.TrimEmptyIffBlank | src/config.ts:27 | `key.trim().length === 0` holds exactly when every character of the key is JavaScript whitespace |
| Js.TrimStartEmptyIffBlank | src/config.ts:27 | trimming the start leaves nothing exactly for all-whitespace strings |
| Js.TrimEndEmptyIffBlank | src/config.ts:27 | trimming the end leaves nothing exactly for all-whitespace strings |
| Js.TrimStartKeepsNonWhitespaceHead | src/config.ts:27 | what trimming the start leaves begins with a non-whitespace character |
| Js.UpperChar | src/utils.ts:35 | `toUpperCase` on one character maps each lowercase ASCII letter to its capital (code minus 32) and leaves every other character alone |
| Js.ToUpper | src/utils.ts:35 | `toUpperCase` keeps the length and upper-cases character by character |
| Js.ToUpperAppend | src/utils.ts:35 | upper-casing distributes over concatenation |
| Options.Flat | src/config.ts:22 | `[sources].flat()`: one adapter is a one-element list, and a list is kept as it is |
| Options.Merge | src/utils.ts:47 | `{ ...earlier, ...later }`: each attribute comes from `later` when given, otherwise from `earlier` |
| Options.MergeEmpty | src/utils.ts:45-47 | spreading `{}` on either side changes nothing, so a first `persist` stores the options as given |
| Options.MergeIdempotent | src/utils.ts:54-57 | merging options with themselves gives them back |
| Options.MergeAssociative | src/utils.ts:47 | successive `persist` merges can be grouped either way |
| Utils.ToScreamingCase | src/utils.ts:32-37 | `toScreamingCase`: insert `_` before each capital, upper-case, strip one leading `_`; its properties are stated by `ScreamingCaseHasNoLowercase`, `ScreamingCaseLength`, `ScreamingCaseWithoutCapitals` and `ScreamingCaseSplit` |
| Utils.IsDefined | src/utils.ts:39-41 | `isDefined`: only `undefined` is absent; `Scope.DefinedOverrideApplies` states what this means for overrides |
| Utils.GenerateKey | src/utils.ts:60-62 | the slot description `["options", name].filter(Boolean).join(":")`; `GenerateKeyShape` and `SlotsDistinct` state its shape and injectivity |
| Utils.Retrieve | src/utils.ts:50-58 | `retrieve`: the class slot with the field slot spread over it; `RetrieveLayers`, `RetrieveClassOnly`, `RetrieveWithoutFieldOptions` and `RetrieveUnset` state its cases |
| Utils.UnderscoredLength | src/utils.ts:34 | inserting `_` before capitals adds exactly one character per ASCII capital |
| Utils.UnderscoredHead | src/utils.ts:34-36 | the underscored string starts with `_` exactly when the input starts with a capital or `_`, and otherwise starts with the input's first character |
| Utils.ScreamingCaseHasNoLowercase | src/utils.ts:32-37 | the output of `toScreamingCase` contains no lowercase ASCII letter |
| Utils.ScreamingCaseLength | src/utils.ts:32-37 | output length is input length plus the number of capitals, minus one when a leading `_` is stripped |
| Utils.UnderscoredWithoutCapitals | src/utils.ts:34 | without capitals the replacement inserts nothing |
| Utils.ScreamingCaseWithoutCapitals | src/utils.ts:32-37 | without capitals, `toScreamingCase` is the upper-cased input minus a leading `_`, and exactly the upper-cased input when it does not start with `_` |
| Utils.UnderscoredAppend | src/utils.ts:34 | the global replacement works on each part of a concatenation independently |
| Utils.UnderscoredCons | src/utils.ts:34 | the replacement handles the first character, then the rest |
| Utils.UnderscoredCapitalized | src/utils.ts:34 | a capital followed by no capitals gets exactly one `_` in front |
| Utils.UnderscoredAtCapital | src/utils.ts:34 | at a capital the replacement yields the prefix's result, `_`, the capital, then the rest's result |
| Utils.ScreamingCaseOfCapitalized | src/utils.ts:32-37 | a name starting with a capital loses exactly the `_` inserted before it |
| Utils.ScreamingCaseOfWord | src/utils.ts:32-37 | a name starting with neither a capital nor `_` keeps everything: no `_` is stripped |
| Utils.ScreamingCaseSplit | src/utils.ts:32-37 | a camelCase name splits at each capital: the first word's result, `_`, then the result for the capitalised rest |
| Utils.Entity.Get | src/config.ts:44 | `target[name]` is the own property when there is one, otherwise the parent's `target[name]`, and `undefined` on a class without parent |
| Utils.Entity.Declare | src/__tests__/config.test.ts:14-17 | a declared class has the given static properties, no option slots and no parent |
| Utils.Entity.Extend | src/scope.ts:8 | `class extends base {}` has no own properties or slots and inherits from `base` |
| Utils.OwnStaticsVisible | src/config.ts:44 | own static properties hide inherited ones |
| Utils.GenerateKeyShape | src/utils.ts:60-62 | the class slot is `options` and the slot of field `m` is `options:m` |
| Utils.SlotsDistinct | src/utils.ts:60-62 | a named field never shares the class slot, and distinct field names never share a slot |
| Utils.Persist | src/utils.ts:44-48 | `persist` writes only the one slot, which becomes what the class saw there with the new options spread over it; every other slot and every static property is unchanged |
| Utils.RetrieveLayers | src/utils.ts:50-58 | per attribute, the field slot's option wins and the class slot's fills in |
| Utils.RetrieveClassOnly | src/utils.ts:50-58 | with no field name both reads hit the class slot, and the result is the class options |
| Utils.RetrieveWithoutFieldOptions | src/utils.ts:50-58 | a field without a slot of its own gets exactly the class options |
| Utils.RetrieveUnset | src/utils.ts:50-58 | when nothing was persisted the result is empty options and there is no failure |
| Utils.StaticProperties | src/utils.ts:65-69 | a name is listed exactly when it is an own static property other than `constructor`, `length`, `name` and `prototype` |
| Utils.Rebound | src/utils.ts:5-7 | rewriting every static property keeps the set of property names |
| Utils.DecorateFnToAllMethods | src/utils.ts:1-7 | the loop sets every listed static property to the handler's result, leaves the built-in ones alone and never touches the option slots |
| Config.EnvAdapter | src/config.ts:19 | `configAdapter`: the environment entry under the key, `undefined` when unset; `DefaultsReadEnvironment` states its use |
| Config.DefaultValidate | src/config.ts:18 | `defaultValidate`: the identity; `DefaultsReadEnvironment` shows the environment value passes through unchanged |
| Config.PrefixedKey | src/config.ts:38-40 | `[prefix, toScreamingCase(name)].filter(Boolean).join("_")`; `PrefixedKeyExtends` and `PrefixedKeyOfEmptyName` state its cases |
| Config.LookupKey | src/config.ts:41 | `key || prefixedKey`; `LookupKeyShape` states it for all inputs |
| Config.Resolve | src/config.ts:32-42 | the merged options' adapters (the environment by default) asked for the lookup key, the answer validated; `ResolveValidates` and `DefaultsReadEnvironment` state it |
| Config.ResolveField | src/config.ts:41-44 | the resolved value, or the field's current value; `ResolveFallsBack` and `ResolveFieldIdempotent` state it |
| Config.RetrieveValue | src/config.ts:31-45 | `retrieveValue(target, name)`: resolution under the options `target` sees, falling back to `target[name]` |
| Config.Accessor.Get | src/config.ts:53 | the instance getter resolves on each read; `Scenarios.InstanceFieldRereads` shows a changed environment is seen |
| Config.FirstTruthy | src/config.ts:22 | `Array.find`: every adapter before the returned index answers falsy, and the one at the index answers truthy |
| Config.Find | src/config.ts:21-24 | `find` returns `undefined` exactly when no adapter answers truthy; otherwise the answer is truthy and comes from one of the adapters |
| Config.FindIgnoresLaterAdapters | src/config.ts:21-24 | adapters after one that answers are never consulted |
| Config.FindTwo | src/config.ts:21-24 | with two adapters, the first truthy answer wins, an empty first answer falls through, and two falsy answers give `undefined` |
| Config.LookupKeyShape | src/config.ts:38-41 | a non-empty `key` is used as it is, ignoring `prefix`; otherwise the key is `prefix_NAME`, with `_` only when both parts are non-empty |
| Config.PrefixedKeyExtends | src/config.ts:38-40 | a non-empty prefix goes in front of the unprefixed key, joined by `_` |
| Config.PrefixedKeyOfEmptyName | src/config.ts:38-40 | a name that derives to nothing gives the bare prefix, and the empty key without one |
| Config.DefaultsReadEnvironment | src/config.ts:18-19 | with the default adapter and validator, a field resolves to the environment entry under its key when it is set and non-empty, and to nothing otherwise |
| Config.ResolveValidates | src/config.ts:41-42 | a field resolves exactly when some adapter answers, and then to `validate` applied to the first answer |
| Config.ResolveFallsBack | src/config.ts:41-44 | when no adapter answers, the field keeps its current value |
| Config.ResolveFieldIdempotent | src/config.ts:31-45 | resolving a field again with the same options and environment changes nothing |
| Config.FieldOverridesClass | src/config.ts:32-37 | field options override class options independently for the key, the adapters and `validate`, falling back to the class and then to the defaults |
| Config.Config | src/config.ts:26-29 | `config(options)` fails with the empty-key error exactly when `key` is given and blank; otherwise it keeps the options unchanged |
| Config.Accessor.Set | src/config.ts:54 | the instance setter changes nothing that any later read sees |
| Config.StaticPropertyWrapper | src/config.ts:47-49 | the static field is written once with the resolved value, or with its current value when no adapter answers; nothing else changes |
| Config.PropertyWrapper | src/config.ts:58-63 | stores the field's options, then either installs a getter, leaving the statics as they were, or writes the static field |
| Config.ClassWrapper | src/config.ts:65-72 | a non-empty `key` fails and changes nothing; otherwise the class options are stored and every static field is re-resolved under them |
| Config.Decorate | src/config.ts:74-78 | an empty property key decorates the class (failing on a key, otherwise storing the class slot and rebinding every static field), and any other key decorates that field |
| Scope.Overridden | src/scope.ts:10 | the mapper `isDefined(obj[key]) ? obj[key] : value`; `Scope.DefinedOverrideApplies` states both cases |
| Scope.Scoped | src/scope.ts:9-11 | the scoped class has exactly the source's non-built-in static properties |
| Scope.CloneStaticProperties | src/scope.ts:9-11 | every static property of the source is written into the target as `mapper(value, key)`; the other target properties and all option slots are unchanged |
| Scope.Scope | src/scope.ts:6-23 | a property target fails with "Can only be applied to class"; a class target gives a fresh subclass with the overridden statics, its parent's slots visible, and the source left unmodified |
| Scope.DefinedOverrideApplies | src/scope.ts:10 | a defined override takes effect, whether or not it is falsy; an absent or `undefined` entry keeps the source value |
| Scope.ScopeWithoutOverrides | src/scope.ts:10 | scoping with an empty map keeps every static value |
| Scope.ScopeTwice | src/scope.ts:9-11 | scoping twice with the same map equals scoping once |
| Scope.ScopeCompose | src/scope.ts:9-11 | scoping with `first` and then with `second` equals scoping once with `second`'s defined entries laid over `first` |
| Scenarios.ScreamingUrl | src/utils.ts:32-37 | `url` becomes `URL` |
| Scenarios.ScreamingUrlA | src/__tests__/config.test.ts:10 | `urlA` becomes `URL_A` |
| Scenarios.ScreamingSettingUrl | src/__tests__/config.test.ts:41 | `settingUrl` becomes `SETTING_URL` |
| Scenarios.ScreamingSettingUrlA | src/__tests__/config.test.ts:9 | `settingUrlA` becomes `SETTING_URL_A` |
| Scenarios.ScreamingSetting2Url | src/__tests__/config.test.ts:81 | `setting2Url` becomes `SETTING2_URL`: a digit is not a word boundary |
| Scenarios.PrefixedLookupKey | src/config.ts:38-41 | without `key`, a non-empty prefix and a non-empty derived name are joined by `_` |
| Scenarios.KeyUrl | src/__tests__/config.test.ts:168-175 | the key of `url` without prefix is `URL` |
| Scenarios.KeyUrlA | src/__tests__/config.test.ts:9-18 | the key of `urlA` without prefix is `URL_A` |
| Scenarios.KeySettingUrl | src/__tests__/config.test.ts:168-176 | the key of `settingUrl` without prefix is `SETTING_URL` |
| Scenarios.KeySettingUrlA | src/__tests__/config.test.ts:9-19 | the key of `settingUrlA` without prefix is `SETTING_URL_A` |
| Scenarios.KeyPrefixUrl | src/__tests__/config.test.ts:40-51 | with prefix `PREFIX`, the key of `url` is `PREFIX_URL` |
| Scenarios.KeyPrefixSettingUrl | src/__tests__/config.test.ts:40-52 | with prefix `PREFIX`, the key of `settingUrl` is `PREFIX_SETTING_URL` |
| Scenarios.KeyPrefixSetting2Url | src/__tests__/config.test.ts:81-95 | with prefix `PREFIX`, the key of `setting2Url` is `PREFIX_SETTING2_URL` |
| Scenarios.KeyPropertyPrefixUrl | src/__tests__/config.test.ts:240-250 | with prefix `PROPERTY_PREFIX`, the key of `url` is `PROPERTY_PREFIX_URL` |
| Scenarios.NotBuiltIn | src/utils.ts:65-69 | a name whose initial is not that of a built-in is an ordinary static property |
| Scenarios.OnlyClassSlot | src/utils.ts:44-58 | after class decoration alone, the class slot holds the options, and every field retrieves them |
| Scenarios.OnlyFieldSlot | src/utils.ts:44-58 | after decorating one field alone, its slot holds the options, and the field retrieves them |
| Scenarios.FieldThenClassSlots | src/utils.ts:44-58 | after a field and then its class are decorated, the field retrieves the class options with its own spread over them, and another field retrieves the class options |
| Scenarios.ReadsEnv | src/config.ts:41-42 | with the default adapter, a set environment key resolves to the validated entry, both as `Resolve` and as the bound field |
| Scenarios.MissesEnv | src/config.ts:41-44 | with the default adapter, an unset environment key keeps the current value |
| Scenarios.ClassBound | src/config.ts:70 | `classWrapper` binds every static field other than the four built-ins to `retrieveValue` under the stored slots, falling back to the field's value |
| Scenarios.ReadsFirstAdapter | src/config.ts:21-24 | of two adapters where the first answers, the field takes that answer, validated |
| Scenarios.ReadsOneAdapter | src/config.ts:21-24 | with one adapter, a truthy answer is taken, validated, and a falsy one keeps the current value |
| Scenarios.ClassWithoutOptions | src/__tests__/config.test.ts:7-20 | `@config()` on a class reads `URL_A` and `SETTING_URL_A` into `urlA` and `settingUrlA` |
| Scenarios.ClassWithKey | src/__tests__/config.test.ts:27-34 | a class-level `key` fails with "Cannot use `key` option when decorating class" and stores nothing |
| Scenarios.EmptyKeyRejected | src/__tests__/config.test.ts:203-211 | `config({ key: "" })`, and a key of spaces, fail with the empty-key error before being applied |
| Scenarios.InitializedValuesKept | src/__tests__/config.test.ts:151-161 | with nothing in the environment, each static field keeps its initial value |
| Scenarios.FieldPrefixOverridesClassPrefix | src/__tests__/config.test.ts:237-253 | the field prefix wins for its field, and the other field uses the class prefix |
| Scenarios.FieldValidateOverridesClass | src/__tests__/config.test.ts:333-352 | the field `validate` wins for its field, and the other field uses the class `validate` |
| Scenarios.MultipleAdaptersBound | src/__tests__/config.test.ts:77-96 | under two adapters, each static field takes the first adapter's answer |
| Scenarios.MultipleAdapters | src/__tests__/config.test.ts:77-96 | the decorated class ends with the first adapter's answers, though the second answers every key |
| Scenarios.FieldAdapterBoundUrl | src/__tests__/config.test.ts:273-287 | the field adapter wins over the class adapter for its field |
| Scenarios.FieldAdapterBoundSettingUrl | src/__tests__/config.test.ts:273-288 | the undecorated field asks the class adapter, which has no answer, and keeps `""` |
| Scenarios.FieldAdapterOverridesClass | src/__tests__/config.test.ts:273-289 | the decorated class ends with `prop(mocked_PREFIX_URL)` and `""` |
| Scenarios.InstanceFieldRereads | src/__tests__/config.test.ts:356-370 | the instance getter reads `URL` on every read, so a changed environment is seen, and assignment changes nothing |
| Scenarios.InheritedStaticRead | src/config.ts:44 | a subclass without its own `port` reads the parent's, and an unknown name reads `undefined` |
| Scenarios.ScopeOverridesFields | src/scope.ts:6-13 | a defined override replaces a field, `null` included; other fields and the source class keep their values |

## Left out

- **Environment.** The default adapter `process.env[key]` (src/config.ts:19) reads the environment that is passed in, as `Env`, a map from names to strings. Test helpers that mutate `process.env` are not part of this model.
- **Decorator mechanics.**
  - The TypeScript decorator calling convention and property descriptors are not modelled. Decorators are applied by calling `Config.Decorate` in the order TypeScript applies them.
  - `isInstanceMethod` (src/utils.ts:28-30) is replaced by an explicit `Mode` tag.
- Config.Accessor.Get: when no adapter answers, the instance getter falls back to `target[propertyKey]` on the prototype (src/config.ts:44). That property is the getter itself, so the read recurses until JavaScript throws a `RangeError` (stack overflow) to the reader. The model gives `None` in that case and claims no fallback value.
- **Instance fields and class options.** The class decorator never reaches instance fields (the commented-out code at src/utils.ts:9-25), and the model makes no claim that it does.
- Scope.CloneStaticProperties: `cloneStaticProperties` is not defined in src/utils.ts. It is modelled as a loop over `getStaticProperties(source)` that writes `mapper(value, key)` into the target. This is an assumption.
- **Adapter and validator behaviour.**
  - Adapters and validators are pure functions over the model's values. Exceptions they throw are not modelled.
  - `find` calls the winning adapter a second time (src/config.ts:22-23). The model calls it once, which is equivalent for pure adapters.
- **Values.**
  - Numbers are integers, so floating point and `NaN` truthiness are not modelled.
  - An option attribute set explicitly to `undefined` counts as absent in a merge. In JavaScript it would overwrite the earlier value with `undefined`, and the default would still apply.
  - Override lookups in `scope` see only the override map's own entries, not `Object.prototype` members.
- Js.ToUpper: only ASCII letters are upper-cased. Other characters keep their case.
- Scenarios.Wrapping: the test validators build template strings and are modelled on string values only. Other values pass through unchanged.
- **Earlier iterations.** src/env.ts and src/decorator.ts are not part of this model. They import helpers that src/utils.ts does not define.
- **Other repository files.** Demos, `dotenv` loading and the test harness are not part of this model.
