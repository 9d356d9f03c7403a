/**
 * The behaviours the repository's tests describe, stated over the model:
 * each method builds the class the test declares, applies the decorators in
 * the order TypeScript applies them (field decorators first, then the class
 * decorator), and promises the values the test expects.
 */
module Scenarios {
  import opened Wrappers
  import opened Js
  import opened Options
  import opened Utils
  import opened Config
  import opened Scope

  /** `url` becomes `URL`. */
  lemma ScreamingUrl()
    ensures ToScreamingCase("url") == "URL"
  {
    assert Underscored("url") == "url" by {
      UnderscoredWithoutCapitals("url");
    }
  }

  /** `urlA` becomes `URL_A`. */
  lemma ScreamingUrlA()
    ensures ToScreamingCase("urlA") == "URL_A"
  {
    assert Underscored("urlA") == "url_A" by {
      assert "urlA" == "url" + (['A'] + "");
      UnderscoredWithoutCapitals("url");
      UnderscoredCapitalized('A', "");
      UnderscoredAppend("url", ['A'] + "");
    }
    assert ToUpper("url_A") == "URL_A";
  }

  /** `settingUrl` becomes `SETTING_URL`. */
  lemma ScreamingSettingUrl()
    ensures ToScreamingCase("settingUrl") == "SETTING_URL"
  {
    assert Underscored("settingUrl") == "setting_Url" by {
      assert "settingUrl" == "setting" + (['U'] + "rl");
      UnderscoredWithoutCapitals("setting");
      UnderscoredCapitalized('U', "rl");
      UnderscoredAppend("setting", ['U'] + "rl");
    }
    assert ToUpper("setting_Url") == "SETTING_URL";
  }

  /** `settingUrlA` becomes `SETTING_URL_A`. */
  lemma ScreamingSettingUrlA()
    ensures ToScreamingCase("settingUrlA") == "SETTING_URL_A"
  {
    assert Underscored("settingUrlA") == "setting_Url_A" by {
      assert "settingUrlA" == "setting" + (['U'] + "rl") + (['A'] + "");
      UnderscoredWithoutCapitals("setting");
      UnderscoredCapitalized('U', "rl");
      UnderscoredCapitalized('A', "");
      UnderscoredAppend("setting", ['U'] + "rl");
      UnderscoredAppend("setting" + (['U'] + "rl"), ['A'] + "");
    }
    assert ToUpper("setting_Url_A") == "SETTING_URL_A";
  }

  /** `setting2Url` becomes `SETTING2_URL`: a digit is neither a word boundary nor changed. */
  lemma ScreamingSetting2Url()
    ensures ToScreamingCase("setting2Url") == "SETTING2_URL"
  {
    assert Underscored("setting2Url") == "setting2_Url" by {
      assert "setting2Url" == "setting2" + (['U'] + "rl");
      UnderscoredWithoutCapitals("setting2");
      UnderscoredCapitalized('U', "rl");
      UnderscoredAppend("setting2", ['U'] + "rl");
    }
    assert ToUpper("setting2_Url") == "SETTING2_URL";
  }

  /** Without `key`, a non-empty prefix and the derived name are joined by `_`. */
  lemma PrefixedLookupKey(o: Options, name: string, prefix: string, screaming: string)
    requires o.key.None? && o.prefix == Some(prefix) && prefix != ""
    requires ToScreamingCase(name) == screaming && screaming != ""
    ensures LookupKey(o, name) == prefix + "_" + screaming
  {
    LookupKeyShape(o, name);
  }

  lemma KeyUrl(o: Options)
    requires o.key.None? && o.prefix.None?
    ensures LookupKey(o, "url") == "URL"
  {
    ScreamingUrl();
    LookupKeyShape(o, "url");
  }

  lemma KeyUrlA(o: Options)
    requires o.key.None? && o.prefix.None?
    ensures LookupKey(o, "urlA") == "URL_A"
  {
    ScreamingUrlA();
    LookupKeyShape(o, "urlA");
  }

  lemma KeySettingUrl(o: Options)
    requires o.key.None? && o.prefix.None?
    ensures LookupKey(o, "settingUrl") == "SETTING_URL"
  {
    ScreamingSettingUrl();
    LookupKeyShape(o, "settingUrl");
  }

  lemma KeySettingUrlA(o: Options)
    requires o.key.None? && o.prefix.None?
    ensures LookupKey(o, "settingUrlA") == "SETTING_URL_A"
  {
    ScreamingSettingUrlA();
    LookupKeyShape(o, "settingUrlA");
  }

  lemma KeyPrefixUrl(o: Options)
    requires o.key.None? && o.prefix == Some("PREFIX")
    ensures LookupKey(o, "url") == "PREFIX_URL"
  {
    ScreamingUrl();
    PrefixedLookupKey(o, "url", "PREFIX", "URL");
  }

  lemma KeyPrefixSettingUrl(o: Options)
    requires o.key.None? && o.prefix == Some("PREFIX")
    ensures LookupKey(o, "settingUrl") == "PREFIX_SETTING_URL"
  {
    ScreamingSettingUrl();
    PrefixedLookupKey(o, "settingUrl", "PREFIX", "SETTING_URL");
  }

  lemma KeyPrefixSetting2Url(o: Options)
    requires o.key.None? && o.prefix == Some("PREFIX")
    ensures LookupKey(o, "setting2Url") == "PREFIX_SETTING2_URL"
  {
    ScreamingSetting2Url();
    PrefixedLookupKey(o, "setting2Url", "PREFIX", "SETTING2_URL");
  }

  lemma KeyPropertyPrefixUrl(o: Options)
    requires o.key.None? && o.prefix == Some("PROPERTY_PREFIX")
    ensures LookupKey(o, "url") == "PROPERTY_PREFIX_URL"
  {
    ScreamingUrl();
    PrefixedLookupKey(o, "url", "PROPERTY_PREFIX", "URL");
  }

  /** A name that starts with none of the built-ins' initials is an ordinary static property. */
  lemma NotBuiltIn(p: string)
    requires p != [] && p[0] != 'c' && p[0] != 'l' && p[0] != 'n' && p[0] != 'p'
    ensures p !in BuiltIns
  {
    assert "constructor"[0] == 'c' && "length"[0] == 'l' && "name"[0] == 'n' && "prototype"[0] == 'p';
  }

  /** The slots a class sees when it was decorated only as a whole, with options `o`. */
  lemma OnlyClassSlot(o: Options, field: string)
    requires field != ""
    ensures Persisted(map[], o, "") == map["options" := o]
    ensures Retrieve(map["options" := o], field) == o
  {
    GenerateKeyShape("");
    MergeEmpty(o);
    GenerateKeyShape(field);
    assert "options:" + field != "options" by {
      assert |"options:" + field| > |"options"|;
    }
    RetrieveWithoutFieldOptions(map["options" := o], field);
  }

  /** The slots an object sees when only field `field` was decorated, with options `f`. */
  lemma OnlyFieldSlot(f: Options, field: string)
    requires field != ""
    ensures Persisted(map[], f, field) == map["options:" + field := f]
    ensures Retrieve(map["options:" + field := f], field) == f
  {
    GenerateKeyShape("");
    GenerateKeyShape(field);
    SlotsDistinct(field, "");
    MergeEmpty(f);
  }

  /** The slots a class sees when field `field` was decorated with `f` and then the class with `c`. */
  lemma FieldThenClassSlots(f: Options, field: string, c: Options, other: string)
    requires field != "" && other != "" && other != field
    ensures Persisted(map[], f, field) == map["options:" + field := f]
    ensures Retrieve(map["options:" + field := f], field) == f
    ensures Persisted(map["options:" + field := f], c, "") == map["options:" + field := f, "options" := c]
    ensures Retrieve(map["options:" + field := f, "options" := c], field) == Merge(c, f)
    ensures Retrieve(map["options:" + field := f, "options" := c], other) == c
  {
    GenerateKeyShape("");
    GenerateKeyShape(field);
    GenerateKeyShape(other);
    SlotsDistinct(field, "");
    SlotsDistinct(field, other);
    MergeEmpty(f);
    MergeEmpty(c);
  }

  /** A field whose sources are the environment, whose key the environment sets, resolves to the validated entry. */
  lemma ReadsEnv(o: Options, name: string, current: Value, env: Env, key: string)
    requires o.adapters.None?
    requires LookupKey(o, name) == key && key in env && env[key] != ""
    ensures Resolve(o, name, env) == Some(o.validate.GetOr(DefaultValidate())(Str(env[key])))
    ensures ResolveField(o, name, current, env) == o.validate.GetOr(DefaultValidate())(Str(env[key]))
  {
    assert AdaptersOf(o, env) == [EnvAdapter(env)];
    assert [EnvAdapter(env)][1..] == [];
  }

  /** A field whose key the environment does not set keeps its current value. */
  lemma MissesEnv(o: Options, name: string, current: Value, env: Env)
    requires o.adapters.None? && LookupKey(o, name) !in env
    ensures ResolveField(o, name, current, env) == current
  {
    assert AdaptersOf(o, env) == [EnvAdapter(env)];
    assert [EnvAdapter(env)][1..] == [];
  }

  /** After the class decorator, an ordinary static property holds what its merged options resolve to. */
  lemma ClassBound(statics: map<string, Value>, visible: map<string, Options>, env: Env, p: string)
    requires p in statics && p !in BuiltIns
    ensures Rebound(statics, Binder(visible, env))[p] == ResolveField(Retrieve(visible, p), p, statics[p], env)
  {
  }

  /** Two adapters where the first answers: the field takes the first answer, validated. */
  lemma ReadsFirstAdapter(o: Options, name: string, current: Value, env: Env, key: string)
    requires o.adapters.Some? && o.adapters.value.Many? && |o.adapters.value.fns| == 2
    requires LookupKey(o, name) == key && Truthy(o.adapters.value.fns[0](key))
    ensures ResolveField(o, name, current, env) == o.validate.GetOr(DefaultValidate())(o.adapters.value.fns[0](key))
  {
    var fns := o.adapters.value.fns;
    assert fns == [fns[0], fns[1]];
    FindTwo(fns[0], fns[1], key);
  }

  /** One adapter: the field takes its answer, validated, or keeps its current value when the answer is `undefined`. */
  lemma ReadsOneAdapter(o: Options, name: string, current: Value, env: Env, key: string)
    requires o.adapters.Some? && o.adapters.value.One? && LookupKey(o, name) == key
    ensures var a := o.adapters.value.fn(key);
      ResolveField(o, name, current, env) == if Truthy(a) then o.validate.GetOr(DefaultValidate())(a) else current
  {
    var fn := o.adapters.value.fn;
    assert [fn][1..] == [];
    assert FirstTruthy([fn], key) == if Truthy(fn(key)) then 0 else 1;
  }

  /** `(x) => VALUES[x]`: a record lookup, `undefined` for a missing key. */
  function RecordAdapter(values: map<string, string>): Adapter {
    x => if x in values then Str(values[x]) else Undefined
  }

  /** `(x) => VALUES[x] + "2"`: a missing key gives the string `"undefined2"`. */
  function SuffixAdapter(values: map<string, string>): Adapter {
    x => Str((if x in values then values[x] else "undefined") + "2")
  }

  /** The template literal `` `tag(${text})` ``. */
  function Template(tag: string, text: string): string {
    tag + "(" + text + ")"
  }

  /** `` (x) => `prop(${VALUES[x]})` ``: a missing key gives `"prop(undefined)"`. */
  function WrappingAdapter(values: map<string, string>, tag: string): Adapter {
    x => Str(Template(tag, if x in values then values[x] else "undefined"))
  }

  /** `` (x) => `tag(${x})` `` on the string values the sources give. */
  function Wrapping(tag: string): Validator {
    (v: Value) => if v.Str? then Str(Template(tag, v.s)) else v
  }

  /** `@config()` on a class: every static property reads the environment under its own name. */
  method ClassWithoutOptions(env: Env) returns (urlA: Value, settingUrlA: Value)
    requires "SETTING_URL_A" in env && env["SETTING_URL_A"] == "mocked_SETTING_URLA"
    requires "URL_A" in env && env["URL_A"] == "mocked_URLA"
    ensures urlA == Str("mocked_URLA")
    ensures settingUrlA == Str("mocked_SETTING_URLA")
  {
    var statics := map["urlA" := Str(""), "settingUrlA" := Str("")];
    var cls := new Entity.Declare(statics);
    var d := Config.Config(Empty);
    var r := Decorate(d.value, cls, "", Static, env);
    OnlyClassSlot(Empty, "urlA");
    OnlyClassSlot(Empty, "settingUrlA");
    NotBuiltIn("urlA");
    ClassBound(statics, cls.VisibleSlots(), env, "urlA");
    NotBuiltIn("settingUrlA");
    ClassBound(statics, cls.VisibleSlots(), env, "settingUrlA");
    KeyUrlA(Empty);
    KeySettingUrlA(Empty);
    ReadsEnv(Empty, "urlA", Str(""), env, "URL_A");
    ReadsEnv(Empty, "settingUrlA", Str(""), env, "SETTING_URL_A");
    urlA := cls.statics["urlA"];
    settingUrlA := cls.statics["settingUrlA"];
  }

  /** `@config({ key: "CUSTOM_KEY" })` on a class is refused, and nothing is stored on the class. */
  method ClassWithKey(env: Env) returns (r: Result<Option<Accessor>, ConfigError>, cls: Entity)
    ensures r == Failure(KeyOnClass)
    ensures cls.statics == map["url" := Str(""), "settingUrl" := Str("")]
    ensures cls.parent == null && cls.slots == map[]
  {
    cls := new Entity.Declare(map["url" := Str(""), "settingUrl" := Str("")]);
    var d := Config.Config(Options(None, Some("CUSTOM_KEY"), None, None));
    assert !IsWhitespace("CUSTOM_KEY"[0]);
    r := Decorate(d.value, cls, "", Static, env);
  }

  /** `config({ key: "" })` fails before it is applied to anything; so does a key of spaces. */
  lemma EmptyKeyRejected()
    ensures Config.Config(Options(None, Some(""), None, None)) == Failure(EmptyKey)
    ensures Config.Config(Options(Some("PREFIX"), Some("  "), None, None)) == Failure(EmptyKey)
  {
    assert IsWhitespace(' ');
  }

  /** Without a source value, each static property keeps the value it was initialised with. */
  method InitializedValuesKept(env: Env) returns (url: Value, settingUrl: Value)
    requires "URL" !in env && "SETTING_URL" !in env
    ensures url == Str("initializedUrl")
    ensures settingUrl == Str("initializedSettingUrl")
  {
    var statics := map["url" := Str("initializedUrl"), "settingUrl" := Str("initializedSettingUrl")];
    var cls := new Entity.Declare(statics);
    var d := Config.Config(Empty);
    var r := Decorate(d.value, cls, "", Static, env);
    assert cls.statics["url"] == statics["url"] by {
      OnlyClassSlot(Empty, "url");
      NotBuiltIn("url");
      ClassBound(statics, cls.VisibleSlots(), env, "url");
      KeyUrl(Empty);
      MissesEnv(Empty, "url", statics["url"], env);
    }
    assert cls.statics["settingUrl"] == statics["settingUrl"] by {
      OnlyClassSlot(Empty, "settingUrl");
      NotBuiltIn("settingUrl");
      ClassBound(statics, cls.VisibleSlots(), env, "settingUrl");
      KeySettingUrl(Empty);
      MissesEnv(Empty, "settingUrl", statics["settingUrl"], env);
    }
    url := cls.statics["url"];
    settingUrl := cls.statics["settingUrl"];
  }

  /**
   * A field-level prefix wins over the class-level one for that field; the
   * other field uses the class prefix.
   */
  method FieldPrefixOverridesClassPrefix(env: Env) returns (url: Value, settingUrl: Value)
    requires "PREFIX_SETTING_URL" in env && env["PREFIX_SETTING_URL"] == "mocked_PREFIX_SETTING_URL"
    requires "PROPERTY_PREFIX_URL" in env && env["PROPERTY_PREFIX_URL"] == "mocked_PROPERTY_PREFIX_URL"
    ensures url == Str("mocked_PROPERTY_PREFIX_URL")
    ensures settingUrl == Str("mocked_PREFIX_SETTING_URL")
  {
    var fieldOptions := Options(Some("PROPERTY_PREFIX"), None, None, None);
    var classOptions := Options(Some("PREFIX"), None, None, None);
    var cls := new Entity.Declare(map["url" := Str(""), "settingUrl" := Str("")]);
    var fd := Config.Config(fieldOptions);
    var cd := Config.Config(classOptions);
    FieldThenClassSlots(fieldOptions, "url", classOptions, "settingUrl");
    KeyPropertyPrefixUrl(fieldOptions);
    KeyPrefixSettingUrl(classOptions);
    var r1 := Decorate(fd.value, cls, "url", Static, env);
    var between := cls.statics;
    var r2 := Decorate(cd.value, cls, "", Static, env);
    NotBuiltIn("url");
    ClassBound(between, cls.VisibleSlots(), env, "url");
    NotBuiltIn("settingUrl");
    ClassBound(between, cls.VisibleSlots(), env, "settingUrl");
    ReadsEnv(fieldOptions, "url", between["url"], env, "PROPERTY_PREFIX_URL");
    ReadsEnv(classOptions, "settingUrl", between["settingUrl"], env, "PREFIX_SETTING_URL");
    url := cls.statics["url"];
    settingUrl := cls.statics["settingUrl"];
  }

  /** A field-level `validate` wins over the class-level one; the other field uses the class's. */
  method FieldValidateOverridesClass(env: Env) returns (url: Value, settingUrl: Value)
    requires "PREFIX_URL" in env && env["PREFIX_URL"] == "mocked_PREFIX_URL"
    requires "PREFIX_SETTING_URL" in env && env["PREFIX_SETTING_URL"] == "mocked_PREFIX_SETTING_URL"
    ensures url == Str(Template("class", "mocked_PREFIX_URL"))
    ensures settingUrl == Str(Template("prop", "mocked_PREFIX_SETTING_URL"))
  {
    var fieldOptions := Options(None, None, Some(Wrapping("prop")), None);
    var classOptions := Options(Some("PREFIX"), None, Some(Wrapping("class")), None);
    var cls := new Entity.Declare(map["url" := Str(""), "settingUrl" := Str("")]);
    var fd := Config.Config(fieldOptions);
    var cd := Config.Config(classOptions);
    FieldThenClassSlots(fieldOptions, "settingUrl", classOptions, "url");
    var merged := Merge(classOptions, fieldOptions);
    assert merged == Options(Some("PREFIX"), None, Some(Wrapping("prop")), None);
    KeyPrefixUrl(classOptions);
    KeyPrefixSettingUrl(merged);
    var r1 := Decorate(fd.value, cls, "settingUrl", Static, env);
    var between := cls.statics;
    var r2 := Decorate(cd.value, cls, "", Static, env);
    NotBuiltIn("url");
    ClassBound(between, cls.VisibleSlots(), env, "url");
    NotBuiltIn("settingUrl");
    ClassBound(between, cls.VisibleSlots(), env, "settingUrl");
    ReadsEnv(classOptions, "url", between["url"], env, "PREFIX_URL");
    ReadsEnv(merged, "settingUrl", between["settingUrl"], env, "PREFIX_SETTING_URL");
    url := cls.statics["url"];
    settingUrl := cls.statics["settingUrl"];
  }

  /** What the class decorated with the two adapters of `MultipleAdapters` binds, field by field. */
  lemma MultipleAdaptersBound(values: map<string, string>, env: Env, o: Options, statics: map<string, Value>)
    requires "PREFIX_URL" in values && values["PREFIX_URL"] == "mocked_PREFIX_URL"
    requires "PREFIX_SETTING_URL" in values && values["PREFIX_SETTING_URL"] == "mocked_PREFIX_SETTING_URL"
    requires "PREFIX_SETTING2_URL" in values && values["PREFIX_SETTING2_URL"] == "mocked_PREFIX_SETTING2_URL"
    requires o == Options(Some("PREFIX"), None, None, Some(Many([RecordAdapter(values), SuffixAdapter(values)])))
    requires statics == map["url" := Str(""), "settingUrl" := Str(""), "setting2Url" := Str("")]
    ensures var bound := Rebound(statics, Binder(Persisted(map[], o, ""), env));
      && bound["url"] == Str("mocked_PREFIX_URL")
      && bound["settingUrl"] == Str("mocked_PREFIX_SETTING_URL")
      && bound["setting2Url"] == Str("mocked_PREFIX_SETTING2_URL")
  {
    var visible := Persisted(map[], o, "");
    OnlyClassSlot(o, "url");
    assert Rebound(statics, Binder(visible, env))["url"] == Str("mocked_PREFIX_URL") by {
      NotBuiltIn("url");
      ClassBound(statics, visible, env, "url");
      KeyPrefixUrl(o);
      ReadsFirstAdapter(o, "url", Str(""), env, "PREFIX_URL");
    }
    assert Rebound(statics, Binder(visible, env))["settingUrl"] == Str("mocked_PREFIX_SETTING_URL") by {
      OnlyClassSlot(o, "settingUrl");
      NotBuiltIn("settingUrl");
      ClassBound(statics, visible, env, "settingUrl");
      KeyPrefixSettingUrl(o);
      ReadsFirstAdapter(o, "settingUrl", Str(""), env, "PREFIX_SETTING_URL");
    }
    assert Rebound(statics, Binder(visible, env))["setting2Url"] == Str("mocked_PREFIX_SETTING2_URL") by {
      OnlyClassSlot(o, "setting2Url");
      NotBuiltIn("setting2Url");
      ClassBound(statics, visible, env, "setting2Url");
      KeyPrefixSetting2Url(o);
      ReadsFirstAdapter(o, "setting2Url", Str(""), env, "PREFIX_SETTING2_URL");
    }
  }

  /**
   * With two adapters every static property takes the first adapter's
   * answer, even though the second answers every key.
   */
  method MultipleAdapters(values: map<string, string>, env: Env) returns (url: Value, settingUrl: Value, setting2Url: Value)
    requires "PREFIX_URL" in values && values["PREFIX_URL"] == "mocked_PREFIX_URL"
    requires "PREFIX_SETTING_URL" in values && values["PREFIX_SETTING_URL"] == "mocked_PREFIX_SETTING_URL"
    requires "PREFIX_SETTING2_URL" in values && values["PREFIX_SETTING2_URL"] == "mocked_PREFIX_SETTING2_URL"
    ensures url == Str("mocked_PREFIX_URL")
    ensures settingUrl == Str("mocked_PREFIX_SETTING_URL")
    ensures setting2Url == Str("mocked_PREFIX_SETTING2_URL")
  {
    var adapters := Many([RecordAdapter(values), SuffixAdapter(values)]);
    var o := Options(Some("PREFIX"), None, None, Some(adapters));
    var statics := map["url" := Str(""), "settingUrl" := Str(""), "setting2Url" := Str("")];
    var cls := new Entity.Declare(statics);
    var d := Config.Config(o);
    var r := Decorate(d.value, cls, "", Static, env);
    MultipleAdaptersBound(values, env, o, statics);
    url := cls.statics["url"];
    settingUrl := cls.statics["settingUrl"];
    setting2Url := cls.statics["setting2Url"];
  }

  /** Field `url` of `FieldAdapterOverridesClass` keeps to its own adapter under the class decorator. */
  lemma FieldAdapterBoundUrl(values: map<string, string>, env: Env, f: Options, visible: map<string, Options>, between: map<string, Value>)
    requires "PREFIX_URL" in values && values["PREFIX_URL"] == "mocked_PREFIX_URL"
    requires f == Options(Some("PREFIX"), None, None, Some(One(WrappingAdapter(values, "prop"))))
    requires Retrieve(visible, "url") == f && "url" in between
    ensures Rebound(between, Binder(visible, env))["url"] == Str(Template("prop", "mocked_PREFIX_URL"))
  {
    var a := WrappingAdapter(values, "prop")("PREFIX_URL");
    assert a == Str(Template("prop", "mocked_PREFIX_URL"));
    assert Truthy(a) by {
      assert |Template("prop", "mocked_PREFIX_URL")| > 0;
    }
    assert ResolveField(f, "url", between["url"], env) == a by {
      KeyPrefixUrl(f);
      ReadsOneAdapter(f, "url", between["url"], env, "PREFIX_URL");
    }
    NotBuiltIn("url");
    ClassBound(between, visible, env, "url");
  }

  /** Field `settingUrl` of `FieldAdapterOverridesClass` asks the class adapter, which has nothing for it. */
  lemma FieldAdapterBoundSettingUrl(values: map<string, string>, env: Env, c: Options, visible: map<string, Options>, between: map<string, Value>)
    requires "SETTING_URL" !in values
    requires c == Options(None, None, None, Some(One(RecordAdapter(values))))
    requires Retrieve(visible, "settingUrl") == c && "settingUrl" in between && between["settingUrl"] == Str("")
    ensures Rebound(between, Binder(visible, env))["settingUrl"] == Str("")
  {
    NotBuiltIn("settingUrl");
    ClassBound(between, visible, env, "settingUrl");
    KeySettingUrl(c);
    ReadsOneAdapter(c, "settingUrl", Str(""), env, "SETTING_URL");
  }

  /**
   * A field-level adapter wins over the class-level one; the other field
   * asks the class adapter, which has no value, and keeps its initial value.
   */
  method FieldAdapterOverridesClass(values: map<string, string>, env: Env) returns (url: Value, settingUrl: Value)
    requires "PREFIX_URL" in values && values["PREFIX_URL"] == "mocked_PREFIX_URL"
    requires "SETTING_URL" !in values
    ensures url == Str(Template("prop", "mocked_PREFIX_URL"))
    ensures settingUrl == Str("")
  {
    var fieldOptions := Options(Some("PREFIX"), None, None, Some(One(WrappingAdapter(values, "prop"))));
    var classOptions := Options(None, None, None, Some(One(RecordAdapter(values))));
    var cls := new Entity.Declare(map["url" := Str(""), "settingUrl" := Str("")]);
    var fd := Config.Config(fieldOptions);
    var cd := Config.Config(classOptions);
    FieldThenClassSlots(fieldOptions, "url", classOptions, "settingUrl");
    assert Merge(classOptions, fieldOptions) == fieldOptions;
    var r1 := Decorate(fd.value, cls, "url", Static, env);
    var between := cls.statics;
    assert between["settingUrl"] == Str("");
    var r2 := Decorate(cd.value, cls, "", Static, env);
    FieldAdapterBoundUrl(values, env, fieldOptions, cls.VisibleSlots(), between);
    FieldAdapterBoundSettingUrl(values, env, classOptions, cls.VisibleSlots(), between);
    url := cls.statics["url"];
    settingUrl := cls.statics["settingUrl"];
  }

  /**
   * An instance field's getter resolves on every read, so a later read sees
   * a changed environment; assigning to the field changes nothing.
   */
  method InstanceFieldRereads(env: Env, later: Env) returns (url: Option<Value>, urlLater: Option<Value>)
    requires "URL" in env && env["URL"] == "mocked_URL"
    requires "URL" in later && later["URL"] == "changed_URL"
    ensures url == Some(Str("mocked_URL"))
    ensures urlLater == Some(Str("changed_URL"))
  {
    var proto := new Entity.Declare(map[]);
    var d := Config.Config(Empty);
    var r := Decorate(d.value, proto, "url", Instance, env);
    var accessor := r.value.value;
    GenerateKeyShape("url");
    GenerateKeyShape("");
    OnlyFieldSlot(Empty, "url");
    KeyUrl(Empty);
    ReadsEnv(Empty, "url", Undefined, env, "URL");
    ReadsEnv(Empty, "url", Undefined, later, "URL");
    accessor.Set(Str("assigned"));
    url := accessor.Get(env);
    urlLater := accessor.Get(later);
  }

  /**
   * `scope({ url: "1234", settingUrl: null })` replaces both fields, `null`
   * included, and leaves the source class as it was.
   */
  method ScopeOverridesFields() returns (url: Value, settingUrl: Value, otherUrl: Value, sourceUrl: Value)
    ensures url == Str("1234")
    ensures settingUrl == Null
    ensures otherUrl == Str("initializedOtherUrl")
    ensures sourceUrl == Str("initializedUrl")
  {
    var source := new Entity.Declare(map["url" := Str("initializedUrl"), "settingUrl" := Str("initializedSettingUrl"), "otherUrl" := Str("initializedOtherUrl")]);
    var r := Scope.Scope(map["url" := Str("1234"), "settingUrl" := Null], source, "");
    var scoped := r.value;
    NotBuiltIn("url");
    NotBuiltIn("settingUrl");
    NotBuiltIn("otherUrl");
    url := scoped.statics["url"];
    settingUrl := scoped.statics["settingUrl"];
    otherUrl := scoped.statics["otherUrl"];
    sourceUrl := source.statics["url"];
  }

  /** `target[name]` on a subclass without an own `port` reads the parent's, and `undefined` when nobody has one. */
  method InheritedStaticRead() returns (port: Value, missing: Value)
    ensures port == Num(1)
    ensures missing == Undefined
  {
    var base := new Entity.Declare(map["port" := Num(1)]);
    var sub := new Entity.Extend(base);
    port := sub.Get("port");
    missing := sub.Get("host");
  }
}
