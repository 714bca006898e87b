/** Building a configuration from a `codegen.properties` resource
    (codegen/config/CodeGenConfigLoader.java). The classpath lookup and `Properties.load` are
    replaced by the state of the resource handed in. */
module CodeGenConfigLoader {
  import opened Strings
  import opened CodeGenConfig

  type Properties = map<string, string>

  /** What looking up and loading the resource produced. */
  datatype Resource = NotFound | ReadFailed(message: string) | Loaded(properties: Properties)

  const DefaultConfigFile := "codegen.properties"
  const DefaultBasePackage := "com.example.demo.model"

  /** `Properties.getProperty(key, default)`. */
  function GetProperty(p: Properties, key: string, default: string): (r: string)
    ensures key in p ==> r == p[key]
    ensures key !in p ==> r == default
  {
    if key in p then p[key] else default
  }

  /** `Boolean.parseBoolean`: true exactly for `"true"` in any letter case. */
  predicate ParseBoolean(s: string) {
    EqualsIgnoreCase(s, "true")
  }

  /** `getBooleanProperty`: the default when the key is absent, otherwise `parseBoolean`. */
  function GetBooleanProperty(p: Properties, key: string, default: bool): (r: bool)
    ensures key !in p ==> r == default
    ensures key in p ==> (r <==> |p[key]| == 4 && forall i | 0 <= i < 4 :: ToUpper(p[key][i]) == "TRUE"[i])
  {
    if key !in p then default else ParseBoolean(p[key])
  }

  /** The key holding a layer's package suffix, `codegen.package.<layer>`. */
  function SuffixKey(layer: string): string {
    "codegen.package." + layer
  }

  /** The key holding a template's flag, `codegen.template.<name>.enabled`. */
  function FlagKey(name: string): string {
    "codegen.template." + name + ".enabled"
  }

  /** Every key the loader reads: three plain keys, one suffix key per layer and one flag key per
      listed template. */
  const RecognizedKeys: set<string> :=
    {"codegen.output.dir", "codegen.base.package", "codegen.entity.package.suffix"}
    + (set layer | layer in DefaultPackageSuffixes :: SuffixKey(layer))
    + (set name | name in DefaultTemplateEnabled :: FlagKey(name))

  /** The layer-suffix section of `buildConfigFromProperties`: each of the five layers reads
      `codegen.package.<layer>`, defaulting to the same suffix the builder uses. */
  function PackageSuffixesFrom(p: Properties): (m: map<string, string>)
    ensures m.Keys == DefaultPackageSuffixes.Keys
    ensures forall layer | layer in DefaultPackageSuffixes ::
      m[layer] == GetProperty(p, SuffixKey(layer), DefaultPackageSuffixes[layer])
  {
    map layer | layer in DefaultPackageSuffixes :: GetProperty(p, SuffixKey(layer), DefaultPackageSuffixes[layer])
  }

  /** The template-flag section of `buildConfigFromProperties`: exactly six flags are read, each
      defaulting to true. */
  function TemplateFlagsFrom(p: Properties): (m: map<string, bool>)
    ensures m.Keys == DefaultTemplateEnabled.Keys
    ensures forall name | name in DefaultTemplateEnabled ::
      m[name] == GetBooleanProperty(p, FlagKey(name), true)
  {
    map name | name in DefaultTemplateEnabled :: GetBooleanProperty(p, FlagKey(name), true)
  }

  /** `buildConfigFromProperties`. */
  function BuildConfigFromProperties(p: Properties): (c: Config)
    ensures c.outputDir == GetProperty(p, "codegen.output.dir", DefaultOutputDir)
    ensures c.basePackage == Wrappers.Some(GetProperty(p, "codegen.base.package", DefaultBasePackage))
    ensures c.testPackage.None?
    ensures c.entityPackageSuffix == GetProperty(p, "codegen.entity.package.suffix", DefaultEntityPackageSuffix)
    ensures c.packageSuffixes == PackageSuffixesFrom(p)
    ensures c.templateEnabled == TemplateFlagsFrom(p)
  {
    Config(
      GetProperty(p, "codegen.output.dir", "src/main/java"),
      Wrappers.Some(GetProperty(p, "codegen.base.package", "com.example.demo.model")),
      Wrappers.None,
      GetProperty(p, "codegen.entity.package.suffix", ".dal.entity"),
      PackageSuffixesFrom(p),
      TemplateFlagsFrom(p))
  }

  /** `createDefaultConfig`: the builder defaults with base package `com.example.demo.model`. */
  function CreateDefaultConfig(): (c: Config)
    ensures c == BuildWithBasePackage(DefaultBasePackage)
  {
    Builder().(basePackage := Wrappers.Some("com.example.demo.model"))
  }

  /** `loadFromClasspath`: a missing or unreadable resource falls back to the default config. */
  function LoadFromClasspath(resource: Resource): (c: Config)
    ensures !resource.Loaded? ==> c == CreateDefaultConfig()
    ensures resource.Loaded? ==> c == BuildConfigFromProperties(resource.properties)
  {
    match resource
    case NotFound => CreateDefaultConfig()
    case ReadFailed(_) => CreateDefaultConfig()
    case Loaded(p) => BuildConfigFromProperties(p)
  }

  /** An empty resource yields exactly the default configuration. */
  lemma EmptyPropertiesGiveDefaults()
    ensures BuildConfigFromProperties(map[]) == CreateDefaultConfig()
  {
    var c := BuildConfigFromProperties(map[]);
    assert c.packageSuffixes == DefaultPackageSuffixes;
    assert c.templateEnabled == DefaultTemplateEnabled;
  }

  /** `p1` and `p2` hold the same value, or both nothing, under `key`. */
  predicate AgreeOn(p1: Properties, p2: Properties, key: string) {
    (key in p1 <==> key in p2) && (key in p1 ==> p1[key] == p2[key])
  }

  lemma SuffixesAgree(p1: Properties, p2: Properties)
    requires forall layer | layer in DefaultPackageSuffixes :: AgreeOn(p1, p2, SuffixKey(layer))
    ensures PackageSuffixesFrom(p1) == PackageSuffixesFrom(p2)
  {
    var s1, s2 := PackageSuffixesFrom(p1), PackageSuffixesFrom(p2);
    assert forall layer | layer in s1 :: s1[layer] == s2[layer];
  }

  lemma FlagsAgree(p1: Properties, p2: Properties)
    requires forall name | name in DefaultTemplateEnabled :: AgreeOn(p1, p2, FlagKey(name))
    ensures TemplateFlagsFrom(p1) == TemplateFlagsFrom(p2)
  {
    var f1, f2 := TemplateFlagsFrom(p1), TemplateFlagsFrom(p2);
    assert forall name | name in f1 :: f1[name] == f2[name];
  }

  /** Keys outside `RecognizedKeys` have no effect on the configuration built. */
  lemma UnrecognizedKeysIgnored(p1: Properties, p2: Properties)
    requires forall k | k in RecognizedKeys :: AgreeOn(p1, p2, k)
    ensures BuildConfigFromProperties(p1) == BuildConfigFromProperties(p2)
  {
    RecognizedKeysCover();
    SuffixesAgree(p1, p2);
    FlagsAgree(p1, p2);
    assert AgreeOn(p1, p2, "codegen.output.dir");
    assert AgreeOn(p1, p2, "codegen.base.package");
    assert AgreeOn(p1, p2, "codegen.entity.package.suffix");
  }

  lemma RecognizedKeysCover()
    ensures "codegen.output.dir" in RecognizedKeys && "codegen.base.package" in RecognizedKeys
    ensures "codegen.entity.package.suffix" in RecognizedKeys
    ensures forall layer | layer in DefaultPackageSuffixes :: SuffixKey(layer) in RecognizedKeys
    ensures forall name | name in DefaultTemplateEnabled :: FlagKey(name) in RecognizedKeys
  {
  }

  /** Whatever the properties say, `controller`, `convertor` and `repository` stay disabled:
      their flags are never read. */
  lemma UnreadTemplatesStayDisabled(p: Properties)
    ensures !IsTemplateEnabled(BuildConfigFromProperties(p), "controller")
    ensures !IsTemplateEnabled(BuildConfigFromProperties(p), "convertor")
    ensures !IsTemplateEnabled(BuildConfigFromProperties(p), "repository")
  {
    UnlistedTemplates();
  }

  /** The keys as they appear in a properties file. */
  lemma KeySpelling()
    ensures SuffixKey("serviceImpl") == "codegen.package.serviceImpl"
    ensures FlagKey("mapstruct") == "codegen.template.mapstruct.enabled"
  {
  }

  /** Only the exact word `true`, in any letter case, turns a flag on. */
  lemma ParseBooleanExamples()
    ensures ParseBoolean("true") && ParseBoolean("TRUE") && ParseBoolean("True")
    ensures !ParseBoolean("yes") && !ParseBoolean("1") && !ParseBoolean("false") && !ParseBoolean("")
  {
  }
}
