/** The generator's configuration (codegen/config/CodeGenConfig.java): output root, base package,
    entity-package suffix, and the two string-keyed maps read with `getOrDefault`. */
module CodeGenConfig {
  import opened Wrappers

  /** `basePackage` and `testPackage` are `None` where the builder leaves them null. */
  datatype Config = Config(
    outputDir: string,
    basePackage: Option<string>,
    testPackage: Option<string>,
    entityPackageSuffix: string,
    packageSuffixes: map<string, string>,
    templateEnabled: map<string, bool>)

  const DefaultOutputDir := "src/main/java"
  const DefaultEntityPackageSuffix := ".dal.entity"

  const DefaultPackageSuffixes: map<string, string> := map[
    "dto" := ".dto",
    "mapper" := ".mapper.flex",
    "service" := ".service",
    "serviceImpl" := ".service.impl",
    "query" := ".query"]

  const DefaultTemplateEnabled: map<string, bool> := map[
    "dto" := true,
    "mapper" := true,
    "service" := true,
    "serviceImpl" := true,
    "mapstruct" := true,
    "query" := true]

  /** `CodeGenConfig.builder().build()`: every `@Builder.Default`, no base package. */
  function Builder(): Config {
    Config(DefaultOutputDir, None, None, DefaultEntityPackageSuffix,
           DefaultPackageSuffixes, DefaultTemplateEnabled)
  }

  /** `CodeGenConfig.builder().basePackage(basePackage).build()`. */
  function BuildWithBasePackage(basePackage: string): (c: Config)
    ensures c == Builder().(basePackage := Some(basePackage))
  {
    Config(DefaultOutputDir, Some(basePackage), None, DefaultEntityPackageSuffix,
           DefaultPackageSuffixes, DefaultTemplateEnabled)
  }

  /** Java string concatenation renders a null reference as `"null"`. */
  function JavaString(s: Option<string>): string {
    match s
    case Some(v) => v
    case None => "null"
  }

  /** `getFullPackage(layer)`: the base package followed by the layer's suffix, or by nothing when
      the layer has no suffix. */
  function GetFullPackage(c: Config, layer: string): (r: string)
    ensures layer in c.packageSuffixes ==> r == JavaString(c.basePackage) + c.packageSuffixes[layer]
    ensures layer !in c.packageSuffixes ==> r == JavaString(c.basePackage)
  {
    JavaString(c.basePackage) + (if layer in c.packageSuffixes then c.packageSuffixes[layer] else "")
  }

  /** `isTemplateEnabled(name)`: only a name mapped to `true` is enabled. */
  function IsTemplateEnabled(c: Config, name: string): (r: bool)
    ensures r <==> name in c.templateEnabled && c.templateEnabled[name]
    ensures name !in c.templateEnabled ==> !r
  {
    if name in c.templateEnabled then c.templateEnabled[name] else false
  }

  /** `controller`, `convertor` and `repository` have no entry in the built-in flag map. */
  lemma UnlistedTemplates()
    ensures "controller" !in DefaultTemplateEnabled
    ensures "convertor" !in DefaultTemplateEnabled
    ensures "repository" !in DefaultTemplateEnabled
  {
    assert DefaultTemplateEnabled.Keys == {"dto", "mapper", "service", "serviceImpl", "mapstruct", "query"};
    assert "convertor"[0] != "mapstruct"[0];
    assert "controller"[0] != "serviceImpl"[0];
  }

  /** The built-in default maps: exactly five layer suffixes and six enabled template names, so
      `controller`, `convertor` and `repository` are off and their layers resolve to the base
      package itself. */
  lemma BuilderDefaults(basePackage: string)
    ensures Builder().outputDir == "src/main/java"
    ensures Builder().entityPackageSuffix == ".dal.entity"
    ensures DefaultPackageSuffixes.Keys == {"dto", "mapper", "service", "serviceImpl", "query"}
    ensures DefaultTemplateEnabled.Keys == {"dto", "mapper", "service", "serviceImpl", "mapstruct", "query"}
    ensures forall n | n in DefaultTemplateEnabled :: DefaultTemplateEnabled[n]
    ensures forall n :: IsTemplateEnabled(Builder(), n) <==> n in DefaultTemplateEnabled
    ensures !IsTemplateEnabled(Builder(), "controller")
    ensures !IsTemplateEnabled(Builder(), "convertor")
    ensures !IsTemplateEnabled(Builder(), "repository")
    ensures GetFullPackage(BuildWithBasePackage(basePackage), "dto") == basePackage + ".dto"
    ensures GetFullPackage(BuildWithBasePackage(basePackage), "mapper") == basePackage + ".mapper.flex"
    ensures GetFullPackage(BuildWithBasePackage(basePackage), "controller") == basePackage
    ensures GetFullPackage(BuildWithBasePackage(basePackage), "repository") == basePackage
  {
  }
}
