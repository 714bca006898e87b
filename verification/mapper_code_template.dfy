/** The MyBatis-Flex mapper template (codegen/template/MapperCodeTemplate.java): an interface
    extending `BaseMapper<Entity>`. */
module MapperCodeTemplate {
  import opened JavaPoet
  import opened Javadoc
  import opened CodeGenConfig
  import opened EntityMetadata
  import Frameworks

  const TemplateName := "mapper"

  /** The identifier type is resolved by the source but never used, so it is not read here. */
  function Generate(md: Metadata, c: Config): (f: JavaFile)
    ensures f.packageName == GetFullPackage(c, "mapper")
    ensures f.typeSpec.kind == InterfaceKind
    ensures f.typeSpec.name == md.className + "FlexMapper"
    ensures f.typeSpec.modifiers == [Public]
    ensures f.typeSpec.superinterfaces == [Parameterized(Frameworks.BaseMapper, [ClassRef(md.packageName, md.className)])]
    ensures f.typeSpec.javadoc == AfterEntityDoc(md.classJavadoc, FlexMapperInterface(md.className))
    ensures f.typeSpec.fields == [] && f.typeSpec.methods == []
  {
    var entityType := ClassRef(md.packageName, md.className);
    var mapper := TypeSpec(InterfaceKind, md.className + "FlexMapper", [Public], [],
                           AfterEntityDoc(md.classJavadoc, FlexMapperInterface(md.className)),
                           [Parameterized(Frameworks.BaseMapper, [entityType])], [], []);
    JavaFile(GetFullPackage(c, "mapper"), mapper)
  }

  /** The resolved identifier type has no effect on the output. */
  lemma IdTypeHasNoEffect(md: Metadata, c: Config, idType: string)
    ensures Generate(md.(idType := idType), c) == Generate(md, c)
  {
  }
}
