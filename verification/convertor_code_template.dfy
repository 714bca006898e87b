/** The MapStruct converter template (codegen/template/ConvertorCodeTemplate.java): an interface
    with the two conversions between the entity and its DTO. Its packages are derived from the
    metadata's base package with hard-coded suffixes; the configuration is not read. */
module ConvertorCodeTemplate {
  import opened Wrappers
  import opened JavaPoet
  import opened Javadoc
  import opened CodeGenConfig
  import opened EntityMetadata
  import Frameworks

  const TemplateName := "convertor"

  function EntityType(md: Metadata): TypeRef {
    ClassRef(md.basePackage + ".dal.entity", md.className)
  }

  function DtoType(md: Metadata): TypeRef {
    ClassRef(md.basePackage + ".dto", md.className + "Dto")
  }

  function Generate(md: Metadata, c: Config): (f: JavaFile)
    ensures f.packageName == md.basePackage + ".mapstruct"
    ensures f.typeSpec.kind == InterfaceKind
    ensures f.typeSpec.name == md.className + "MapStructMapper"
    ensures f.typeSpec.modifiers == [Public]
    ensures f.typeSpec.annotations == [Marker(Frameworks.MapStructMapper)]
    ensures f.typeSpec.javadoc == MapStructInterface(md.className)
    ensures MethodNames(f.typeSpec) == ["toEntity", "toDto"]
    ensures f.typeSpec.methods[0].returnType == Some(EntityType(md))
    ensures f.typeSpec.methods[1].returnType == Some(DtoType(md))
    // each conversion takes what the other one returns
    ensures f.typeSpec.methods[0].parameters == [Param(f.typeSpec.methods[1].returnType.value, "dto")]
    ensures f.typeSpec.methods[1].parameters == [Param(f.typeSpec.methods[0].returnType.value, "entity")]
    ensures forall m | m in f.typeSpec.methods :: m.modifiers == [Public, Abstract] && m.statements == []
  {
    var entityName := md.className;
    var toEntity := MethodSpec("toEntity", [Public, Abstract], [], Some(EntityType(md)),
      [Param(DtoType(md), "dto")], [], ToEntity(entityName));
    var toDto := MethodSpec("toDto", [Public, Abstract], [], Some(DtoType(md)),
      [Param(EntityType(md), "entity")], [], ToDto(entityName));
    var mapper := TypeSpec(InterfaceKind, entityName + "MapStructMapper", [Public], [Marker(Frameworks.MapStructMapper)],
      MapStructInterface(entityName),
      [], [], [toEntity, toDto]);
    JavaFile(md.basePackage + ".mapstruct", mapper)
  }

  /** The configuration has no influence on the converter. */
  lemma ConfigHasNoEffect(md: Metadata, c1: Config, c2: Config)
    ensures Generate(md, c1) == Generate(md, c2)
  {
  }
}
