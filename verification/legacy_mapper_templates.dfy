/** The legacy MapStruct converter (template/MapStructMapperTemplate.java): the two conversions
    between the entity in `packageName` and its DTO in `packageName.dto`. */
module MapStructMapperTemplate {
  import opened Wrappers
  import opened JavaPoet
  import opened Javadoc
  import Frameworks

  function EntityType(entityName: string, packageName: string): TypeRef {
    ClassRef(packageName, entityName)
  }

  function DtoType(entityName: string, packageName: string): TypeRef {
    ClassRef(packageName + ".dto", entityName + "Dto")
  }

  function Generate(entityName: string, packageName: string, classJavadoc: string): (f: JavaFile)
    ensures f.packageName == packageName + ".mapstruct"
    ensures f.typeSpec.kind == InterfaceKind
    ensures f.typeSpec.name == entityName + "MapStructMapper"
    ensures f.typeSpec.modifiers == [Public]
    ensures f.typeSpec.annotations == [Marker(Frameworks.MapStructMapper)]
    ensures f.typeSpec.javadoc == AfterEntityDoc(classJavadoc, MapStructInterface(entityName))
    ensures MethodNames(f.typeSpec) == ["toEntity", "toDto"]
    ensures f.typeSpec.methods[0].returnType == Some(EntityType(entityName, packageName))
    ensures f.typeSpec.methods[1].returnType == Some(DtoType(entityName, packageName))
    // each conversion takes what the other one returns
    ensures f.typeSpec.methods[0].parameters == [Param(f.typeSpec.methods[1].returnType.value, "dto")]
    ensures f.typeSpec.methods[1].parameters == [Param(f.typeSpec.methods[0].returnType.value, "entity")]
    ensures forall i | 0 <= i < 2 :: f.typeSpec.methods[i].modifiers == [Public, Abstract] && f.typeSpec.methods[i].statements == []
  {
    var entityType := EntityType(entityName, packageName);
    var dtoType := DtoType(entityName, packageName);
    var toEntity := MethodSpec("toEntity", [Public, Abstract], [], Some(entityType), [Param(dtoType, "dto")], [],
      ToEntity(entityName));
    var toDto := MethodSpec("toDto", [Public, Abstract], [], Some(dtoType), [Param(entityType, "entity")], [],
      ToDto(entityName));
    var mapper := TypeSpec(InterfaceKind, entityName + "MapStructMapper", [Public], [Marker(Frameworks.MapStructMapper)],
      AfterEntityDoc(classJavadoc, MapStructInterface(entityName)), [], [], [toEntity, toDto]);
    JavaFile(packageName + ".mapstruct", mapper)
  }
}

/** The legacy MyBatis-Flex mapper (template/MyBatisFlexMapperTemplate.java). Unlike the other
    legacy templates it reads `packageName` as the base package: the entity is looked for in
    `packageName.dal.entity` and the mapper goes to `packageName.dal.mapper`. */
module MyBatisFlexMapperTemplate {
  import opened JavaPoet
  import opened Javadoc
  import Frameworks
  import LegacyTemplateUtils

  function EntityType(entityName: string, packageName: string): TypeRef {
    ClassRef(packageName + ".dal.entity", entityName)
  }

  /** The identifier type is resolved and then not used. */
  function Generate(entityName: string, packageName: string, idType: string, classJavadoc: string): (f: JavaFile)
    ensures f.packageName == packageName + ".dal.mapper"
    ensures f.typeSpec.kind == InterfaceKind
    ensures f.typeSpec.name == entityName + "FlexMapper"
    ensures f.typeSpec.modifiers == [Public]
    ensures f.typeSpec.superinterfaces == [Parameterized(Frameworks.BaseMapper, [EntityType(entityName, packageName)])]
    ensures f.typeSpec.javadoc == AfterEntityDoc(classJavadoc, FlexMapperInterface(entityName))
    ensures f.typeSpec.fields == [] && f.typeSpec.methods == []
  {
    var entityType := EntityType(entityName, packageName);
    var _ := LegacyTemplateUtils.ResolveTypeName(idType);
    var mapper := TypeSpec(InterfaceKind, entityName + "FlexMapper", [Public], [],
                           AfterEntityDoc(classJavadoc, FlexMapperInterface(entityName)),
                           [Parameterized(Frameworks.BaseMapper, [entityType])], [], []);
    JavaFile(packageName + ".dal.mapper", mapper)
  }

  lemma IdTypeHasNoEffect(entityName: string, packageName: string, idType1: string, idType2: string, classJavadoc: string)
    ensures Generate(entityName, packageName, idType1, classJavadoc) == Generate(entityName, packageName, idType2, classJavadoc)
  {
  }
}
