/** The configuration-driven service-interface template
    (codegen/template/ServiceImplCodeTemplate.java). Despite its file name it emits the service
    interface, under the same template name as `ServiceCodeTemplate`, with its packages taken from
    the configuration. */
module ServiceImplCodeTemplate {
  import opened Wrappers
  import opened JavaPoet
  import opened Javadoc
  import opened CodeGenConfig
  import opened EntityMetadata
  import opened ServiceSignature
  import TemplateUtils

  const TemplateName := "service"

  function EntityType(md: Metadata): TypeRef {
    ClassRef(md.packageName, md.className)
  }

  function QueryType(md: Metadata, c: Config): TypeRef {
    ClassRef(GetFullPackage(c, "dto"), md.className + "Query")
  }

  function Generate(md: Metadata, c: Config): (f: JavaFile)
    ensures f.packageName == GetFullPackage(c, "service")
    ensures f.typeSpec.kind == InterfaceKind
    ensures f.typeSpec.name == md.className + "Service"
    ensures f.typeSpec.modifiers == [Public]
    ensures f.typeSpec.javadoc == AfterEntityDoc(md.classJavadoc, ServiceInterface(md.className))
    ensures DeclaresQueryService(f.typeSpec, EntityType(md), TemplateUtils.ResolveTypeName(md.idType), QueryType(md, c))
  {
    var e := md.className;
    var methods := DeclareEach(QueryOperations(EntityType(md), TemplateUtils.ResolveTypeName(md.idType), QueryType(md, c)),
      [SelectByIdZh(e), InsertZh(e), UpdateByIdZh(e), DeleteByIdZh(e), SelectListZh(e), SelectPageZh(e)]);
    var service := TypeSpec(InterfaceKind, e + "Service", [Public], [],
      AfterEntityDoc(md.classJavadoc, ServiceInterface(e)), [], [], methods);
    JavaFile(GetFullPackage(c, "service"), service)
  }

  /** The entity's fields have no influence on the service interface: filtering goes through the
      query object. */
  lemma FieldsHaveNoEffect(md: Metadata, c: Config, fields: seq<JavaSource.FieldDeclaration>)
    ensures Generate(md.(fields := fields), c) == Generate(md, c)
  {
  }
}
