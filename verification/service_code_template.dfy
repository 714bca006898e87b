/** The service-interface template registered by default (codegen/template/ServiceCodeTemplate.java).
    Its packages are the metadata's base package with hard-coded suffixes: neither the configured
    entity suffix nor the configured layer suffixes are read. */
module ServiceCodeTemplate {
  import opened Wrappers
  import opened JavaPoet
  import opened Javadoc
  import opened CodeGenConfig
  import opened EntityMetadata
  import opened ServiceSignature
  import TemplateUtils

  const TemplateName := "service"

  function EntityType(md: Metadata): TypeRef {
    ClassRef(md.basePackage + ".dal.entity", md.className)
  }

  function QueryType(md: Metadata): TypeRef {
    ClassRef(md.basePackage + ".dto", md.className + "Query")
  }

  function Generate(md: Metadata, c: Config): (f: JavaFile)
    ensures f.packageName == md.basePackage + ".service"
    ensures f.typeSpec.kind == InterfaceKind
    ensures f.typeSpec.name == md.className + "Service"
    ensures f.typeSpec.modifiers == [Public]
    ensures f.typeSpec.javadoc == ServiceInterface(md.className)
    ensures DeclaresQueryService(f.typeSpec, EntityType(md), TemplateUtils.ResolveTypeName(md.idType), QueryType(md))
  {
    var e := md.className;
    var ops := QueryOperations(EntityType(md), TemplateUtils.ResolveTypeName(md.idType), QueryType(md));
    var methods := DeclareEach(ops, [SelectById(e), Insert(e), UpdateById(e), DeleteById(e), SelectList(e), SelectPage(e)]);
    var service := TypeSpec(InterfaceKind, e + "Service", [Public], [], ServiceInterface(e), [], [], methods);
    JavaFile(md.basePackage + ".service", service)
  }

  /** The configuration has no influence on this template's output. */
  lemma ConfigHasNoEffect(md: Metadata, c1: Config, c2: Config)
    ensures Generate(md, c1) == Generate(md, c2)
  {
  }
}
