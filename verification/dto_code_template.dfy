/** The DTO template (codegen/template/DtoCodeTemplate.java): a Lombok `@Data` class with one
    private property per entity field. */
module DtoCodeTemplate {
  import opened JavaPoet
  import opened Javadoc
  import opened CodeGenConfig
  import opened EntityMetadata
  import opened Properties
  import Frameworks
  import TemplateUtils

  const TemplateName := "dto"

  function Generate(md: Metadata, c: Config): (f: JavaFile)
    ensures f.packageName == GetFullPackage(c, "dto")
    ensures f.typeSpec.kind == ClassKind
    ensures f.typeSpec.name == md.className + "Dto"
    ensures f.typeSpec.javadoc == Plain(md.classJavadoc + "\n")
    ensures f.typeSpec.modifiers == [Public]
    ensures f.typeSpec.annotations == [Marker(Frameworks.LombokData)]
    ensures f.typeSpec.superinterfaces == [] && f.typeSpec.methods == []
    ensures |f.typeSpec.fields| == |md.fields|
    ensures forall i | 0 <= i < |md.fields| ::
      IsPropertyOf(f.typeSpec.fields[i], md.fields[i], TemplateUtils.ResolveTypeName(md.fields[i].FirstVariable().typ))
  {
    var dto := TypeSpec(ClassKind, md.className + "Dto", [Public], [Marker(Frameworks.LombokData)],
                        Plain(md.classJavadoc + "\n"), [], PropertiesOf(md.fields, TemplateUtils.ResolveTypeName), []);
    JavaFile(GetFullPackage(c, "dto"), dto)
  }
}
