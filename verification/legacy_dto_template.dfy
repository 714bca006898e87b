/** The legacy DTO template (template/DtoTemplate.java): the same Lombok `@Data` class as the
    DTO code template, but from raw arguments and into the hard-coded package `<package>.dto`. */
module DtoTemplate {
  import opened JavaSource
  import opened JavaPoet
  import opened Javadoc
  import opened Properties
  import Frameworks
  import LegacyTemplateUtils

  function Generate(entityName: string, packageName: string, fields: seq<FieldDeclaration>, classJavadoc: string): (f: JavaFile)
    ensures f.packageName == packageName + ".dto"
    ensures f.typeSpec.kind == ClassKind
    ensures f.typeSpec.name == entityName + "Dto"
    ensures f.typeSpec.javadoc == Plain(classJavadoc + "\n")
    ensures f.typeSpec.modifiers == [Public]
    ensures f.typeSpec.annotations == [Marker(Frameworks.LombokData)]
    ensures f.typeSpec.superinterfaces == [] && f.typeSpec.methods == []
    ensures |f.typeSpec.fields| == |fields|
    ensures forall i | 0 <= i < |fields| ::
      IsPropertyOf(f.typeSpec.fields[i], fields[i], LegacyTemplateUtils.ResolveTypeName(fields[i].FirstVariable().typ))
  {
    var dto := TypeSpec(ClassKind, entityName + "Dto", [Public], [Marker(Frameworks.LombokData)],
                        Plain(classJavadoc + "\n"), [], PropertiesOf(fields, LegacyTemplateUtils.ResolveTypeName), []);
    JavaFile(packageName + ".dto", dto)
  }
}

/** The legacy DTO template and the DTO code template emit the same properties for the same
    fields, although they resolve types through different copies of the helpers. */
module DtoTemplates {
  import opened JavaPoet
  import opened Javadoc
  import opened CodeGenConfig
  import opened EntityMetadata
  import opened Properties
  import DtoTemplate
  import DtoCodeTemplate
  import TemplateUtils
  import LegacyTemplateUtils

  lemma SameResolverSameProperties(fields: seq<JavaSource.FieldDeclaration>)
    ensures PropertiesOf(fields, LegacyTemplateUtils.ResolveTypeName) == PropertiesOf(fields, TemplateUtils.ResolveTypeName)
  {
    var a := PropertiesOf(fields, LegacyTemplateUtils.ResolveTypeName);
    var b := PropertiesOf(fields, TemplateUtils.ResolveTypeName);
    forall i | 0 <= i < |fields|
      ensures a[i] == b[i]
    {
      var t := fields[i].FirstVariable().typ;
      assert LegacyTemplateUtils.ResolveTypeName(t) == TemplateUtils.ResolveTypeName(t);
    }
  }

  /** With the DTO suffix configured to `.dto`, both templates produce the same file for an entity. */
  lemma LegacyDtoAgrees(md: Metadata, c: Config)
    requires GetFullPackage(c, "dto") == md.packageName + ".dto"
    ensures DtoTemplate.Generate(md.className, md.packageName, md.fields, md.classJavadoc) == DtoCodeTemplate.Generate(md, c)
  {
    SameResolverSameProperties(md.fields);
  }
}
