/** The legacy query-object template (template/QueryTemplate.java): a copy of the DTO class,
    named `<Entity>Query`, that the legacy service filters by. */
module QueryTemplate {
  import opened JavaSource
  import opened JavaPoet
  import opened Javadoc
  import opened Properties
  import Frameworks
  import LegacyTemplateUtils
  import DtoTemplate

  function Generate(entityName: string, packageName: string, fields: seq<FieldDeclaration>, classJavadoc: string): (f: JavaFile)
    ensures f.packageName == packageName + ".dto"
    ensures f.typeSpec.kind == ClassKind
    ensures f.typeSpec.name == entityName + "Query"
    ensures f.typeSpec.javadoc == AfterEntityDoc(classJavadoc, QueryObject(entityName))
    ensures f.typeSpec.modifiers == [Public]
    ensures f.typeSpec.annotations == [Marker(Frameworks.LombokData)]
    ensures f.typeSpec.superinterfaces == [] && f.typeSpec.methods == []
    ensures |f.typeSpec.fields| == |fields|
    ensures forall i | 0 <= i < |fields| ::
      IsPropertyOf(f.typeSpec.fields[i], fields[i], LegacyTemplateUtils.ResolveTypeName(fields[i].FirstVariable().typ))
  {
    var query := TypeSpec(ClassKind, entityName + "Query", [Public], [Marker(Frameworks.LombokData)],
                          AfterEntityDoc(classJavadoc, QueryObject(entityName)), [], PropertiesOf(fields, LegacyTemplateUtils.ResolveTypeName), []);
    JavaFile(packageName + ".dto", query)
  }

  /** The query object has the DTO's properties (names, types, order and docs) and lives next to
      it; only the class name and the class comment differ. */
  lemma QueryMirrorsDto(entityName: string, packageName: string, fields: seq<FieldDeclaration>, classJavadoc: string)
    ensures var q := Generate(entityName, packageName, fields, classJavadoc);
      var d := DtoTemplate.Generate(entityName, packageName, fields, classJavadoc);
      && q.typeSpec.fields == d.typeSpec.fields
      && q.packageName == d.packageName
      && q.typeSpec.annotations == d.typeSpec.annotations
      && q.typeSpec.name != d.typeSpec.name
  {
    var q := Generate(entityName, packageName, fields, classJavadoc);
    var d := DtoTemplate.Generate(entityName, packageName, fields, classJavadoc);
    assert q.typeSpec.name[|entityName|..] == "Query";
    assert d.typeSpec.name[|entityName|..] == "Dto";
  }
}
