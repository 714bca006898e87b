/** The Spring Data repository template (codegen/template/RepositoryCodeTemplate.java): an
    interface extending `JpaRepository<Entity, Long>`. */
module RepositoryCodeTemplate {
  import opened JavaPoet
  import opened Javadoc
  import opened CodeGenConfig
  import opened EntityMetadata
  import Frameworks

  const TemplateName := "repository"

  /** The key type argument is always `Long`, whatever the entity's identifier type. */
  function Generate(md: Metadata, c: Config): (f: JavaFile)
    ensures f.packageName == GetFullPackage(c, "repository")
    ensures f.typeSpec.kind == InterfaceKind
    ensures f.typeSpec.name == md.className + "Repository"
    ensures f.typeSpec.modifiers == [Public]
    ensures f.typeSpec.superinterfaces
      == [Parameterized(Frameworks.JpaRepository, [ClassRef(md.packageName, md.className), JavaLang("Long")])]
    ensures f.typeSpec.javadoc == RepositoryInterface(md.classJavadoc)
    ensures f.typeSpec.fields == [] && f.typeSpec.methods == []
  {
    var entityType := ClassRef(md.packageName, md.className);
    var repositoryInterface := Parameterized(Frameworks.JpaRepository, [entityType, JavaLang("Long")]);
    var spec := TypeSpec(InterfaceKind, md.className + "Repository", [Public], [],
                         RepositoryInterface(md.classJavadoc), [repositoryInterface], [], []);
    JavaFile(GetFullPackage(c, "repository"), spec)
  }

  /** Neither the identifier type nor the fields influence the repository. */
  lemma IdTypeAndFieldsHaveNoEffect(md: Metadata, c: Config, idType: string, fields: seq<JavaSource.FieldDeclaration>)
    ensures Generate(md.(idType := idType, fields := fields), c) == Generate(md, c)
  {
  }
}
