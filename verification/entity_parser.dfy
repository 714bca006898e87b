/** The metadata record handed to every template (codegen/core/EntityMetadata.java). */
module EntityMetadata {
  import opened JavaSource

  datatype Metadata = Metadata(
    className: string,
    packageName: string,
    basePackage: string,
    classJavadoc: string,
    idType: string,
    fields: seq<FieldDeclaration>,
    entity: EntityRef)
}

/** Locating, reading and summarising one entity class (codegen/core/EntityParser.java). The
    source tree is a map from file path to parsed compilation unit: a path absent from the map is
    a file that does not exist. */
module EntityParser {
  import opened Wrappers
  import opened Strings
  import opened JavaSource
  import opened CodeGenConfig
  import opened EntityMetadata
  import TemplateUtils

  type SourceTree = map<string, CompilationUnit>

  /** The `IllegalArgumentException`s `parse` throws, with their messages' subjects. */
  datatype ParseError =
    | SourceNotFound(path: string)
    | ClassNotFound(className: string)
    | NoIdField(message: string)

  /** `config.getOutputDir() + "/" + <class name with '.' replaced by '/'> + ".java"`. */
  function SourcePath(c: Config, entity: EntityRef): (r: string)
    ensures r == c.outputDir + "/" + Replace(entity.Name(), '.', '/') + ".java"
    ensures forall i | |c.outputDir| + 1 <= i < |r| - 5 :: r[i] != '.'
  {
    var classPath := Replace(entity.Name(), '.', '/') + ".java";
    c.outputDir + "/" + classPath
  }

  /** `extractBasePackage`: cut the package at the last occurrence of the entity-package suffix,
      unless the suffix is absent or occurs only at index 0. The cut is not anchored at the end. */
  function ExtractBasePackage(fullPackage: string, suffix: string): (r: string)
    ensures (forall i | 0 < i :: !OccursAt(fullPackage, suffix, i)) ==> r == fullPackage
    ensures forall i | 0 < i && OccursAt(fullPackage, suffix, i) ::
      (forall j | i < j :: !OccursAt(fullPackage, suffix, j)) ==> r == fullPackage[..i]
  {
    var entityIndex := LastIndexOf(fullPackage, suffix);
    if entityIndex > 0 then fullPackage[..entityIndex] else fullPackage
  }

  function DefaultJavadoc(className: string): string {
    "Generated class for " + className
  }

  /** `parse`: the missing file, the missing class and the missing `@Id` field are the error
      cases, checked in that order; otherwise the metadata of the first class so named. */
  function Parse(c: Config, entity: EntityRef, sources: SourceTree): (r: Result<Metadata, ParseError>)
    ensures SourcePath(c, entity) !in sources ==> r == Failure(SourceNotFound(SourcePath(c, entity)))
    ensures SourcePath(c, entity) in sources && ClassByName(sources[SourcePath(c, entity)], entity.simpleName).None?
      ==> r == Failure(ClassNotFound(entity.simpleName))
    ensures r.Success? <==>
      && SourcePath(c, entity) in sources
      && ClassByName(sources[SourcePath(c, entity)], entity.simpleName).Some?
      && TemplateUtils.GetIdFieldType(ClassByName(sources[SourcePath(c, entity)], entity.simpleName).value).Success?
    ensures r.Success? ==>
      var cls := ClassByName(sources[SourcePath(c, entity)], entity.simpleName).value;
      && r.value.className == entity.simpleName
      && r.value.packageName == entity.packageName
      && r.value.basePackage == ExtractBasePackage(entity.packageName, c.entityPackageSuffix)
      && r.value.classJavadoc == cls.javadoc.GetOr(DefaultJavadoc(entity.simpleName))
      && r.value.idType == TemplateUtils.GetIdFieldType(cls).value
      && r.value.fields == cls.fields
      && r.value.entity == entity
    ensures r.Failure? && r.error.NoIdField? ==> r.error.message == TemplateUtils.NoIdMessage(entity.simpleName)
  {
    var sourcePath := SourcePath(c, entity);
    if sourcePath !in sources then Failure(SourceNotFound(sourcePath))
    else
      var className := entity.simpleName;
      match ClassByName(sources[sourcePath], className)
      case None => Failure(ClassNotFound(className))
      case Some(parsedClass) =>
        var basePackage := ExtractBasePackage(entity.packageName, c.entityPackageSuffix);
        var classJavadoc := parsedClass.javadoc.GetOr(DefaultJavadoc(className));
        match TemplateUtils.GetIdFieldType(parsedClass)
        case Failure(message) => Failure(NoIdField(message))
        case Success(idType) =>
          Success(Metadata(className, entity.packageName, basePackage, classJavadoc, idType,
                           parsedClass.fields, entity))
  }

  /** A field marked `@Id` is what decides success once the class is found: the identifier type
      is the first `@Id` field's declared type. */
  lemma IdTypeIsFirstIdField(c: Config, entity: EntityRef, sources: SourceTree)
    ensures Parse(c, entity, sources).Success? ==> exists i | 0 <= i < |Parse(c, entity, sources).value.fields| ::
      var fs := Parse(c, entity, sources).value.fields;
      && TemplateUtils.IsIdField(fs[i])
      && (forall j | 0 <= j < i :: !TemplateUtils.IsIdField(fs[j]))
      && Parse(c, entity, sources).value.idType == fs[i].FirstVariable().typ
  {
  }

  /** The suffix is cut wherever it last occurs, not only at the end. */
  lemma ExtractBasePackageInside()
    ensures ExtractBasePackage("a.dal.entity.sub", ".dal.entity") == "a"
  {
    var t := ".dal.entity";
    var q := "a.dal.entity.sub";
    assert OccursAt(q, t, 1);
    forall j | 1 < j
      ensures !OccursAt(q, t, j)
    {
      if j == 2 || j == 3 || j == 4 {
        MismatchAt(q, t, j, 0);
      } else if j == 5 {
        MismatchAt(q, t, j, 1);
      }
    }
  }

  /** A package that is the suffix alone is kept whole: nothing precedes the occurrence. */
  lemma ExtractBasePackageSuffixOnly()
    ensures ExtractBasePackage(".dal.entity", ".dal.entity") == ".dal.entity"
  {
    var t := ".dal.entity";
    assert forall i | 0 < i :: !OccursAt(t, t, i);
  }
}
