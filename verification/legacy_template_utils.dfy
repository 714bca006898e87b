/** The older copy of the type and column helpers (TemplateUtils.java at the package root), used
    by the legacy templates. It is written here the way that copy executes (a table lookup and
    loops over the declarations) and each member is proved to agree with `TemplateUtils`. */
module LegacyTemplateUtils {
  import opened Wrappers
  import opened JavaSource
  import opened JavaPoet
  import TemplateUtils

  const JavaLangTable: map<string, TypeRef> := map[
    "Long" := JavaLang("Long"),
    "String" := JavaLang("String"),
    "Integer" := JavaLang("Integer")]

  /** `resolveTypeName`: the same three-entry table with a best-guess fallback. */
  function ResolveTypeName(typ: string): (r: TypeRef)
    ensures r == TemplateUtils.ResolveTypeName(typ)
    ensures r.ClassRef? <==> typ in TemplateUtils.KnownTypes
  {
    if typ in JavaLangTable then JavaLangTable[typ] else BestGuess(typ)
  }

  /** `getIdFieldType`: scan the fields in order and return the first `@Id` field's type. */
  method GetIdFieldType(cls: TypeDeclaration) returns (r: Result<string, string>)
    ensures r == TemplateUtils.GetIdFieldType(cls)
  {
    for i := 0 to |cls.fields|
      invariant forall j | 0 <= j < i :: !TemplateUtils.IsIdField(cls.fields[j])
    {
      if IsAnnotationPresent(cls.fields[i], TemplateUtils.IdAnnotation) {
        return Success(cls.fields[i].FirstVariable().typ);
      }
    }
    return Failure("No @Id field found in " + cls.name);
  }

  /** `getColumnName`: find the first `@Column`, then read its single member or the first
      `value` pair; every other shape yields the default name. */
  method GetColumnName(f: FieldDeclaration, defaultName: string)
    returns (r: Result<string, TemplateUtils.ColumnError>)
    ensures r == TemplateUtils.GetColumnName(f, defaultName)
  {
    var found: Option<Annotation> := None;
    var i := 0;
    while i < |f.annotations| && found.None?
      invariant 0 <= i <= |f.annotations|
      invariant found.None? ==> forall j | 0 <= j < i :: AnnotationName(f.annotations[j]) != "Column"
      invariant found.Some? ==> FirstNamed(f.annotations, "Column", i - 1) && found.value == f.annotations[i - 1]
    {
      if AnnotationName(f.annotations[i]) == "Column" {
        found := Some(f.annotations[i]);
      }
      i := i + 1;
    }
    if found.None? {
      return Success(defaultName);
    }
    match found.value
    case MarkerAnnotation(_) =>
      r := Success(defaultName);
    case SingleMemberAnnotation(_, v) =>
      r := TemplateUtils.StringLiteralOf(v);
    case NormalAnnotation(_, ps) =>
      r := Success(defaultName);
      var k := 0;
      while k < |ps|
        invariant 0 <= k <= |ps|
        invariant forall j | 0 <= j < k :: ps[j].name != "value"
      {
        if ps[k].name == "value" {
          assert FirstPairNamed(ps, "value", k);
          return TemplateUtils.StringLiteralOf(ps[k].value);
        }
        k := k + 1;
      }
  }
}
