/** Type and column helpers shared by the templates (codegen/core/TemplateUtils.java). */
module TemplateUtils {
  import opened Wrappers
  import opened Strings
  import opened JavaSource
  import opened JavaPoet

  /** The type names resolved to a fixed `java.lang` class. */
  const KnownTypes: set<string> := {"Long", "String", "Integer"}

  /** `resolveTypeName`: a fixed table with a best-guess fallback; resolution never fails. */
  function ResolveTypeName(typ: string): (r: TypeRef)
    ensures typ in KnownTypes ==> r == JavaLang(typ)
    ensures typ !in KnownTypes ==> r == BestGuess(typ)
  {
    match typ
    case "Long" => JavaLang("Long")
    case "String" => JavaLang("String")
    case "Integer" => JavaLang("Integer")
    case _ => BestGuess(typ)
  }

  const IdAnnotation := "Id"
  const ColumnAnnotation := "Column"

  predicate IsIdField(f: FieldDeclaration) {
    IsAnnotationPresent(f, IdAnnotation)
  }

  /** The index of the first `@Id` field in declaration order, if any. */
  function FirstIdField(fields: seq<FieldDeclaration>): (r: Option<nat>)
    ensures r.None? <==> forall i | 0 <= i < |fields| :: !IsIdField(fields[i])
    ensures r.Some? ==> r.value < |fields| && IsIdField(fields[r.value])
    ensures r.Some? ==> forall j | 0 <= j < r.value :: !IsIdField(fields[j])
  {
    if |fields| == 0 then None
    else if IsIdField(fields[0]) then Some(0)
    else
      match FirstIdField(fields[1..])
      case None => None
      case Some(k) => Some(k + 1)
  }

  function NoIdMessage(className: string): string {
    "No @Id field found in " + className
  }

  /** `getIdFieldType`: the declared type of the first variable of the first `@Id` field, or an
      `IllegalArgumentException` naming the class. */
  function GetIdFieldType(cls: TypeDeclaration): (r: Result<string, string>)
    ensures r.Success? <==> exists i | 0 <= i < |cls.fields| :: IsIdField(cls.fields[i])
    ensures r.Success? ==> exists i | 0 <= i < |cls.fields| ::
      && IsIdField(cls.fields[i])
      && (forall j | 0 <= j < i :: !IsIdField(cls.fields[j]))
      && r.value == cls.fields[i].FirstVariable().typ
    ensures r.Failure? ==> r.error == NoIdMessage(cls.name)
  {
    match FirstIdField(cls.fields)
    case Some(i) => Success(cls.fields[i].FirstVariable().typ)
    case None => Failure(NoIdMessage(cls.name))
  }

  /** Failure of `asStringLiteralExpr()` on a member value that is not a string literal. */
  datatype ColumnError = NotAStringLiteral(text: string)

  function StringLiteralOf(e: Expr): (r: Result<string, ColumnError>)
    ensures r.Success? <==> e.StringLiteral?
    ensures r.Success? ==> r.value == e.literal
  {
    match e
    case StringLiteral(s) => Success(s)
    case OtherExpr(t) => Failure(NotAStringLiteral(t))
  }

  /** `getColumnName`: the name a field is persisted under, read from its first `@Column`. */
  function GetColumnName(f: FieldDeclaration, defaultName: string): (r: Result<string, ColumnError>)
    ensures (forall i | 0 <= i < |f.annotations| :: AnnotationName(f.annotations[i]) != ColumnAnnotation)
      ==> r == Success(defaultName)
    ensures forall i | FirstNamed(f.annotations, ColumnAnnotation, i) ::
      match f.annotations[i]
      case MarkerAnnotation(_) => r == Success(defaultName)
      case SingleMemberAnnotation(_, v) => r == StringLiteralOf(v)
      case NormalAnnotation(_, ps) =>
        && ((forall j | 0 <= j < |ps| :: ps[j].name != "value") ==> r == Success(defaultName))
        && (forall j | FirstPairNamed(ps, "value", j) :: r == StringLiteralOf(ps[j].value))
  {
    match AnnotationByName(f.annotations, ColumnAnnotation)
    case None => Success(defaultName)
    case Some(a) =>
      match a
      case SingleMemberAnnotation(_, v) => StringLiteralOf(v)
      case NormalAnnotation(_, ps) =>
        (match PairByName(ps, "value")
         case Some(p) => StringLiteralOf(p.value)
         case None => Success(defaultName))
      case MarkerAnnotation(_) => Success(defaultName)
  }

  /** The number of upper-case characters of `s`. */
  function CountUpper(s: string): nat {
    if |s| == 0 then 0 else CountUpper(s[..|s| - 1]) + (if IsUpper(s[|s| - 1]) then 1 else 0)
  }

  /** The characters `toFieldName` emits for the characters after the first: each upper-case
      character becomes `_` followed by its lower-case form. */
  function SnakeTail(s: string): string {
    if |s| == 0 then ""
    else
      var last := s[|s| - 1];
      SnakeTail(s[..|s| - 1]) + (if IsUpper(last) then ['_', ToLower(last)] else [last])
  }

  lemma {:induction false} SnakeTailLength(s: string)
    ensures |SnakeTail(s)| == |s| + CountUpper(s)
  {
    if |s| > 0 {
      SnakeTailLength(s[..|s| - 1]);
    }
  }

  lemma {:induction false} SnakeTailHasNoUpper(s: string)
    ensures forall k | 0 <= k < |SnakeTail(s)| :: !IsUpper(SnakeTail(s)[k])
  {
    if |s| > 0 {
      SnakeTailHasNoUpper(s[..|s| - 1]);
    }
  }

  /** `toFieldName`: camel case to snake case. */
  method ToFieldName(className: string) returns (r: string)
    ensures |className| == 0 ==> r == className
    ensures |className| > 0 ==> r == [ToLower(className[0])] + SnakeTail(className[1..])
    ensures |className| > 0 ==> |r| == |className| + CountUpper(className[1..])
    ensures forall k | 0 <= k < |r| :: !IsUpper(r[k])
  {
    if |className| == 0 {
      return className;
    }
    r := [ToLower(className[0])];
    var i := 1;
    while i < |className|
      invariant 1 <= i <= |className|
      invariant r == [ToLower(className[0])] + SnakeTail(className[1..i])
    {
      var c := className[i];
      assert className[1..i + 1][..i - 1] == className[1..i];
      if IsUpper(c) {
        r := r + ['_', ToLower(c)];
      } else {
        r := r + [c];
      }
      i := i + 1;
    }
    assert className[1..i] == className[1..];
    SnakeTailLength(className[1..]);
    SnakeTailHasNoUpper(className[1..]);
  }

  /** `capitalize`: the first character in upper case, the rest unchanged. */
  function Capitalize(str: string): (r: string)
    ensures |r| == |str|
    ensures |str| > 0 ==> r[0] == ToUpper(str[0]) && r[1..] == str[1..]
    ensures |str| == 0 ==> r == str
  {
    if |str| == 0 then str else [ToUpper(str[0])] + str[1..]
  }
}
