/** The already-parsed entity source the generator reads: the parts of a JavaParser syntax tree
    the generator inspects (type declarations, their fields, annotations and Javadoc comments). */
module JavaSource {
  import opened Wrappers

  /** An annotation member value: a string literal, or any other expression (kept as text). */
  datatype Expr = StringLiteral(literal: string) | OtherExpr(text: string)

  datatype MemberValuePair = MemberValuePair(name: string, value: Expr)

  /** The three annotation forms of the Java grammar: `@A`, `@A(v)` and `@A(k = v, ...)`.
      `name` is the annotation's simple identifier. */
  datatype Annotation =
    | MarkerAnnotation(name: string)
    | SingleMemberAnnotation(name: string, memberValue: Expr)
    | NormalAnnotation(name: string, pairs: seq<MemberValuePair>)

  /** One variable of a field declaration with its type as written. */
  datatype VariableDeclarator = VariableDeclarator(name: string, typ: string)

  /** The Java grammar admits no field declaration without a variable. */
  type Variables = vs: seq<VariableDeclarator> | |vs| > 0
    witness [VariableDeclarator("value", "Object")]

  /** A field declaration such as `@Column("user_name") private String username;`; `javadoc` is
      the content of its `/** ... */` comment, if any. */
  datatype FieldDeclaration = FieldDeclaration(
    variables: Variables,
    annotations: seq<Annotation>,
    javadoc: Option<string>)
  {
    /** `getVariables().get(0)`: the declaration's canonical variable. */
    function FirstVariable(): VariableDeclarator {
      variables[0]
    }
  }

  datatype DeclKind = ClassDecl | InterfaceDecl | OtherTypeDecl

  /** A top-level type declaration of a compilation unit with its fields in declaration order. */
  datatype TypeDeclaration = TypeDeclaration(
    kind: DeclKind,
    name: string,
    javadoc: Option<string>,
    fields: seq<FieldDeclaration>)

  /** A parsed source file: its top-level type declarations in order. */
  type CompilationUnit = seq<TypeDeclaration>

  /** The entity class handed to the generator (`Class<?>`): its package and simple name. */
  datatype EntityRef = EntityRef(packageName: string, simpleName: string) {

    /** `Class.getName()` of a top-level class. */
    function Name(): string {
      if packageName == "" then simpleName else packageName + "." + simpleName
    }
  }

  function AnnotationName(a: Annotation): string {
    match a
    case MarkerAnnotation(n) => n
    case SingleMemberAnnotation(n, _) => n
    case NormalAnnotation(n, _) => n
  }

  /** `i` is the first index of an annotation called `name`. */
  predicate FirstNamed(anns: seq<Annotation>, name: string, i: int) {
    0 <= i < |anns| && AnnotationName(anns[i]) == name
    && forall j | 0 <= j < i :: AnnotationName(anns[j]) != name
  }

  /** `isAnnotationPresent`: some annotation of the field has the given simple name. */
  predicate IsAnnotationPresent(f: FieldDeclaration, name: string) {
    exists i | 0 <= i < |f.annotations| :: AnnotationName(f.annotations[i]) == name
  }

  /** `getAnnotationByName`: the first annotation with the given simple name. */
  function AnnotationByName(anns: seq<Annotation>, name: string): (r: Option<Annotation>)
    ensures r.None? <==> forall i | 0 <= i < |anns| :: AnnotationName(anns[i]) != name
    ensures r.Some? ==> exists i :: FirstNamed(anns, name, i) && r.value == anns[i]
  {
    if |anns| == 0 then None
    else if AnnotationName(anns[0]) == name then
      assert FirstNamed(anns, name, 0);
      Some(anns[0])
    else
      var rest := AnnotationByName(anns[1..], name);
      if rest.Some? then
        var i :| FirstNamed(anns[1..], name, i) && rest.value == anns[1..][i];
        assert FirstNamed(anns, name, i + 1);
        rest
      else
        rest
  }

  /** `i` is the first index of a member-value pair called `name`. */
  predicate FirstPairNamed(pairs: seq<MemberValuePair>, name: string, i: int) {
    0 <= i < |pairs| && pairs[i].name == name
    && forall j | 0 <= j < i :: pairs[j].name != name
  }

  /** `getPairs().stream().filter(p -> name matches).findFirst()`. */
  function PairByName(pairs: seq<MemberValuePair>, name: string): (r: Option<MemberValuePair>)
    ensures r.None? <==> forall i | 0 <= i < |pairs| :: pairs[i].name != name
    ensures r.Some? ==> exists i :: FirstPairNamed(pairs, name, i) && r.value == pairs[i]
  {
    if |pairs| == 0 then None
    else if pairs[0].name == name then
      assert FirstPairNamed(pairs, name, 0);
      Some(pairs[0])
    else
      var rest := PairByName(pairs[1..], name);
      if rest.Some? then
        var i :| FirstPairNamed(pairs[1..], name, i) && rest.value == pairs[1..][i];
        assert FirstPairNamed(pairs, name, i + 1);
        rest
      else
        rest
  }

  /** `CompilationUnit.getClassByName`: the first top-level class (not interface) so named. */
  function ClassByName(cu: CompilationUnit, name: string): (r: Option<TypeDeclaration>)
    ensures r.None? <==> forall i | 0 <= i < |cu| :: !(cu[i].kind == ClassDecl && cu[i].name == name)
    ensures r.Some? ==> r.value in cu && r.value.kind == ClassDecl && r.value.name == name
  {
    if |cu| == 0 then None
    else if cu[0].kind == ClassDecl && cu[0].name == name then Some(cu[0])
    else ClassByName(cu[1..], name)
  }
}
