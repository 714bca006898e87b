/** The abstract output of a template: what a JavaPoet `JavaFile` holds before it is rendered as
    Java text. Statements keep JavaPoet's format string verbatim together with their arguments. */
module JavaPoet {
  import opened Wrappers
  import opened Javadoc
  import Strings

  /** A type reference: `ClassName.get(pkg, simple)`, `ClassName.bestGuess(name)`, a
      `ParameterizedTypeName`, or a primitive / `void`. */
  datatype TypeRef =
    | ClassRef(packageName: string, simpleName: string)
    | BestGuess(name: string)
    | Parameterized(raw: TypeRef, typeArgs: seq<TypeRef>)
    | Primitive(keyword: string)

  const Void: TypeRef := Primitive("void")
  const Int: TypeRef := Primitive("int")

  function JavaLang(simple: string): TypeRef {
    ClassRef("java.lang", simple)
  }

  function ListOf(t: TypeRef): TypeRef {
    Parameterized(ClassRef("java.util", "List"), [t])
  }

  /** `com.mybatisflex.core.paginate.Page`. */
  const Page: TypeRef := ClassRef("com.mybatisflex.core.paginate", "Page")

  function PageOf(t: TypeRef): TypeRef {
    Parameterized(Page, [t])
  }

  datatype Modifier = Public | Private | Final | Abstract

  /** Arguments of a JavaPoet format string: `$T`, `$N`, `$L` and `$S`. */
  datatype Arg = TypeArg(t: TypeRef) | NameArg(n: string) | LiteralArg(l: string) | StringArg(s: string)

  datatype CodeBlock = CodeBlock(format: string, args: seq<Arg>)

  datatype AnnotationMember = AnnotationMember(name: string, value: CodeBlock)

  datatype AnnotationSpec = AnnotationSpec(typ: TypeRef, members: seq<AnnotationMember>)

  /** An annotation without members. */
  function Marker(t: TypeRef): AnnotationSpec {
    AnnotationSpec(t, [])
  }

  /** An annotation with one member `name = <format>(arg)`. */
  function WithMember(t: TypeRef, name: string, format: string, arg: Arg): AnnotationSpec {
    AnnotationSpec(t, [AnnotationMember(name, CodeBlock(format, [arg]))])
  }

  datatype FieldSpec = FieldSpec(
    typ: TypeRef,
    name: string,
    modifiers: seq<Modifier>,
    annotations: seq<AnnotationSpec>,
    javadoc: Doc)

  datatype ParameterSpec = ParameterSpec(
    typ: TypeRef,
    name: string,
    modifiers: seq<Modifier>,
    annotations: seq<AnnotationSpec>)

  /** A plain parameter `T name`. */
  function Param(t: TypeRef, name: string): ParameterSpec {
    ParameterSpec(t, name, [], [])
  }

  /** A method; `returnType` is `None` for a constructor, whose name is `<init>`. */
  datatype MethodSpec = MethodSpec(
    name: string,
    modifiers: seq<Modifier>,
    annotations: seq<AnnotationSpec>,
    returnType: Option<TypeRef>,
    parameters: seq<ParameterSpec>,
    statements: seq<CodeBlock>,
    javadoc: Doc)

  const ConstructorName := "<init>"

  datatype TypeKind = ClassKind | InterfaceKind

  datatype TypeSpec = TypeSpec(
    kind: TypeKind,
    name: string,
    modifiers: seq<Modifier>,
    annotations: seq<AnnotationSpec>,
    javadoc: Doc,
    superinterfaces: seq<TypeRef>,
    fields: seq<FieldSpec>,
    methods: seq<MethodSpec>)

  /** `JavaFile.builder(packageName, typeSpec).build()`. */
  datatype JavaFile = JavaFile(packageName: string, typeSpec: TypeSpec)

  /** The type a generated file declares, as other generated files refer to it. */
  function DeclaredType(f: JavaFile): TypeRef {
    ClassRef(f.packageName, f.typeSpec.name)
  }

  function MethodNames(t: TypeSpec): seq<string> {
    seq(|t.methods|, i requires 0 <= i < |t.methods| => t.methods[i].name)
  }

  /** Where `JavaFile.writeTo(dir)` puts the file: one directory per package component. */
  function OutputPath(dir: string, f: JavaFile): string {
    dir + "/"
    + (if f.packageName == "" then "" else Strings.Replace(f.packageName, '.', '/') + "/")
    + f.typeSpec.name + ".java"
  }
}
