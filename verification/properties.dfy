/** The private property a DTO-like template emits for one entity field: named after the field's
    first variable, with the resolved type and the field's Javadoc copied when it has one. */
module Properties {
  import opened Wrappers
  import opened JavaSource
  import opened JavaPoet
  import opened Javadoc

  /** `comment.getContent() + "\n"` when the field has a Javadoc comment, nothing otherwise. */
  function PropertyDoc(doc: Option<string>): (r: Doc)
    ensures doc.None? ==> r == Plain("")
    ensures doc.Some? ==> r == Plain(doc.value + "\n")
  {
    match doc
    case Some(content) => Plain(content + "\n")
    case None => Plain("")
  }

  function Property(f: FieldDeclaration, typ: TypeRef): FieldSpec {
    FieldSpec(typ, f.FirstVariable().name, [Private], [], PropertyDoc(f.javadoc))
  }

  /** `p` is the property for field `f` with type `typ`. */
  predicate IsPropertyOf(p: FieldSpec, f: FieldDeclaration, typ: TypeRef) {
    && p.name == f.FirstVariable().name
    && p.typ == typ
    && p.modifiers == [Private]
    && p.annotations == []
    && (f.javadoc.Some? ==> p.javadoc == Plain(f.javadoc.value + "\n"))
    && (f.javadoc.None? ==> p.javadoc == Plain(""))
  }

  /** One property per field, in declaration order, each typed by `resolve`. */
  function PropertiesOf(fields: seq<FieldDeclaration>, resolve: string -> TypeRef): (ps: seq<FieldSpec>)
    ensures |ps| == |fields|
    ensures forall i | 0 <= i < |fields| :: IsPropertyOf(ps[i], fields[i], resolve(fields[i].FirstVariable().typ))
  {
    seq(|fields|, i requires 0 <= i < |fields| => Property(fields[i], resolve(fields[i].FirstVariable().typ)))
  }

  /** The property names, which are the fields' first-variable names. */
  function Names(ps: seq<FieldSpec>): seq<string> {
    seq(|ps|, i requires 0 <= i < |ps| => ps[i].name)
  }
}
