/** The six-operation service surface shared by every generated service interface, by the legacy
    service implementation and by the controller that delegates to them. The query-object
    services and the legacy per-field-filter service differ only in the parameters their two
    query operations take. */
module ServiceSignature {
  import opened Wrappers
  import opened JavaPoet
  import opened Javadoc

  /** What a caller sees of an operation: its name, parameter list and return type. */
  datatype Signature = Signature(name: string, parameters: seq<ParameterSpec>, returnType: Option<TypeRef>)

  function SignatureOf(m: MethodSpec): Signature {
    Signature(m.name, m.parameters, m.returnType)
  }

  const CrudMethodNames: seq<string> :=
    ["selectById", "insert", "updateById", "deleteById", "selectList", "selectPage"]

  /** The operations over `entity` with identifier type `id` whose two queries take the parameters
      `filters`: the page query takes the page number and size first. */
  function Operations(entity: TypeRef, id: TypeRef, filters: seq<ParameterSpec>): (ops: seq<Signature>)
    ensures |ops| == 6
  {
    [Signature("selectById", [Param(id, "id")], Some(entity)),
     Signature("insert", [Param(entity, "entity")], Some(Void)),
     Signature("updateById", [Param(entity, "entity")], Some(Void)),
     Signature("deleteById", [Param(id, "id")], Some(Void)),
     Signature("selectList", filters, Some(ListOf(entity))),
     Signature("selectPage", [Param(Int, "pageNumber"), Param(Int, "pageSize")] + filters, Some(PageOf(entity)))]
  }

  /** The operations of a service filtering through one query object. */
  function QueryOperations(entity: TypeRef, id: TypeRef, query: TypeRef): (ops: seq<Signature>)
    ensures |ops| == 6
  {
    Operations(entity, id, [Param(query, "query")])
  }

  /** The operations keep the same names, in the same order, whatever they filter by. */
  lemma OperationNames(entity: TypeRef, id: TypeRef, filters: seq<ParameterSpec>)
    ensures |Operations(entity, id, filters)| == |CrudMethodNames|
    ensures forall i | 0 <= i < |CrudMethodNames| :: Operations(entity, id, filters)[i].name == CrudMethodNames[i]
  {
  }

  /** `ms` declares exactly the operations `ops`, in order. */
  predicate DeclaresOperations(ms: seq<MethodSpec>, ops: seq<Signature>) {
    |ms| == |ops| && forall i | 0 <= i < |ms| :: SignatureOf(ms[i]) == ops[i]
  }

  /** Every method is public, abstract and has no statements. */
  predicate AllAbstract(ms: seq<MethodSpec>) {
    forall i | 0 <= i < |ms| :: ms[i].modifiers == [Public, Abstract] && ms[i].statements == []
  }

  /** The public abstract declaration of `op` in an interface. */
  function Declare(op: Signature, javadoc: Doc): (m: MethodSpec)
    ensures SignatureOf(m) == op
    ensures m.modifiers == [Public, Abstract] && m.statements == [] && m.annotations == []
    ensures m.javadoc == javadoc
  {
    MethodSpec(op.name, [Public, Abstract], [], op.returnType, op.parameters, [], javadoc)
  }

  /** One public abstract declaration per operation, in order, the i-th commented by `docs[i]`. */
  function DeclareEach(ops: seq<Signature>, docs: seq<Doc>): (ms: seq<MethodSpec>)
    requires |docs| == |ops|
    ensures DeclaresOperations(ms, ops) && AllAbstract(ms)
    ensures forall i | 0 <= i < |ms| :: ms[i].javadoc == docs[i] && ms[i].annotations == []
  {
    seq(|ops|, i requires 0 <= i < |ops| => Declare(ops[i], docs[i]))
  }

  /** `t` declares, in this order, the six abstract operations of a query-object service over
      `entity` with identifier type `id` and filter object `query`. */
  predicate DeclaresQueryService(t: TypeSpec, entity: TypeRef, id: TypeRef, query: TypeRef) {
    DeclaresOperations(t.methods, QueryOperations(entity, id, query)) && AllAbstract(t.methods)
  }
}
