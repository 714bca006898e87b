/** The REST controller template (codegen/template/ControllerCodeTemplate.java): six handlers,
    each delegating in one statement to the service interface the configuration locates. */
module ControllerCodeTemplate {
  import opened Wrappers
  import opened Strings
  import opened JavaPoet
  import opened Javadoc
  import opened CodeGenConfig
  import opened EntityMetadata
  import opened ServiceSignature
  import Frameworks
  import TemplateUtils

  const TemplateName := "controller"

  const HandlerNames: seq<string> := ["getById", "create", "update", "delete", "list", "page"]

  /** The service type the controller's `service` field has. */
  function ServiceType(md: Metadata, c: Config): TypeRef {
    ClassRef(GetFullPackage(c, "service"), md.className + "Service")
  }

  function DtoType(md: Metadata, c: Config): TypeRef {
    ClassRef(GetFullPackage(c, "dto"), md.className + "Dto")
  }

  function QueryType(md: Metadata, c: Config): TypeRef {
    ClassRef(GetFullPackage(c, "dto"), md.className + "Query")
  }

  /** The start of a call of service operation `target` through the controller's `service` field. */
  function ServiceCall(target: string): string {
    "service." + target + "("
  }

  /** A statement `<pre>service.<target>(<args>)`. */
  function Call(pre: string, target: string, args: string): string {
    pre + ServiceCall(target) + args + ")"
  }

  /** The statement calls `service.<target>(...)`. */
  ghost predicate Delegates(format: string, target: string) {
    exists k :: OccursAt(format, ServiceCall(target), k)
  }

  /** Handler `m` consists of exactly one statement, which calls the service operation `target`. */
  ghost predicate CallsOnly(m: MethodSpec, target: string) {
    |m.statements| == 1 && Delegates(m.statements[0].format, target)
  }

  /** Handler `m` is a single call of `target` that closes every parenthesis it opens. */
  ghost predicate DelegatesOnly(m: MethodSpec, target: string) {
    CallsOnly(m, target) && ParensBalanced(m.statements[0].format)
  }

  /** Handler `m` is a single call of `target` that leaves exactly one parenthesis open, so the
      generated method does not compile. */
  ghost predicate DelegatesUnclosed(m: MethodSpec, target: string) {
    CallsOnly(m, target) && Count(m.statements[0].format, '(') == Count(m.statements[0].format, ')') + 1
  }

  lemma CallDelegates(pre: string, target: string, args: string)
    requires '(' !in pre && ')' !in pre && '(' !in target && ')' !in target && ParensBalanced(args)
    ensures Delegates(Call(pre, target, args), target)
    ensures ParensBalanced(Call(pre, target, args))
  {
    assert Call(pre, target, args) == pre + ServiceCall(target) + (args + ")");
    OccursBetween(pre, ServiceCall(target), args + ")");
    assert Call(pre, target, args) == (pre + "service." + target) + "(" + args + ")";
    WrapBalanced(pre + "service." + target, args);
  }

  /** The argument text of the list and page calls: the query, or a fresh one when it is null. */
  const QueryOrNew := "query != null ? query : new $T" + "(" + "" + ")"

  const PageArgs := "pageNumber, pageSize, " + QueryOrNew

  lemma QueryOrNewBalanced()
    ensures ParensBalanced(QueryOrNew)
  {
    NoParensBalanced("");
    WrapBalanced("query != null ? query : new $T", "");
  }

  lemma PageArgsBalanced()
    ensures ParensBalanced(PageArgs)
  {
    QueryOrNewBalanced();
    NoParensBalanced("pageNumber, pageSize, ");
    AppendBalanced("pageNumber, pageSize, ", QueryOrNew);
  }

  function RequestPath(className: string): string {
    "/api/" + LowerCase(className)
  }

  function RequiredBody(): AnnotationSpec {
    WithMember(Frameworks.RequestBody, "required", "$L", LiteralArg("true"))
  }

  function OptionalParam(): AnnotationSpec {
    WithMember(Frameworks.RequestParam, "required", "$L", LiteralArg("false"))
  }

  function DefaultParam(value: string): AnnotationSpec {
    WithMember(Frameworks.RequestParam, "defaultValue", "$S", StringArg(value))
  }

  function GetById(md: Metadata, idType: TypeRef): MethodSpec
  {
    var e := md.className;
    MethodSpec("getById", [Public], [WithMember(Frameworks.GetMapping, "value", "$S", StringArg("/{id}"))],
      Some(ClassRef(md.packageName, md.className)), [ParameterSpec(idType, "id", [Final], [])],
      [CodeBlock(Call("return ", "selectById", "id"), [])],
      GetByIdHandler(e))
  }

  function Create(md: Metadata, dtoType: TypeRef): MethodSpec
  {
    var e := md.className;
    MethodSpec("create", [Public], [Marker(Frameworks.PostMapping)], Some(Void),
      [ParameterSpec(dtoType, "dto", [Final], [RequiredBody()])], [CodeBlock(Call("", "insert", "dto"), [])],
      CreateHandler(e))
  }

  function Update(md: Metadata, dtoType: TypeRef): MethodSpec
  {
    var e := md.className;
    MethodSpec("update", [Public], [Marker(Frameworks.PutMapping)], Some(Void),
      [ParameterSpec(dtoType, "dto", [Final], [RequiredBody()])], [CodeBlock(Call("", "updateById", "dto"), [])],
      UpdateHandler(e))
  }

  function Delete(md: Metadata, idType: TypeRef): MethodSpec
  {
    var e := md.className;
    MethodSpec("delete", [Public], [WithMember(Frameworks.DeleteMapping, "value", "$S", StringArg("/{id}"))], Some(Void),
      [ParameterSpec(idType, "id", [Final], [])], [CodeBlock(Call("", "deleteById", "id"), [])],
      DeleteHandler(e))
  }

  /** The list statement as the source spells it: the call's closing parenthesis is missing. */
  function ListStatementAsWritten(queryType: TypeRef): CodeBlock {
    CodeBlock("return " + ServiceCall("selectList") + QueryOrNew, [TypeArg(queryType)])
  }

  /** The list statement with the call closed. */
  function ListStatement(queryType: TypeRef): CodeBlock {
    CodeBlock(Call("return ", "selectList", QueryOrNew), [TypeArg(queryType)])
  }

  /** The as-written list statement opens one parenthesis more than it closes, so the generated
      controller does not compile; the corrected statement is balanced. */
  lemma ListStatementAsWrittenUnclosed(queryType: TypeRef)
    ensures Count(ListStatementAsWritten(queryType).format, '(') == Count(ListStatementAsWritten(queryType).format, ')') + 1
    ensures ParensBalanced(ListStatement(queryType).format)
    ensures ListStatement(queryType).format == ListStatementAsWritten(queryType).format + ")"
  {
    QueryOrNewBalanced();
    CallUnclosed("return ", "selectList", QueryOrNew);
    CallDelegates("return ", "selectList", QueryOrNew);
  }

  /** Both the list and the page statement fall back to a fresh query object. */
  lemma QueryFallbacks(queryType: TypeRef)
    ensures OccursAt(ListStatementAsWritten(queryType).format, QueryOrNew, |"return " + ServiceCall("selectList")|)
    ensures OccursAt(Call("return ", "selectPage", PageArgs), QueryOrNew, |"return " + ServiceCall("selectPage") + "pageNumber, pageSize, "|)
  {
    var list := "return " + ServiceCall("selectList");
    assert ListStatementAsWritten(queryType).format == list + QueryOrNew + "";
    OccursBetween(list, QueryOrNew, "");
    var page := "return " + ServiceCall("selectPage") + "pageNumber, pageSize, ";
    assert Call("return ", "selectPage", PageArgs) == page + QueryOrNew + ")";
    OccursBetween(page, QueryOrNew, ")");
  }

  /** A call missing its closing parenthesis opens one more than it closes. */
  lemma CallUnclosed(pre: string, target: string, args: string)
    requires '(' !in pre && ')' !in pre && '(' !in target && ')' !in target && ParensBalanced(args)
    ensures Count(pre + ServiceCall(target) + args, '(') == Count(pre + ServiceCall(target) + args, ')') + 1
  {
    assert pre + ServiceCall(target) + args == (pre + "service." + target) + "(" + args;
    OpenUnclosed(pre + "service." + target, args);
  }

  function ListMethod(md: Metadata, dtoType: TypeRef, queryType: TypeRef, statement: CodeBlock): MethodSpec {
    var e := md.className;
    MethodSpec("list", [Public], [WithMember(Frameworks.GetMapping, "value", "$S", StringArg("/list"))],
      Some(ListOf(dtoType)), [ParameterSpec(queryType, "query", [], [OptionalParam()])], [statement],
      ListHandler(e))
  }

  /** The `list` handler as the source emits it. */
  function List(md: Metadata, dtoType: TypeRef, queryType: TypeRef): MethodSpec
  {
    ListMethod(md, dtoType, queryType, ListStatementAsWritten(queryType))
  }

  /** The `list` handler with its call closed. */
  function CorrectedList(md: Metadata, dtoType: TypeRef, queryType: TypeRef): MethodSpec
  {
    ListMethod(md, dtoType, queryType, ListStatement(queryType))
  }

  function Page(md: Metadata, dtoType: TypeRef, queryType: TypeRef): MethodSpec
  {
    var e := md.className;
    MethodSpec("page", [Public], [WithMember(Frameworks.GetMapping, "value", "$S", StringArg("/page"))],
      Some(PageOf(dtoType)),
      [ParameterSpec(Int, "pageNumber", [], [DefaultParam("1")]),
       ParameterSpec(Int, "pageSize", [], [DefaultParam("10")]),
       ParameterSpec(queryType, "query", [], [OptionalParam()])],
      [CodeBlock(Call("return ", "selectPage", PageArgs), [TypeArg(queryType)])],
      PageHandler(e))
  }

  /** The six request handlers, in declaration order. */
  function Handlers(md: Metadata, c: Config): (hs: seq<MethodSpec>)
    ensures |hs| == 6
    ensures forall i | 0 <= i < 6 :: hs[i].name == HandlerNames[i] && |hs[i].statements| == 1
    // `getById` and `delete` take the resolved id type; `getById` answers with the entity
    ensures hs[0].returnType == Some(ClassRef(md.packageName, md.className))
    ensures hs[0].parameters == [ParameterSpec(TemplateUtils.ResolveTypeName(md.idType), "id", [Final], [])]
    ensures hs[3].returnType == Some(Void)
    ensures hs[3].parameters == [ParameterSpec(TemplateUtils.ResolveTypeName(md.idType), "id", [Final], [])]
    // `create` and `update` take the DTO as a required request body and answer nothing
    ensures hs[1].returnType == Some(Void) && hs[2].returnType == Some(Void)
    ensures hs[1].parameters == [ParameterSpec(DtoType(md, c), "dto", [Final], [RequiredBody()])]
    ensures hs[2].parameters == [ParameterSpec(DtoType(md, c), "dto", [Final], [RequiredBody()])]
    // the four single-entity handlers pass their one parameter straight to the service
    ensures hs[0].statements == [CodeBlock(Call("return ", "selectById", "id"), [])]
    ensures hs[1].statements == [CodeBlock(Call("", "insert", "dto"), [])]
    ensures hs[2].statements == [CodeBlock(Call("", "updateById", "dto"), [])]
    ensures hs[3].statements == [CodeBlock(Call("", "deleteById", "id"), [])]
    // `list` and `page` answer with DTOs and take an optional query
    ensures hs[4].returnType == Some(ListOf(DtoType(md, c)))
    ensures hs[4].parameters == [ParameterSpec(QueryType(md, c), "query", [], [OptionalParam()])]
    ensures hs[5].returnType == Some(PageOf(DtoType(md, c)))
    // the list statement is the one the source spells out, with its call left open
    ensures hs[4].statements[0] == ListStatementAsWritten(QueryType(md, c))
    // the page statement passes the paging arguments and the query on to `selectPage`
    ensures hs[5].statements[0].format == Call("return ", "selectPage", PageArgs)
    // the list and page handlers instantiate the query type when no query is given
    ensures exists k :: OccursAt(hs[4].statements[0].format, QueryOrNew, k)
    ensures exists k :: OccursAt(hs[5].statements[0].format, QueryOrNew, k)
    ensures hs[4].statements[0].args == [TypeArg(QueryType(md, c))]
    ensures hs[5].statements[0].args == [TypeArg(QueryType(md, c))]
    // paging defaults to page 1 of size 10
    ensures hs[5].parameters == [ParameterSpec(Int, "pageNumber", [], [DefaultParam("1")]),
                                 ParameterSpec(Int, "pageSize", [], [DefaultParam("10")]),
                                 ParameterSpec(QueryType(md, c), "query", [], [OptionalParam()])]
  {
    var idType := TemplateUtils.ResolveTypeName(md.idType);
    var dtoType := DtoType(md, c);
    var queryType := QueryType(md, c);
    QueryFallbacks(queryType);
    [GetById(md, idType), Create(md, dtoType), Update(md, dtoType), Delete(md, idType),
     List(md, dtoType, queryType), Page(md, dtoType, queryType)]
  }

  function Generate(md: Metadata, c: Config): (f: JavaFile)
    ensures f.packageName == GetFullPackage(c, "controller")
    ensures f.typeSpec.kind == ClassKind
    ensures f.typeSpec.name == md.className + "Controller"
    ensures f.typeSpec.modifiers == [Public]
    ensures f.typeSpec.annotations == [Marker(Frameworks.RestController),
      WithMember(Frameworks.RequestMapping, "value", "$S", StringArg(RequestPath(md.className)))]
    ensures f.typeSpec.fields == [FieldSpec(ServiceType(md, c), "service", [Private], [Marker(Frameworks.Autowired)], Plain(""))]
    ensures f.typeSpec.javadoc == RestController(md.classJavadoc)
    ensures MethodNames(f.typeSpec) == HandlerNames
    ensures f.typeSpec.methods == Handlers(md, c)
  {
    var controller := TypeSpec(ClassKind, md.className + "Controller", [Public],
      [Marker(Frameworks.RestController),
       WithMember(Frameworks.RequestMapping, "value", "$S", StringArg(RequestPath(md.className)))],
      RestController(md.classJavadoc), [],
      [FieldSpec(ServiceType(md, c), "service", [Private], [Marker(Frameworks.Autowired)], Plain(""))],
      Handlers(md, c));
    JavaFile(GetFullPackage(c, "controller"), controller)
  }

  /** The controller with the `list` call closed: the same file, except that the `list` handler's
      statement gains the closing parenthesis it lacks. This repairs only the parenthesis; the
      handlers' DTO types still differ from the service's entity types (see
      `ControllerServiceConsistency.ControllerMatchesService`). */
  function GenerateCorrected(md: Metadata, c: Config): (f: JavaFile)
    ensures var g := Generate(md, c);
      && f.packageName == g.packageName
      && f.typeSpec.(methods := []) == g.typeSpec.(methods := [])
      && |f.typeSpec.methods| == |g.typeSpec.methods|
      && (forall i | 0 <= i < |g.typeSpec.methods| && i != 4 :: f.typeSpec.methods[i] == g.typeSpec.methods[i])
      && f.typeSpec.methods[4].(statements := []) == g.typeSpec.methods[4].(statements := [])
      && f.typeSpec.methods[4].statements
         == [g.typeSpec.methods[4].statements[0].(format := g.typeSpec.methods[4].statements[0].format + ")")]
  {
    var g := Generate(md, c);
    var dtoType := DtoType(md, c);
    var queryType := QueryType(md, c);
    ListStatementAsWrittenUnclosed(queryType);
    g.(typeSpec := g.typeSpec.(methods := g.typeSpec.methods[4 := CorrectedList(md, dtoType, queryType)]))
  }

  /** A handler whose one statement is a call of `target` with balanced arguments delegates to
      `target` and nothing else. */
  lemma HandlerDelegates(m: MethodSpec, pre: string, target: string, args: string)
    requires |m.statements| == 1 && m.statements[0].format == Call(pre, target, args)
    requires '(' !in pre && ')' !in pre && '(' !in target && ')' !in target && ParensBalanced(args)
    ensures DelegatesOnly(m, target)
  {
    CallDelegates(pre, target, args);
  }

  /** Handler i of the controller is a single call of the i-th operation of the service
      interface: the controller adds no logic of its own. Every call but the `list` handler's is
      closed; that one leaves one parenthesis open. */
  lemma HandlersDelegateToService(md: Metadata, c: Config)
    ensures var ms := Generate(md, c).typeSpec.methods;
      && |ms| == |CrudMethodNames|
      && (forall i | 0 <= i < |ms| && i != 4 :: DelegatesOnly(ms[i], CrudMethodNames[i]))
      && DelegatesUnclosed(ms[4], CrudMethodNames[4])
  {
    var ms := Generate(md, c).typeSpec.methods;
    var idType := TemplateUtils.ResolveTypeName(md.idType);
    var dtoType := DtoType(md, c);
    var queryType := QueryType(md, c);
    assert ms == [GetById(md, idType), Create(md, dtoType), Update(md, dtoType), Delete(md, idType),
                  List(md, dtoType, queryType), Page(md, dtoType, queryType)];
    forall i | 0 <= i < |ms| && i != 4
      ensures DelegatesOnly(ms[i], CrudMethodNames[i])
    {
      if i == 0 {
        GetByIdDelegates(md, idType);
      } else if i == 1 {
        CreateDelegates(md, dtoType);
      } else if i == 2 {
        UpdateDelegates(md, dtoType);
      } else if i == 3 {
        DeleteDelegates(md, idType);
      } else {
        PageDelegates(md, dtoType, queryType);
      }
    }
    ListLeavesCallOpen(md, dtoType, queryType);
  }

  /** In the corrected controller every handler, `list` included, is a closed call of the service
      operation at its position. */
  lemma CorrectedHandlersDelegateToService(md: Metadata, c: Config)
    ensures var ms := GenerateCorrected(md, c).typeSpec.methods;
      |ms| == |CrudMethodNames| && forall i | 0 <= i < |ms| :: DelegatesOnly(ms[i], CrudMethodNames[i])
  {
    var ms := GenerateCorrected(md, c).typeSpec.methods;
    var dtoType := DtoType(md, c);
    var queryType := QueryType(md, c);
    HandlersDelegateToService(md, c);
    assert ms[4] == CorrectedList(md, dtoType, queryType);
    ListDelegates(md, dtoType, queryType);
  }

  lemma GetByIdDelegates(md: Metadata, idType: TypeRef)
    ensures DelegatesOnly(GetById(md, idType), "selectById")
  {
    var m := GetById(md, idType);
    assert m.statements == [CodeBlock(Call("return ", "selectById", "id"), [])];
    NoParensBalanced("id");
    HandlerDelegates(m, "return ", "selectById", "id");
  }

  lemma CreateDelegates(md: Metadata, dtoType: TypeRef)
    ensures DelegatesOnly(Create(md, dtoType), "insert")
  {
    NoParensBalanced("dto");
    HandlerDelegates(Create(md, dtoType), "", "insert", "dto");
  }

  lemma UpdateDelegates(md: Metadata, dtoType: TypeRef)
    ensures DelegatesOnly(Update(md, dtoType), "updateById")
  {
    NoParensBalanced("dto");
    HandlerDelegates(Update(md, dtoType), "", "updateById", "dto");
  }

  lemma DeleteDelegates(md: Metadata, idType: TypeRef)
    ensures DelegatesOnly(Delete(md, idType), "deleteById")
  {
    NoParensBalanced("id");
    HandlerDelegates(Delete(md, idType), "", "deleteById", "id");
  }

  lemma ListDelegates(md: Metadata, dtoType: TypeRef, queryType: TypeRef)
    ensures DelegatesOnly(CorrectedList(md, dtoType, queryType), "selectList")
  {
    QueryOrNewBalanced();
    HandlerDelegates(CorrectedList(md, dtoType, queryType), "return ", "selectList", QueryOrNew);
  }

  /** The emitted `list` handler calls `service.selectList` but never closes that call. */
  lemma ListLeavesCallOpen(md: Metadata, dtoType: TypeRef, queryType: TypeRef)
    ensures DelegatesUnclosed(List(md, dtoType, queryType), "selectList")
  {
    var format := List(md, dtoType, queryType).statements[0].format;
    assert format == "return " + ServiceCall("selectList") + QueryOrNew;
    OccursBetween("return ", ServiceCall("selectList"), QueryOrNew);
    ListStatementAsWrittenUnclosed(queryType);
  }

  lemma PageDelegates(md: Metadata, dtoType: TypeRef, queryType: TypeRef)
    ensures DelegatesOnly(Page(md, dtoType, queryType), "selectPage")
  {
    PageArgsBalanced();
    HandlerDelegates(Page(md, dtoType, queryType), "return ", "selectPage", PageArgs);
  }
}

/** How the controller fits the service interface ServiceImplCodeTemplate generates. */
module ControllerServiceConsistency {
  import opened Wrappers
  import opened JavaPoet
  import opened CodeGenConfig
  import opened EntityMetadata
  import opened ServiceSignature
  import ControllerCodeTemplate
  import ServiceImplCodeTemplate
  import TemplateUtils

  /** The handlers `ms` and the service operations `ops` have the same parameter and result
      types where the controller handles ids, the looked-up entity, paging and the query. */
  ghost predicate TypesAgreeOnIdsAndQueries(ms: seq<MethodSpec>, ops: seq<MethodSpec>) {
    && |ms| == |ops| == 6
    && |ms[0].parameters| == |ops[0].parameters| == 1
    && ms[0].parameters[0].typ == ops[0].parameters[0].typ && ms[0].returnType == ops[0].returnType
    && |ms[3].parameters| == |ops[3].parameters| == 1
    && ms[3].parameters[0].typ == ops[3].parameters[0].typ
    && |ms[5].parameters| == |ops[5].parameters| == 3
    && ms[5].parameters[0].typ == ops[5].parameters[0].typ
    && ms[5].parameters[1].typ == ops[5].parameters[1].typ
    && ms[5].parameters[2].typ == ops[5].parameters[2].typ
  }

  /** The handlers `ms` disagree with the service operations `ops` wherever the controller speaks
      DTOs: `create` and `update` pass another type than the service takes, and `list` and `page`
      promise another result than the service gives. */
  ghost predicate TypesDifferOnDtos(ms: seq<MethodSpec>, ops: seq<MethodSpec>) {
    && |ms| == |ops| == 6
    && |ms[1].parameters| == |ops[1].parameters| == |ms[2].parameters| == |ops[2].parameters| == 1
    && ms[1].parameters[0].typ != ops[1].parameters[0].typ
    && ms[2].parameters[0].typ != ops[2].parameters[0].typ
    && ms[4].returnType != ops[4].returnType
    && ms[5].returnType != ops[5].returnType
  }

  /** The controller's `service` field has the generated service interface's type, every handler
      calls the operation that interface declares at the same position, and the query type the
      list and page handlers instantiate is the one the interface's query parameters have. Every
      call but the `list` handler's is closed; in the corrected controller that one is too.
      The types agree only where the controller handles ids and queries: `create` and `update`
      pass a DTO where the service takes the entity, and `list` and `page` answer with DTOs where
      the service answers with entities, so the controller does not compile against the
      interface whatever the entity and configuration. */
  lemma ControllerMatchesService(md: Metadata, c: Config)
    ensures var svc := ServiceImplCodeTemplate.Generate(md, c);
      var ms := ControllerCodeTemplate.Generate(md, c).typeSpec.methods;
      var ops := svc.typeSpec.methods;
      && ControllerCodeTemplate.Generate(md, c).typeSpec.fields[0].typ == DeclaredType(svc)
      && |ms| == |ops| == 6
      && (forall i | 0 <= i < 6 && i != 4 :: ControllerCodeTemplate.DelegatesOnly(ms[i], MethodNames(svc.typeSpec)[i]))
      && ControllerCodeTemplate.DelegatesUnclosed(ms[4], MethodNames(svc.typeSpec)[4])
      && (forall i | 0 <= i < 6 ::
            ControllerCodeTemplate.DelegatesOnly(ControllerCodeTemplate.GenerateCorrected(md, c).typeSpec.methods[i],
              MethodNames(svc.typeSpec)[i]))
      && |ops[4].parameters| == 1 && ops[4].parameters[0].typ == ControllerCodeTemplate.QueryType(md, c)
      && TypesAgreeOnIdsAndQueries(ms, ops)
      && TypesDifferOnDtos(ms, ops)
  {
    ServiceNames(md, c);
    ControllerCodeTemplate.HandlersDelegateToService(md, c);
    ControllerCodeTemplate.CorrectedHandlersDelegateToService(md, c);
    HandlerTypesAgree(md, c);
    HandlerTypesDiffer(md, c);
  }

  lemma HandlerTypesAgree(md: Metadata, c: Config)
    ensures TypesAgreeOnIdsAndQueries(ControllerCodeTemplate.Generate(md, c).typeSpec.methods,
      ServiceImplCodeTemplate.Generate(md, c).typeSpec.methods)
    ensures |ServiceImplCodeTemplate.Generate(md, c).typeSpec.methods[4].parameters| == 1
  {
    ServiceSingleTypes(md, c);
    ServiceQueryTypes(md, c);
    ControllerTypes(md, c);
  }

  lemma HandlerTypesDiffer(md: Metadata, c: Config)
    ensures TypesDifferOnDtos(ControllerCodeTemplate.Generate(md, c).typeSpec.methods,
      ServiceImplCodeTemplate.Generate(md, c).typeSpec.methods)
  {
    ServiceSingleTypes(md, c);
    ServiceQueryTypes(md, c);
    ControllerTypes(md, c);
    var entity := ServiceImplCodeTemplate.EntityType(md);
    var dto := ControllerCodeTemplate.DtoType(md, c);
    assert |md.className + "Dto"| != |md.className|;
    assert dto != entity;
  }

  /** The parameter and result types of the controller's handlers. */
  lemma ControllerTypes(md: Metadata, c: Config)
    ensures var ms := ControllerCodeTemplate.Generate(md, c).typeSpec.methods;
      var entity := ServiceImplCodeTemplate.EntityType(md);
      var id := TemplateUtils.ResolveTypeName(md.idType);
      var dto := ControllerCodeTemplate.DtoType(md, c);
      var query := ServiceImplCodeTemplate.QueryType(md, c);
      && |ms| == 6
      && |ms[0].parameters| == 1 && ms[0].parameters[0].typ == id && ms[0].returnType == Some(entity)
      && |ms[1].parameters| == 1 && ms[1].parameters[0].typ == dto
      && |ms[2].parameters| == 1 && ms[2].parameters[0].typ == dto
      && |ms[3].parameters| == 1 && ms[3].parameters[0].typ == id
      && ms[4].returnType == Some(ListOf(dto))
      && |ms[5].parameters| == 3
      && ms[5].parameters[0].typ == Int && ms[5].parameters[1].typ == Int && ms[5].parameters[2].typ == query
      && ms[5].returnType == Some(PageOf(dto))
  {
    assert ControllerCodeTemplate.Generate(md, c).typeSpec.methods == ControllerCodeTemplate.Handlers(md, c);
  }

  /** The parameter and result types of the generated service interface's four single-entity
      operations. */
  lemma ServiceSingleTypes(md: Metadata, c: Config)
    ensures var ops := ServiceImplCodeTemplate.Generate(md, c).typeSpec.methods;
      var entity := ServiceImplCodeTemplate.EntityType(md);
      var id := TemplateUtils.ResolveTypeName(md.idType);
      && |ops| == 6
      && ops[0].parameters == [Param(id, "id")] && ops[0].returnType == Some(entity)
      && ops[1].parameters == [Param(entity, "entity")]
      && ops[2].parameters == [Param(entity, "entity")]
      && ops[3].parameters == [Param(id, "id")]
  {
    var ops := ServiceImplCodeTemplate.Generate(md, c).typeSpec.methods;
    var sigs := QueryOperations(ServiceImplCodeTemplate.EntityType(md), TemplateUtils.ResolveTypeName(md.idType),
      ServiceImplCodeTemplate.QueryType(md, c));
    assert DeclaresOperations(ops, sigs);
    assert SignatureOf(ops[0]) == sigs[0];
    assert SignatureOf(ops[1]) == sigs[1];
    assert SignatureOf(ops[2]) == sigs[2];
    assert SignatureOf(ops[3]) == sigs[3];
  }

  /** The parameter and result types of the generated service interface's two queries. */
  lemma ServiceQueryTypes(md: Metadata, c: Config)
    ensures var ops := ServiceImplCodeTemplate.Generate(md, c).typeSpec.methods;
      var entity := ServiceImplCodeTemplate.EntityType(md);
      var query := ServiceImplCodeTemplate.QueryType(md, c);
      && |ops| == 6
      && ops[4].parameters == [Param(query, "query")] && ops[4].returnType == Some(ListOf(entity))
      && ops[5].parameters == [Param(Int, "pageNumber"), Param(Int, "pageSize"), Param(query, "query")]
      && ops[5].returnType == Some(PageOf(entity))
  {
    var ops := ServiceImplCodeTemplate.Generate(md, c).typeSpec.methods;
    var sigs := QueryOperations(ServiceImplCodeTemplate.EntityType(md), TemplateUtils.ResolveTypeName(md.idType),
      ServiceImplCodeTemplate.QueryType(md, c));
    assert DeclaresOperations(ops, sigs);
    assert SignatureOf(ops[4]) == sigs[4];
    assert SignatureOf(ops[5]) == sigs[5];
  }

  /** The generated service interface declares the operations under their usual names. */
  lemma ServiceNames(md: Metadata, c: Config)
    ensures MethodNames(ServiceImplCodeTemplate.Generate(md, c).typeSpec) == CrudMethodNames
  {
    var query := ServiceImplCodeTemplate.QueryType(md, c);
    OperationNames(ServiceImplCodeTemplate.EntityType(md), TemplateUtils.ResolveTypeName(md.idType), [Param(query, "query")]);
  }
}
