/** The legacy service implementation (template/ServiceImplTemplate.java): a Spring `@Service`
    class over the MyBatis-Flex mapper whose `selectList` and `selectPage` take one filter
    parameter per entity field and add a where-clause for each parameter that is not null. */
module ServiceImplTemplate {
  import opened Wrappers
  import opened JavaSource
  import opened JavaPoet
  import opened Javadoc
  import opened ServiceSignature
  import opened ServiceInterfaceTemplate
  import Frameworks
  import TemplateUtils
  import LegacyTemplateUtils

  /** The skip-if-null filter for the field named `name`: its where-clause is added only when the
      parameter is not null, and it compares the entity's property of the same name. */
  function FilterStatement(name: string, entityType: TypeRef): CodeBlock {
    CodeBlock("if ($N != null) queryWrapper.where($T.$N.eq($N))",
              [NameArg(name), TypeArg(entityType), NameArg(name), NameArg(name)])
  }

  /** One filter per field, in declaration order. */
  function FilterStatements(fields: seq<FieldDeclaration>, entityType: TypeRef): (ss: seq<CodeBlock>)
    ensures |ss| == |fields|
    ensures forall i | 0 <= i < |fields| :: ss[i] == FilterStatement(fields[i].FirstVariable().name, entityType)
  {
    seq(|fields|, i requires 0 <= i < |fields| => FilterStatement(fields[i].FirstVariable().name, entityType))
  }

  /** The column name of field `i` can be read (`getColumnName` does not throw). */
  predicate ColumnReadable(fields: seq<FieldDeclaration>, i: int)
    requires 0 <= i < |fields|
  {
    TemplateUtils.GetColumnName(fields[i], fields[i].FirstVariable().name).Success?
  }

  predicate ColumnsReadable(fields: seq<FieldDeclaration>) {
    forall i | 0 <= i < |fields| :: ColumnReadable(fields, i)
  }

  /** `j` is the first field whose column name cannot be read, and `e` is the reason. */
  predicate FirstUnreadable(fields: seq<FieldDeclaration>, j: int, e: TemplateUtils.ColumnError) {
    && 0 <= j < |fields|
    && TemplateUtils.GetColumnName(fields[j], fields[j].FirstVariable().name) == Failure(e)
    && forall i | 0 <= i < j :: ColumnReadable(fields, i)
  }

  /** What the field loop adds to both filter methods. */
  datatype Filters = Filters(params: seq<ParameterSpec>, docs: string, statements: seq<CodeBlock>)

  lemma {:induction false} FilterParamDocsCons(f: FieldDeclaration, rest: seq<FieldDeclaration>)
    ensures FilterParamDocs([f] + rest) == FilterParamDoc(f.FirstVariable().name) + FilterParamDocs(rest)
    decreases |rest|
  {
    if |rest| > 0 {
      var fs := [f] + rest;
      assert fs[..|fs| - 1] == [f] + rest[..|rest| - 1];
      FilterParamDocsCons(f, rest[..|rest| - 1]);
    } else {
      assert [f] + rest == [f];
      assert [f][..0] == [];
    }
  }

  /** Peeling the first field off the filter parameters, statements and comment lines. */
  lemma ParamsCons(fields: seq<FieldDeclaration>)
    requires |fields| > 0
    ensures FilterParams(fields) == [FilterParam(fields[0])] + FilterParams(fields[1..])
  {
    var ps := [FilterParam(fields[0])] + FilterParams(fields[1..]);
    forall i | 0 <= i < |fields|
      ensures ps[i] == FilterParams(fields)[i]
    {
      if i > 0 { assert fields[1..][i - 1] == fields[i]; }
    }
  }

  lemma StatementsCons(fields: seq<FieldDeclaration>, entityType: TypeRef)
    requires |fields| > 0
    ensures FilterStatements(fields, entityType)
      == [FilterStatement(fields[0].FirstVariable().name, entityType)] + FilterStatements(fields[1..], entityType)
  {
    var ss := [FilterStatement(fields[0].FirstVariable().name, entityType)] + FilterStatements(fields[1..], entityType);
    forall i | 0 <= i < |fields|
      ensures ss[i] == FilterStatements(fields, entityType)[i]
    {
      if i > 0 { assert fields[1..][i - 1] == fields[i]; }
    }
  }

  lemma DocsCons(fields: seq<FieldDeclaration>)
    requires |fields| > 0
    ensures FilterParamDocs(fields) == FilterParamDoc(fields[0].FirstVariable().name) + FilterParamDocs(fields[1..])
  {
    assert fields == [fields[0]] + fields[1..];
    FilterParamDocsCons(fields[0], fields[1..]);
  }

  lemma ReadableCons(fields: seq<FieldDeclaration>)
    requires |fields| > 0
    ensures ColumnsReadable(fields) <==> ColumnReadable(fields, 0) && ColumnsReadable(fields[1..])
  {
    if ColumnReadable(fields, 0) && ColumnsReadable(fields[1..]) {
      forall i | 0 <= i < |fields|
        ensures ColumnReadable(fields, i)
      {
        if i > 0 {
          assert fields[1..][i - 1] == fields[i];
          assert ColumnReadable(fields[1..], i - 1);
        }
      }
    }
    if ColumnsReadable(fields) {
      forall i | 0 <= i < |fields| - 1
        ensures ColumnReadable(fields[1..], i)
      {
        assert fields[1..][i] == fields[i + 1];
        assert ColumnReadable(fields, i + 1);
      }
    }
  }

  /** The loop over the fields: for each field in order, read its column name (which may throw,
      ending the generation), then add its filter parameter, its `@param` line and its filter. */
  function FilterLoop(fields: seq<FieldDeclaration>, entityType: TypeRef): Result<Filters, TemplateUtils.ColumnError> {
    if |fields| == 0 then Success(Filters([], "", []))
    else
      var f := fields[0];
      var name := f.FirstVariable().name;
      match TemplateUtils.GetColumnName(f, name)
      case Failure(e) => Failure(e)
      case Success(_) =>
        match FilterLoop(fields[1..], entityType)
        case Failure(e) => Failure(e)
        case Success(rest) =>
          Success(Filters([FilterParam(f)] + rest.params, FilterParamDoc(name) + rest.docs,
                          [FilterStatement(name, entityType)] + rest.statements))
  }

  /** The loop fails exactly when some column name cannot be read, with the first such failure;
      otherwise it yields the interface's filter parameters and comment lines and one filter per
      field, all in declaration order. */
  lemma {:induction false} FilterLoopSpec(fields: seq<FieldDeclaration>, entityType: TypeRef)
    ensures var r := FilterLoop(fields, entityType);
      && (r.Success? <==> ColumnsReadable(fields))
      && (r.Success? ==> r.value == Filters(FilterParams(fields), FilterParamDocs(fields), FilterStatements(fields, entityType)))
      && (r.Failure? ==> exists j :: FirstUnreadable(fields, j, r.error))
    decreases |fields|
  {
    if |fields| > 0 {
      var f := fields[0];
      var name := f.FirstVariable().name;
      ReadableCons(fields);
      var column := TemplateUtils.GetColumnName(f, name);
      if column.Failure? {
        assert FirstUnreadable(fields, 0, column.error);
      } else {
        FilterLoopSpec(fields[1..], entityType);
        var rest := FilterLoop(fields[1..], entityType);
        if rest.Failure? {
          var j :| FirstUnreadable(fields[1..], j, rest.error);
          forall i | 0 <= i < j + 1
            ensures ColumnReadable(fields, i)
          {
            if i > 0 {
              assert fields[1..][i - 1] == fields[i];
              assert ColumnReadable(fields[1..], i - 1);
            }
          }
          assert fields[1..][j] == fields[j + 1];
          assert FirstUnreadable(fields, j + 1, rest.error);
        } else {
          ParamsCons(fields);
          StatementsCons(fields, entityType);
          DocsCons(fields);
        }
      }
    } else {
      assert FilterParams(fields) == [];
      assert FilterStatements(fields, entityType) == [];
    }
  }

  const QueryWrapperDecl := CodeBlock("$T queryWrapper = new $T()", [TypeArg(Frameworks.QueryWrapper), TypeArg(Frameworks.QueryWrapper)])

  function PageDecl(entityType: TypeRef): CodeBlock {
    CodeBlock("$T<$T> page = new $T<>(pageNumber, pageSize)", [TypeArg(Page), TypeArg(entityType), TypeArg(Page)])
  }

  const ReturnList := CodeBlock("return mapper.selectListByQuery(queryWrapper)", [])
  const ReturnPage := CodeBlock("return mapper.paginate(page, queryWrapper)", [])

  function MapperType(entityName: string, packageName: string): TypeRef {
    ClassRef(packageName + ".dal.mapper", entityName + "FlexMapper")
  }

  function ServiceType(entityName: string, packageName: string): TypeRef {
    ClassRef(packageName + ".service", entityName + "Service")
  }

  function MapperField(entityName: string, packageName: string): FieldSpec {
    FieldSpec(MapperType(entityName, packageName), "mapper", [Private, Final], [], MapperFieldDoc(entityName))
  }

  /** The constructor storing the mapper. */
  function Constructor(e: string, mapperType: TypeRef): MethodSpec {
    MethodSpec(ConstructorName, [Public], [], None, [Param(mapperType, "mapper")], [CodeBlock("this.mapper = mapper", [])],
      ImplConstructor(e))
  }

  /** The public `@Override` implementation of `op` with the given body. */
  function Implement(op: Signature, statements: seq<CodeBlock>, javadoc: Doc): (m: MethodSpec)
    ensures SignatureOf(m) == op && m.statements == statements
    ensures m.modifiers == [Public] && m.annotations == [Marker(Frameworks.Override)]
  {
    MethodSpec(op.name, [Public], [Marker(Frameworks.Override)], op.returnType, op.parameters, statements, javadoc)
  }

  /** The six operations, in declaration order, each a one-statement call of the mapper except
      the two queries, which build a query wrapper from the filters. */
  function Overrides(e: string, entityType: TypeRef, idTypeName: TypeRef, fs: Filters): (ms: seq<MethodSpec>)
    ensures DeclaresOperations(ms, Operations(entityType, idTypeName, fs.params))
    ensures ms[4].statements == [QueryWrapperDecl] + fs.statements + [ReturnList]
    ensures ms[5].statements == [QueryWrapperDecl, PageDecl(entityType)] + fs.statements + [ReturnPage]
  {
    var ops := Operations(entityType, idTypeName, fs.params);
    [Implement(ops[0], [CodeBlock("return mapper.selectOneById(id)", [])], SelectById(e)),
     Implement(ops[1], [CodeBlock("mapper.insert(entity)", [])], Insert(e)),
     Implement(ops[2], [CodeBlock("mapper.update(entity)", [])], UpdateById(e)),
     Implement(ops[3], [CodeBlock("mapper.deleteById(id)", [])], DeleteById(e)),
     Implement(ops[4], [QueryWrapperDecl] + fs.statements + [ReturnList], FiltersThenSelectList(fs.docs, e)),
     Implement(ops[5], [QueryWrapperDecl, PageDecl(entityType)] + fs.statements + [ReturnPage], FiltersThenSelectPage(fs.docs, e))]
  }

  /** The class `<Entity>ServiceImpl`, or the failure of the first column name that cannot be read. */
  function Generate(entityName: string, packageName: string, idType: string, classJavadoc: string,
                    fields: seq<FieldDeclaration>): (r: Result<JavaFile, TemplateUtils.ColumnError>)
    ensures r.Success? <==> ColumnsReadable(fields)
    ensures r.Failure? ==> exists j :: FirstUnreadable(fields, j, r.error)
    ensures r.Success? ==> r.value.packageName == packageName + ".service.impl"
    ensures r.Success? ==> r.value.typeSpec.kind == ClassKind && r.value.typeSpec.name == entityName + "ServiceImpl"
    ensures r.Success? ==> r.value.typeSpec.modifiers == [Public]
    ensures r.Success? ==> r.value.typeSpec.superinterfaces == [ServiceType(entityName, packageName)]
    ensures r.Success? ==> r.value.typeSpec.annotations == [Marker(Frameworks.SpringService)]
    ensures r.Success? ==> r.value.typeSpec.javadoc == AfterEntityDoc(classJavadoc, ServiceImplementation(entityName))
    ensures r.Success? ==> r.value.typeSpec.fields == [MapperField(entityName, packageName)]
    ensures r.Success? ==> Members(r.value.typeSpec.methods, entityName, packageName, idType, fields)
  {
    var entityType := ClassRef(packageName, entityName);
    FilterLoopSpec(fields, entityType);
    match FilterLoop(fields, entityType)
    case Failure(e) => Failure(e)
    case Success(fs) =>
      var methods := [Constructor(entityName, MapperType(entityName, packageName))]
        + Overrides(entityName, entityType, LegacyTemplateUtils.ResolveTypeName(idType), fs);
      MembersOfMethods(entityName, packageName, idType, fields, fs);
      var impl := TypeSpec(ClassKind, entityName + "ServiceImpl", [Public], [Marker(Frameworks.SpringService)],
        AfterEntityDoc(classJavadoc, ServiceImplementation(entityName)), [ServiceType(entityName, packageName)],
        [MapperField(entityName, packageName)], methods);
      Success(JavaFile(packageName + ".service.impl", impl))
  }

  /** The members after the mapper field: the constructor taking the mapper, then the operations
      the legacy service interface declares, with its signatures; both queries wrap the field
      filters, in declaration order, between the query-wrapper set-up and the final query. */
  ghost predicate Members(ms: seq<MethodSpec>, entityName: string, packageName: string, idType: string,
                          fields: seq<FieldDeclaration>) {
    var entityType := ClassRef(packageName, entityName);
    && |ms| == 7
    && ms[0].name == ConstructorName && ms[0].returnType.None?
    && ms[0].parameters == [Param(MapperType(entityName, packageName), "mapper")]
    && DeclaresOperations(ms[1..], FilterOperations(entityType, LegacyTemplateUtils.ResolveTypeName(idType), fields))
    && ms[5].statements == [QueryWrapperDecl] + FilterStatements(fields, entityType) + [ReturnList]
    && ms[6].statements == [QueryWrapperDecl, PageDecl(entityType)] + FilterStatements(fields, entityType) + [ReturnPage]
    && ms[5].javadoc == FiltersThenSelectList(FilterParamDocs(fields), entityName)
    && ms[6].javadoc == FiltersThenSelectPage(FilterParamDocs(fields), entityName)
  }

  lemma MembersOfMethods(entityName: string, packageName: string, idType: string, fields: seq<FieldDeclaration>, fs: Filters)
    requires fs.params == FilterParams(fields)
    requires fs.statements == FilterStatements(fields, ClassRef(packageName, entityName))
    requires fs.docs == FilterParamDocs(fields)
    ensures Members([Constructor(entityName, MapperType(entityName, packageName))]
        + Overrides(entityName, ClassRef(packageName, entityName), LegacyTemplateUtils.ResolveTypeName(idType), fs),
      entityName, packageName, idType, fields)
  {
    var rest := Overrides(entityName, ClassRef(packageName, entityName), LegacyTemplateUtils.ResolveTypeName(idType), fs);
    var ms := [Constructor(entityName, MapperType(entityName, packageName))] + rest;
    assert ms[1..] == rest;
    assert ms[5] == rest[4] && ms[6] == rest[5];
  }
}
