/** The legacy service interface (template/ServiceInterfaceTemplate.java): the six CRUD
    operations, where `selectList` and `selectPage` take one filter parameter per entity field
    instead of a query object. */
module ServiceInterfaceTemplate {
  import opened Wrappers
  import opened JavaSource
  import opened JavaPoet
  import opened Javadoc
  import opened ServiceSignature
  import LegacyTemplateUtils

  /** The filter parameter for field `f`: the first variable's name, typed by `resolveTypeName`. */
  function FilterParam(f: FieldDeclaration): ParameterSpec {
    Param(LegacyTemplateUtils.ResolveTypeName(f.FirstVariable().typ), f.FirstVariable().name)
  }

  /** One filter parameter per field, in declaration order. */
  function FilterParams(fields: seq<FieldDeclaration>): (ps: seq<ParameterSpec>)
    ensures |ps| == |fields|
    ensures forall i | 0 <= i < |fields| ::
      ps[i].name == fields[i].FirstVariable().name
      && ps[i].typ == LegacyTemplateUtils.ResolveTypeName(fields[i].FirstVariable().typ)
      && ps[i].modifiers == [] && ps[i].annotations == []
  {
    seq(|fields|, i requires 0 <= i < |fields| => FilterParam(fields[i]))
  }

  /** The `@param` line the loop adds to the method comment for one filter parameter. */
  function FilterParamDoc(name: string): string {
    "@param " + name + " the " + name + " to filter by\n"
  }

  /** The `@param` lines of all filter parameters, in declaration order. */
  function FilterParamDocs(fields: seq<FieldDeclaration>): string {
    if |fields| == 0 then ""
    else FilterParamDocs(fields[..|fields| - 1]) + FilterParamDoc(fields[|fields| - 1].FirstVariable().name)
  }

  /** The operations of the legacy service: both queries take the entity's filter parameters. */
  function FilterOperations(entityType: TypeRef, idTypeName: TypeRef, fields: seq<FieldDeclaration>): (ops: seq<Signature>)
    ensures |ops| == 6
  {
    Operations(entityType, idTypeName, FilterParams(fields))
  }

  function Generate(entityName: string, packageName: string, idType: string, classJavadoc: string,
                    fields: seq<FieldDeclaration>): (f: JavaFile)
    ensures f.packageName == packageName + ".service"
    ensures f.typeSpec.kind == InterfaceKind
    ensures f.typeSpec.name == entityName + "Service"
    ensures f.typeSpec.modifiers == [Public]
    ensures f.typeSpec.javadoc == AfterEntityDoc(classJavadoc, ServiceInterface(entityName))
    ensures f.typeSpec.superinterfaces == [] && f.typeSpec.fields == []
    ensures DeclaresOperations(f.typeSpec.methods,
      FilterOperations(ClassRef(packageName, entityName), LegacyTemplateUtils.ResolveTypeName(idType), fields))
    ensures AllAbstract(f.typeSpec.methods)
    // the two queries document their filter parameters in field order
    ensures f.typeSpec.methods[4].javadoc == FilteredSelectList(entityName, FilterParamDocs(fields))
    ensures f.typeSpec.methods[5].javadoc == FilteredSelectPage(entityName, FilterParamDocs(fields))
  {
    var ops := FilterOperations(ClassRef(packageName, entityName), LegacyTemplateUtils.ResolveTypeName(idType), fields);
    var e := entityName;
    var filterDocs := FilterParamDocs(fields);
    var methods := DeclareEach(ops, [SelectById(e), Insert(e), UpdateById(e), DeleteById(e),
                                     FilteredSelectList(e, filterDocs), FilteredSelectPage(e, filterDocs)]);
    var service := TypeSpec(InterfaceKind, entityName + "Service", [Public], [],
      AfterEntityDoc(classJavadoc, ServiceInterface(entityName)), [], [], methods);
    JavaFile(packageName + ".service", service)
  }
}
