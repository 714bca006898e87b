/** How the legacy templates' outputs refer to each other. */
module LegacyConsistency {
  import opened Wrappers
  import opened JavaSource
  import opened JavaPoet
  import opened ServiceSignature
  import ServiceInterfaceTemplate
  import ServiceImplTemplate
  import MyBatisFlexMapperTemplate
  import MapStructMapperTemplate
  import DtoTemplate
  import LegacyTemplateUtils

  /** The implementation implements the legacy service interface generated for the same
      arguments, and overrides each of its operations with the same name, parameters and return
      type, in the same order, after its constructor. */
  lemma ImplementsInterface(entityName: string, packageName: string, idType: string, classJavadoc: string,
                            fields: seq<FieldDeclaration>)
    requires ServiceImplTemplate.ColumnsReadable(fields)
    ensures var impl := ServiceImplTemplate.Generate(entityName, packageName, idType, classJavadoc, fields).value;
      var service := ServiceInterfaceTemplate.Generate(entityName, packageName, idType, classJavadoc, fields);
      && impl.typeSpec.superinterfaces == [DeclaredType(service)]
      && |impl.typeSpec.methods| == |service.typeSpec.methods| + 1
      && forall i | 0 <= i < |service.typeSpec.methods| ::
           SignatureOf(impl.typeSpec.methods[i + 1]) == SignatureOf(service.typeSpec.methods[i])
  {
    var impl := ServiceImplTemplate.Generate(entityName, packageName, idType, classJavadoc, fields).value;
    var service := ServiceInterfaceTemplate.Generate(entityName, packageName, idType, classJavadoc, fields);
    OperationsAfterFirst(impl.typeSpec.methods, service.typeSpec.methods,
      ServiceInterfaceTemplate.FilterOperations(ClassRef(packageName, entityName),
        LegacyTemplateUtils.ResolveTypeName(idType), fields));
  }

  /** A member list whose tail declares the same operations as `declared` lines up with it after
      its first member. */
  lemma OperationsAfterFirst(ms: seq<MethodSpec>, declared: seq<MethodSpec>, ops: seq<Signature>)
    requires |ms| >= 1 && DeclaresOperations(ms[1..], ops) && DeclaresOperations(declared, ops)
    ensures |ms| == |declared| + 1
    ensures forall i | 0 <= i < |declared| :: SignatureOf(ms[i + 1]) == SignatureOf(declared[i])
  {
    forall i | 0 <= i < |declared|
      ensures SignatureOf(ms[i + 1]) == SignatureOf(declared[i])
    {
      assert ms[1..][i] == ms[i + 1];
    }
  }

  /** The implementation's `mapper` field has the type of the legacy MyBatis-Flex mapper generated
      with the same package argument. */
  lemma MapperFieldMatchesMapper(entityName: string, packageName: string, idType: string, classJavadoc: string,
                                 fields: seq<FieldDeclaration>)
    requires ServiceImplTemplate.ColumnsReadable(fields)
    ensures ServiceImplTemplate.Generate(entityName, packageName, idType, classJavadoc, fields).value.typeSpec.fields[0].typ
      == DeclaredType(MyBatisFlexMapperTemplate.Generate(entityName, packageName, idType, classJavadoc))
  {
  }

  /** The MapStruct converter's DTO type is the class the legacy DTO template generates. */
  lemma ConverterUsesDto(entityName: string, packageName: string, fields: seq<FieldDeclaration>, classJavadoc: string)
    ensures MapStructMapperTemplate.Generate(entityName, packageName, classJavadoc).typeSpec.methods[1].returnType
      == Some(DeclaredType(DtoTemplate.Generate(entityName, packageName, fields, classJavadoc)))
  {
  }

  /** Fields with the same first variables in the same order. */
  predicate SameVariables(fields1: seq<FieldDeclaration>, fields2: seq<FieldDeclaration>) {
    |fields1| == |fields2| && forall i | 0 <= i < |fields1| :: fields1[i].FirstVariable() == fields2[i].FirstVariable()
  }

  lemma {:induction false} SameVariablesSameDocs(fields1: seq<FieldDeclaration>, fields2: seq<FieldDeclaration>)
    requires SameVariables(fields1, fields2)
    ensures ServiceInterfaceTemplate.FilterParamDocs(fields1) == ServiceInterfaceTemplate.FilterParamDocs(fields2)
    decreases |fields1|
  {
    if |fields1| > 0 {
      var n := |fields1| - 1;
      assert SameVariables(fields1[..n], fields2[..n]) by {
        forall i | 0 <= i < n
          ensures fields1[..n][i].FirstVariable() == fields2[..n][i].FirstVariable()
        {
          assert fields1[..n][i] == fields1[i] && fields2[..n][i] == fields2[i];
        }
      }
      SameVariablesSameDocs(fields1[..n], fields2[..n]);
    }
  }

  /** The column names the implementation reads never reach its output: fields that differ only
      in their annotations (so in their `@Column` values) and comments give the same class,
      as long as every column name can be read. */
  lemma ColumnValuesIgnored(entityName: string, packageName: string, idType: string, classJavadoc: string,
                            fields1: seq<FieldDeclaration>, fields2: seq<FieldDeclaration>)
    requires SameVariables(fields1, fields2)
    requires ServiceImplTemplate.ColumnsReadable(fields1) && ServiceImplTemplate.ColumnsReadable(fields2)
    ensures ServiceImplTemplate.Generate(entityName, packageName, idType, classJavadoc, fields1)
      == ServiceImplTemplate.Generate(entityName, packageName, idType, classJavadoc, fields2)
  {
    var entityType := ClassRef(packageName, entityName);
    ServiceImplTemplate.FilterLoopSpec(fields1, entityType);
    ServiceImplTemplate.FilterLoopSpec(fields2, entityType);
    SameVariablesSameDocs(fields1, fields2);
    assert ServiceInterfaceTemplate.FilterParams(fields1) == ServiceInterfaceTemplate.FilterParams(fields2);
    assert ServiceImplTemplate.FilterStatements(fields1, entityType) == ServiceImplTemplate.FilterStatements(fields2, entityType);
  }
}
