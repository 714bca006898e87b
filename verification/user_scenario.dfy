/** The repository's sample entity `User` (model/dal/entity/User.java) run through the default
    generator: its parse, the DTO properties it yields, and the log of the default run. */
module UserScenario {
  import opened Wrappers
  import opened Strings
  import opened JavaSource
  import opened JavaPoet
  import opened CodeGenConfig
  import opened EntityMetadata
  import opened CodeGenerator
  import CodeGenConfigLoader
  import EntityParser
  import TemplateUtils
  import DtoCodeTemplate

  const UserBasePackage := "com.example.demo.model"

  /** `com.example.demo.model.dal.entity`. */
  const UserPackage := UserBasePackage + DefaultEntityPackageSuffix

  const UserRef := EntityRef(UserPackage, "User")

  /** `@Id private Long id;` and three more fields, two of them with a `@Column` name. */
  const UserFields: seq<FieldDeclaration> := [
    FieldDeclaration([VariableDeclarator("id", "Long")], [MarkerAnnotation("Id")], Some("用户ID")),
    FieldDeclaration([VariableDeclarator("username", "String")],
      [SingleMemberAnnotation("Column", StringLiteral("user_name"))], Some("用户名称")),
    FieldDeclaration([VariableDeclarator("email", "String")],
      [SingleMemberAnnotation("Column", StringLiteral("email_address"))], Some("用户邮箱")),
    FieldDeclaration([VariableDeclarator("deleted", "Boolean")], [], None)]

  const UserClass := TypeDeclaration(ClassDecl, "User", Some("用户实体"), UserFields)

  /** The source tree holding `User.java` where the default configuration looks for it. */
  function Sources(): EntityParser.SourceTree {
    map[EntityParser.SourcePath(CodeGenConfigLoader.CreateDefaultConfig(), UserRef) := [UserClass]]
  }

  /** The entity package ends with the default entity suffix, which is cut off. */
  lemma UserBasePackageCut()
    ensures EntityParser.ExtractBasePackage(UserPackage, DefaultEntityPackageSuffix) == UserBasePackage
  {
    var suffix := DefaultEntityPackageSuffix;
    assert UserPackage[|UserBasePackage|..|UserBasePackage| + |suffix|] == suffix;
    assert OccursAt(UserPackage, suffix, |UserBasePackage|);
    assert UserPackage[..|UserBasePackage|] == UserBasePackage;
  }

  /** The first field is the `@Id` field, so the identifier type is `Long`. */
  lemma UserIdType()
    ensures TemplateUtils.GetIdFieldType(UserClass) == Success("Long")
  {
    assert TemplateUtils.IsIdField(UserFields[0]) by {
      assert FirstNamed(UserFields[0].annotations, "Id", 0);
    }
  }

  const UserMetadataValue := Metadata("User", UserPackage, UserBasePackage, "用户实体", "Long", UserFields, UserRef)

  /** The metadata of `User` under the default configuration. */
  lemma UserMetadata()
    ensures EntityParser.Parse(CodeGenConfigLoader.CreateDefaultConfig(), UserRef, Sources()) == Success(UserMetadataValue)
  {
    UserBasePackageCut();
    UserIdType();
  }

  /** The DTO has the properties `id`, `username`, `email` and `deleted`, in that order. */
  lemma UserDtoProperties(c: Config)
    ensures
      var fs := DtoCodeTemplate.Generate(UserMetadataValue, c).typeSpec.fields;
      |fs| == 4 && fs[0].name == "id" && fs[1].name == "username" && fs[2].name == "email" && fs[3].name == "deleted"
  {
  }

  /** The default generator run on `User` succeeds, points the configuration at the entity's base
      package and logs the dto, mapper and service templates, in that order. */
  lemma UserDefaultRun(unwritable: set<string>)
    ensures Generate(NewDefault(), UserRef, Sources(), unwritable).Success?
    ensures
      var run := Generate(NewDefault(), UserRef, Sources(), unwritable).value;
      && run.generator.config.basePackage == Some(UserBasePackage)
      && |run.outcomes| == 3
      && run.outcomes[0].template == "dto" && run.outcomes[1].template == "mapper"
      && run.outcomes[2].template == "service"
  {
    UserMetadata();
    DefaultRunOrder(BuildWithBasePackage(CodeGenConfigLoader.DefaultBasePackage), UserRef, Sources(), unwritable);
  }
}
