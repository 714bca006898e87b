/** The template capability (codegen/core/CodeTemplate.java): a name, and a `generate` that
    writes the files built from the metadata and the configuration. The built-in templates are
    the variants below; a template registered from outside is modelled by its name and by what
    its `generate` does, which is outside this model: the files it writes or the message of the
    exception it throws. */
module CodeTemplate {
  import opened Wrappers
  import opened JavaPoet
  import opened CodeGenConfig
  import opened EntityMetadata
  import DtoCodeTemplate
  import MapperCodeTemplate
  import ServiceCodeTemplate
  import ServiceImplCodeTemplate
  import ControllerCodeTemplate
  import ConvertorCodeTemplate
  import QueryCodeTemplate
  import RepositoryCodeTemplate

  datatype CodeTemplate =
    | Dto
    | Mapper
    | Service
    | ServiceImpl
    | Controller
    | Convertor
    | Query
    | Repository
    | Custom(name: string, outcome: Result<seq<JavaFile>, string>)

  /** `getTemplateName()`. */
  function Name(t: CodeTemplate): string {
    match t
    case Dto => DtoCodeTemplate.TemplateName
    case Mapper => MapperCodeTemplate.TemplateName
    case Service => ServiceCodeTemplate.TemplateName
    case ServiceImpl => ServiceImplCodeTemplate.TemplateName
    case Controller => ControllerCodeTemplate.TemplateName
    case Convertor => ConvertorCodeTemplate.TemplateName
    case Query => QueryCodeTemplate.TemplateName
    case Repository => RepositoryCodeTemplate.TemplateName
    case Custom(n, _) => n
  }

  /** The file a built-in template other than the query stub writes. */
  function BuiltInFile(t: CodeTemplate, md: Metadata, c: Config): JavaFile
    requires !t.Custom? && !t.Query?
  {
    match t
    case Dto => DtoCodeTemplate.Generate(md, c)
    case Mapper => MapperCodeTemplate.Generate(md, c)
    case Service => ServiceCodeTemplate.Generate(md, c)
    case ServiceImpl => ServiceImplCodeTemplate.Generate(md, c)
    case Controller => ControllerCodeTemplate.Generate(md, c)
    case Convertor => ConvertorCodeTemplate.Generate(md, c)
    case Repository => RepositoryCodeTemplate.Generate(md, c)
  }

  /** The files `generate` writes, in order, or the message of the exception it throws before
      writing. Every built-in template writes one file, except the query stub, which writes none. */
  function Files(t: CodeTemplate, md: Metadata, c: Config): (r: Result<seq<JavaFile>, string>)
    ensures !t.Custom? ==> r.Success?
    ensures !t.Custom? && !t.Query? ==> |r.value| == 1
    ensures t.Query? ==> r == Success([])
    ensures t.Custom? ==> r == t.outcome
  {
    match t
    case Query => Success(QueryCodeTemplate.Generate(md, c))
    case Custom(_, outcome) => outcome
    case _ => Success([BuiltInFile(t, md, c)])
  }

  /** The built-in names: two templates share the name `service`, and under the default enable
      map exactly the controller, converter and repository templates are switched off. */
  lemma BuiltInNames()
    ensures Name(Service) == Name(ServiceImpl) == "service"
    ensures Name(Dto) == "dto" && Name(Mapper) == "mapper" && Name(Query) == "query"
    ensures Name(Controller) == "controller" && Name(Convertor) == "convertor" && Name(Repository) == "repository"
    ensures forall t: CodeTemplate | !t.Custom? ::
      IsTemplateEnabled(Builder(), Name(t)) <==> !(t.Controller? || t.Convertor? || t.Repository?)
  {
  }
}
