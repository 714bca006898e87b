/** The query-object template of the configuration-driven generator
    (codegen/template/QueryCodeTemplate.java) is a stub: it has a name and emits nothing. */
module QueryCodeTemplate {
  import opened JavaPoet
  import opened CodeGenConfig
  import opened EntityMetadata

  const TemplateName := "query"

  function Generate(md: Metadata, c: Config): (files: seq<JavaFile>)
    ensures files == []
  {
    []
  }
}
