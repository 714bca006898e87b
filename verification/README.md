# code-generator, modelled in Dafny

This project models the core of the `code-generator` repository. The repository is a Java
scaffolding tool. It reads an annotated entity class (with JavaParser) and writes a DTO, a
MyBatis-Flex mapper, a service interface, a service implementation, a query object, a MapStruct
converter, a REST controller or a JPA repository for it (with JavaPoet).

The model has these parts:

- **Entity source and generated code.** The parsed entity class is a record (`JavaSource`). It
  holds the class name, an optional doc comment, and the field declarations in order. Each
  field has its variables, annotations and optional doc comment. What a template emits is an
  abstract JavaPoet specification (`JavaPoet`): package, type kind and name, modifiers,
  annotations, super-interfaces, fields and methods. A method has parameters, return type,
  statements (format plus arguments) and a doc comment. Doc comments with fixed wording are kept
  as `Javadoc.Doc` values; `Javadoc.Text` renders them.
- **Helpers.** `TemplateUtils` models the type table, the `@Id` lookup, the `@Column` name,
  camel-to-snake and capitalise. `LegacyTemplateUtils` models the older duplicate copy and proves
  that it agrees with `TemplateUtils` on every input.
- **Configuration.** `CodeGenConfig` holds the builder defaults, `getFullPackage` and
  `isTemplateEnabled`. `CodeGenConfigLoader` builds a configuration from a property map. It falls
  back to the default configuration when the resource is missing or cannot be read.
- **Entity parser.** `EntityParser` models the source path, the three error cases (missing file,
  missing class, no `@Id` field), the default class comment, and `extractBasePackage`.
- **Templates.** There is one module per template, with `Generate` as a pure function. The
  configuration-driven templates take `(metadata, config)`. The older static templates take raw
  arguments.
- **Orchestrator.** `CodeGenerator` models `generate`. It parses once and overwrites the base
  package. It then runs every enabled template in registration order, and a failing template is
  logged without stopping the run. The mutable generator is modelled by returning the updated
  generator and one `Outcome` per template run. A file write is modelled by a set of paths that
  cannot be written. `CodeTemplate` is the template capability: a datatype of the built-in
  templates plus `Custom(name, outcome)` for a template registered from outside.
- **Consistency lemmas.** These relate the outputs of different templates:
  - the controller calls, handler by handler, the service interface it is wired to, and its
    DTO-typed handlers do not match that interface's entity types;
  - the legacy implementation implements the legacy interface;
  - the legacy query object mirrors the legacy DTO;
  - the legacy and configuration-driven DTO templates agree.
- **Sample entity.** `UserScenario` runs the repository's sample entity `User` through the
  default generator.

Where the code and its description differ, the model follows the code:

- `ServiceImplCodeTemplate` emits a service *interface*, not an implementation, under the name
  `service`. `ServiceCodeTemplate` also uses that name, so both are enabled or disabled together.
- `ServiceCodeTemplate` and `ConvertorCodeTemplate` do not read the configured package suffixes
  or the configured entity suffix. Their packages are the base package followed by hard-coded
  suffixes.
- The converter template is named `convertor`. The default enable map has `mapstruct` and no
  `convertor`, so the converter never runs under the defaults. The same holds for `controller`
  and `repository`, and a property file cannot switch them on, because their flags are never
  read.
- `CodeGenerator.java` declares an instance `generate(Class)` and a static `generate(Class)` with
  the same signature, and imports `CodeTemplate` from a package that does not hold it. As written,
  it does not compile. The model keeps both entry points: `CodeGenerator.Generate` and
  `CodeGenerator.GenerateWithDefaults`.
- The legacy MyBatis-Flex mapper template reads its `packageName` argument as the base package:
  the entity is in `<packageName>.dal.entity`. The other legacy templates read it as the entity's
  own package.
- The legacy service interface places the filter `@param` lines between a query method's summary
  and its `@return` line. The legacy implementation places them before the summary.
- `MyBatisFlexMapperTemplate.java` (package `com.example.demo.template`) calls
  `TemplateUtils.resolveTypeName` without importing `com.example.demo.TemplateUtils`, so as
  written it does not compile. The model binds the call to the legacy copy of the helper
  (`LegacyTemplateUtils`). The resolved id type never reaches the output anyway
  (`MyBatisFlexMapperTemplate.IdTypeHasNoEffect`).
- The controller template speaks DTOs where the service interface it calls speaks entities.
  `create` and `update` pass their `<Class>Dto` parameter (ControllerCodeTemplate.java:25,
  :67-87) to `insert` and `updateById`, which take the entity (ServiceImplCodeTemplate.java:54-70).
  `list` and `page` promise `List<<Class>Dto>` and `Page<<Class>Dto>`
  (ControllerCodeTemplate.java:28-29), while `selectList` and `selectPage` return lists and pages
  of entities (ServiceImplCodeTemplate.java:25, :93). No converter call is emitted, so the
  controller does not compile against that interface for any entity or configuration. The model
  emits these types as written and proves the mismatch
  (`ControllerServiceConsistency.HandlerTypesDiffer`).
- The controller template's `list` handler emits a call whose closing parenthesis is missing
  (ControllerCodeTemplate.java:106). The model emits that text as written; the corrected
  controller is modelled beside it (see "## Findings").

## Model

| member | source | states |
|---|---|---|
| `TemplateUtils.ResolveTypeName` | src/main/java/com/example/demo/codegen/core/TemplateUtils.java:22-29 | `Long`, `String` and `Integer` resolve to the fixed `java.lang` classes; every other name resolves to a best guess carrying that same name |
| `TemplateUtils.FirstIdField` | src/main/java/com/example/demo/codegen/core/TemplateUtils.java:13-18 | None exactly when no field carries `@Id`; otherwise the index of an `@Id` field with no `@Id` field before it |
| `TemplateUtils.GetIdFieldType` | src/main/java/com/example/demo/codegen/core/TemplateUtils.java:12-20 | Succeeds exactly when some field is `@Id`, returning the declared type of the first variable of the first such field; otherwise fails with the message naming the class |
| `TemplateUtils.GetColumnName` | src/main/java/com/example/demo/codegen/core/TemplateUtils.java:31-46 | No `@Column` gives the default name. For the first `@Column`: a marker gives the default; a single member gives its string literal; key/value pairs give the first `value` pair's literal, or the default when there is none; a non-literal value is an error |
| `TemplateUtils.SnakeTailLength` | src/main/java/com/example/demo/codegen/core/TemplateUtils.java:54-61 | The converted tail is longer than the input by exactly the number of upper-case characters |
| `TemplateUtils.SnakeTailHasNoUpper` | src/main/java/com/example/demo/codegen/core/TemplateUtils.java:54-61 | The converted tail contains no upper-case character |
| `TemplateUtils.ToFieldName` | src/main/java/com/example/demo/codegen/core/TemplateUtils.java:48-63 | Empty input is returned unchanged. Otherwise the first character is lower-cased and each later upper-case character becomes `_` plus its lower case, so the length grows by the count of later upper-case characters and no upper-case character remains |
| `TemplateUtils.Capitalize` | src/main/java/com/example/demo/codegen/core/TemplateUtils.java:65-70 | Same length; the first character is upper-cased and the tail is unchanged; empty input is returned unchanged |
| `LegacyTemplateUtils.ResolveTypeName` | src/main/java/com/example/demo/TemplateUtils.java:22-29 | The older copy's table agrees with `TemplateUtils.ResolveTypeName` on every name; a fixed class exactly for the three known names |
| `LegacyTemplateUtils.GetIdFieldType` | src/main/java/com/example/demo/TemplateUtils.java:12-20 | The older copy's field scan returns the same result as `TemplateUtils.GetIdFieldType`, failure included, for every class |
| `LegacyTemplateUtils.GetColumnName` | src/main/java/com/example/demo/TemplateUtils.java:31-46 | The older copy's annotation and pair search returns the same result as `TemplateUtils.GetColumnName` for every field and default |
| `CodeGenConfig.GetFullPackage` | src/main/java/com/example/demo/codegen/config/CodeGenConfig.java:65-67 | A layer with a suffix gives the base package followed by that suffix; a layer without one gives the base package exactly (`null` when unset) |
| `CodeGenConfig.IsTemplateEnabled` | src/main/java/com/example/demo/codegen/config/CodeGenConfig.java:72-74 | Enabled exactly when the name is mapped to true; a name absent from the map is disabled |
| `CodeGenConfig.UnlistedTemplates` | src/main/java/com/example/demo/codegen/config/CodeGenConfig.java:53-60 | `controller`, `convertor` and `repository` have no entry in the default enable map |
| `CodeGenConfig.BuilderDefaults` | src/main/java/com/example/demo/codegen/config/CodeGenConfig.java:21-60 | Default output dir `src/main/java` and entity suffix `.dal.entity`; exactly five layer suffixes and six template names, all true. A name is enabled by default exactly when it is one of the six; `controller` and `repository` resolve to the base package itself |
| `CodeGenConfigLoader.GetBooleanProperty` | src/main/java/com/example/demo/codegen/config/CodeGenConfigLoader.java:91-97 | The default when the key is absent; otherwise true exactly when the value is `true` in any letter case |
| `CodeGenConfigLoader.PackageSuffixesFrom` | src/main/java/com/example/demo/codegen/config/CodeGenConfigLoader.java:67-73 | Exactly the five default layers; each reads `codegen.package.<layer>`, defaulting to the builder's suffix |
| `CodeGenConfigLoader.TemplateFlagsFrom` | src/main/java/com/example/demo/codegen/config/CodeGenConfigLoader.java:76-83 | Exactly the six default template names; each reads `codegen.template.<name>.enabled` as a boolean defaulting to true |
| `CodeGenConfigLoader.BuildConfigFromProperties` | src/main/java/com/example/demo/codegen/config/CodeGenConfigLoader.java:53-86 | Output dir, base package and entity suffix come from their keys or from the defaults; the test package stays unset; the two maps are read as above |
| `CodeGenConfigLoader.CreateDefaultConfig` | src/main/java/com/example/demo/codegen/config/CodeGenConfigLoader.java:102-106 | The builder defaults with base package `com.example.demo.model` |
| `CodeGenConfigLoader.LoadFromClasspath` | src/main/java/com/example/demo/codegen/config/CodeGenConfigLoader.java:30-48 | A missing resource and a read failure both yield the default configuration, not an error; a loaded resource yields the configuration built from its properties |
| `CodeGenConfigLoader.EmptyPropertiesGiveDefaults` | src/main/java/com/example/demo/codegen/config/CodeGenConfigLoader.java:57-64 | Empty properties build exactly the default configuration |
| `CodeGenConfigLoader.UnrecognizedKeysIgnored` | src/main/java/com/example/demo/codegen/config/CodeGenConfigLoader.java:56-83 | Two property maps that agree on every key the loader reads build the same configuration, whatever else they hold |
| `CodeGenConfigLoader.UnreadTemplatesStayDisabled` | src/main/java/com/example/demo/codegen/config/CodeGenConfigLoader.java:76-83 | No property file enables `controller`, `convertor` or `repository` |
| `CodeGenConfigLoader.KeySpelling` | src/main/java/com/example/demo/codegen/config/CodeGenConfigLoader.java:71-81 | The suffix and flag keys are spelled `codegen.package.serviceImpl` and `codegen.template.mapstruct.enabled` |
| `CodeGenConfigLoader.ParseBooleanExamples` | src/main/java/com/example/demo/codegen/config/CodeGenConfigLoader.java:96 | `true`, `TRUE` and `True` turn a flag on; `yes`, `1`, `false` and the empty string do not |
| `EntityParser.SourcePath` | src/main/java/com/example/demo/codegen/core/EntityParser.java:28-29 | The output dir, `/`, the qualified class name with every `.` replaced by `/`, then `.java`; no `.` remains in the class part |
| `EntityParser.ExtractBasePackage` | src/main/java/com/example/demo/codegen/core/EntityParser.java:68-74 | When the suffix occurs at a positive index, the package is cut at its last occurrence; when it is absent or occurs only at index 0, the package is unchanged |
| `EntityParser.Parse` | src/main/java/com/example/demo/codegen/core/EntityParser.java:26-63 | The missing file, the missing class and the missing `@Id` field are the error cases, in that order. Success exactly otherwise, with name, package and fields kept, the base package extracted, the class comment defaulting to `Generated class for <name>`, and the id type of the first `@Id` field |
| `EntityParser.IdTypeIsFirstIdField` | src/main/java/com/example/demo/codegen/core/EntityParser.java:52 | In parsed metadata, the id type is the declared type of the first `@Id` field among the kept fields |
| `EntityParser.ExtractBasePackageInside` | src/main/java/com/example/demo/codegen/core/EntityParser.java:69-71 | The cut is not anchored at the end: `a.dal.entity.sub` gives `a` |
| `EntityParser.ExtractBasePackageSuffixOnly` | src/main/java/com/example/demo/codegen/core/EntityParser.java:70-73 | A package that is just the suffix, found at index 0, is returned whole |
| `CodeTemplate.Files` | src/main/java/com/example/demo/codegen/core/CodeTemplate.java:10-21 | In the model, a built-in template never throws before writing, because type-name resolution is taken to succeed (see "## Left out"). It writes exactly one file, except the query stub, which writes none; a custom template yields its own files or exception |
| `CodeTemplate.BuiltInNames` | src/main/java/com/example/demo/codegen/template/ServiceImplCodeTemplate.java:101-104 | The two service templates share the name `service`. Under the default enable map, exactly the controller, converter and repository templates are off |
| `CodeGenerator.New` | src/main/java/com/example/demo/CodeGenerator.java:28-32 | The generator keeps the configuration it is given and starts with the dto, mapper and service templates, in that order |
| `CodeGenerator.NewDefault` | src/main/java/com/example/demo/CodeGenerator.java:37-41 | The no-argument generator has base package `com.example.demo.model` and builder defaults, which is the configuration the loader falls back to |
| `CodeGenerator.FromConfigFile` | src/main/java/com/example/demo/CodeGenerator.java:46-55 | A missing or unreadable resource gives exactly the default generator; a loaded one gives the configuration built from its properties; the initial templates either way |
| `CodeGenerator.AddTemplate` | src/main/java/com/example/demo/CodeGenerator.java:111-113 | The new template goes last; the earlier templates and their order are unchanged, and so is the configuration |
| `CodeGenerator.WritePaths` | src/main/java/com/example/demo/CodeGenerator.java:71-77 | The paths written are a prefix of those requested, none of them unwritable. The run stops at the first unwritable path, which becomes the failure; there is no failure exactly when every path was written |
| `CodeGenerator.WriteFiles` | src/main/java/com/example/demo/codegen/template/DtoCodeTemplate.java:42-45 | A template's files are written in order under the output dir. The written paths are a prefix of their output paths, and a failure names the first file whose path cannot be written |
| `CodeGenerator.RunTemplate` | src/main/java/com/example/demo/CodeGenerator.java:71-77 | The outcome is logged under the template's name. An exception before writing becomes the failure, with nothing written. Otherwise the written paths are a prefix of the template's output paths, with no failure exactly when all were written |
| `CodeGenerator.EnabledTemplates` | src/main/java/com/example/demo/CodeGenerator.java:69-70 | Only registered templates whose name is enabled are kept, and every enabled registered template is kept |
| `CodeGenerator.RunTemplates` | src/main/java/com/example/demo/CodeGenerator.java:69-79 | The loop over the registered templates skips disabled ones and runs each enabled one in its own `try`. It yields exactly the per-template log that the fold `RunAll` defines |
| `CodeGenerator.Generate` | src/main/java/com/example/demo/CodeGenerator.java:60-87 | Succeeds exactly when the parse does. A parse failure propagates, with no template run. On success the base package is overwritten with the parsed one, and the log has one entry per enabled template, in registration order, each run against the updated configuration |
| `CodeGenerator.GenerateWithDefaults` | src/main/java/com/example/demo/CodeGenerator.java:92-94 | The static entry point succeeds exactly when parsing under the default configuration does; the run keeps the initial templates and points the base package at the entity's |
| `CodeGenerator.EnabledTemplatesAppend` | src/main/java/com/example/demo/CodeGenerator.java:69-70 | Filtering a concatenation of template lists is the concatenation of the filtered lists |
| `CodeGenerator.RunAllAppend` | src/main/java/com/example/demo/CodeGenerator.java:69-79 | The log of two lists run one after the other is the first list's log followed by the second's: a failing template does not affect any other template's outcome (templates do not change the shared configuration in the model; see "## Left out") |
| `CodeGenerator.AddTemplateAppendsOutcome` | src/main/java/com/example/demo/CodeGenerator.java:111-113 | Adding a template does not change whether the run succeeds, and it leaves every earlier outcome unchanged. It adds that template's own outcome at the end only when its name is enabled |
| `CodeGenerator.RerunIsIdempotent` | src/main/java/com/example/demo/CodeGenerator.java:63-66 | Generating again with the generator a run leaves behind reproduces the same run: writing the base package back does not change the parse |
| `CodeGenerator.InitialTemplatesEnabled` | src/main/java/com/example/demo/CodeGenerator.java:99-106 | Under the default enable map, all three initial templates run |
| `CodeGenerator.DefaultRunOrder` | src/main/java/com/example/demo/CodeGenerator.java:99-106 | Under the default enable map, a successful run logs dto, mapper and service, in that order |
| `CodeGenerator.DisabledTemplateAddsNothing` | src/main/java/com/example/demo/CodeGenerator.java:69-70 | A registered template whose name is disabled leaves the log unchanged |
| `CodeGenerator.AddedControllerSkippedByDefault` | src/main/java/com/example/demo/codegen/config/CodeGenConfig.java:72-74 | A controller added with `addTemplate` never runs under the default enable map |
| `Properties.PropertyDoc` | src/main/java/com/example/demo/codegen/template/DtoCodeTemplate.java:35-37 | A field's comment followed by a line break when it has one; no comment otherwise |
| `Properties.PropertiesOf` | src/main/java/com/example/demo/codegen/template/DtoCodeTemplate.java:27-40 | One private property per field, in declaration order. Each is named after the field's first variable, typed by the resolver, and carries the field's comment when present |
| `DtoCodeTemplate.Generate` | src/main/java/com/example/demo/codegen/template/DtoCodeTemplate.java:20-46 | A public `@Data` class `<Class>Dto` in `getFullPackage("dto")`, with class comment `<classJavadoc>\n`. Its properties match the entity's fields one for one, in order, with resolved types and copied comments; it has no methods |
| `MapperCodeTemplate.Generate` | src/main/java/com/example/demo/codegen/template/MapperCodeTemplate.java:18-34 | The interface `<Class>FlexMapper` in `getFullPackage("mapper")`, whose only super-interface is `BaseMapper<package.Class>`; no members |
| `MapperCodeTemplate.IdTypeHasNoEffect` | src/main/java/com/example/demo/codegen/template/MapperCodeTemplate.java:20 | The resolved id type does not influence the mapper |
| `RepositoryCodeTemplate.Generate` | src/main/java/com/example/demo/codegen/template/RepositoryCodeTemplate.java:20-35 | The interface `<Class>Repository` in `getFullPackage("repository")` extends `JpaRepository<Entity, Long>`, with comment `<classJavadoc> Repository接口` |
| `RepositoryCodeTemplate.IdTypeAndFieldsHaveNoEffect` | src/main/java/com/example/demo/codegen/template/RepositoryCodeTemplate.java:21-23 | The key type is `Long` whatever the entity's id type, and the fields play no part |
| `QueryCodeTemplate.Generate` | src/main/java/com/example/demo/codegen/template/QueryCodeTemplate.java:17-19 | The query stub emits no file |
| `ConvertorCodeTemplate.Generate` | src/main/java/com/example/demo/codegen/template/ConvertorCodeTemplate.java:22-55 | The `@Mapper` interface `<Class>MapStructMapper` in `<base>.mapstruct`. It declares exactly `toEntity` then `toDto`, each abstract, each taking what the other returns: the entity in `<base>.dal.entity`, the DTO in `<base>.dto` |
| `ConvertorCodeTemplate.ConfigHasNoEffect` | src/main/java/com/example/demo/codegen/template/ConvertorCodeTemplate.java:23-27 | The configuration has no influence on the converter |
| `ServiceSignature.OperationNames` | src/main/java/com/example/demo/codegen/template/ServiceCodeTemplate.java:76-81 | The service operations are `selectById`, `insert`, `updateById`, `deleteById`, `selectList`, `selectPage` in that order, whatever the queries filter by |
| `ServiceCodeTemplate.Generate` | src/main/java/com/example/demo/codegen/template/ServiceCodeTemplate.java:19-88 | The interface `<Class>Service` in `<base>.service`, commented `Service interface for <Class>` without the class comment. It declares the six abstract operations in order, over the entity in `<base>.dal.entity`; `selectList(query)` and `selectPage(int, int, query)` take `<base>.dto.<Class>Query` |
| `ServiceCodeTemplate.ConfigHasNoEffect` | src/main/java/com/example/demo/codegen/template/ServiceCodeTemplate.java:20-25 | The configured suffixes play no part: the packages are hard-coded relative to the base package |
| `ServiceImplCodeTemplate.Generate` | src/main/java/com/example/demo/codegen/template/ServiceImplCodeTemplate.java:20-43 | The interface `<Class>Service` in `getFullPackage("service")`. It declares the six abstract operations in order over the entity's own package, with the query type taken from `getFullPackage("dto")` |
| `ServiceImplCodeTemplate.FieldsHaveNoEffect` | src/main/java/com/example/demo/codegen/template/ServiceImplCodeTemplate.java:20-37 | The entity's fields do not influence the service interface: filtering goes through the query object |
| `ControllerCodeTemplate.Handlers` | src/main/java/com/example/demo/codegen/template/ControllerCodeTemplate.java:43-48 | Six one-statement handlers `getById`, `create`, `update`, `delete`, `list`, `page`. `getById` and `delete` take the resolved id type as `id`, and `getById` returns the entity. `create` and `update` take the DTO as a required request body and return nothing. These four pass their parameter straight to `selectById`, `insert`, `updateById` and `deleteById`. `list` returns a list of DTOs and `page` a page of DTOs, each taking an optional query. The `list` statement is the source's text with its call left open, and `page` is a closed `selectPage` call passing page number, page size and the query. Both statements contain the fallback `query != null ? query : new $T()` with the query type as `$T`, and page defaults to page 1 of size 10 |
| `ControllerCodeTemplate.Generate` | src/main/java/com/example/demo/codegen/template/ControllerCodeTemplate.java:21-54 | The public `@RestController` class `<Class>Controller` in `getFullPackage("controller")`, mapped to `/api/<lower-case class>`, with one `@Autowired` field `service` of the configured service type and the six handlers as the source emits them, the unclosed `list` call included |
| `ControllerCodeTemplate.GenerateCorrected` | src/main/java/com/example/demo/codegen/template/ControllerCodeTemplate.java:100-109 | The controller with the `list` call closed: the emitted file with one change, the `)` that the `list` statement lacks. Every other part of the file is the same, so its DTO types still differ from the service's |
| `ControllerCodeTemplate.HandlersDelegateToService` | src/main/java/com/example/demo/codegen/template/ControllerCodeTemplate.java:56-122 | Handler i consists of one statement that calls the i-th service operation. Every handler but `list` closes every parenthesis it opens; `list` leaves exactly one open |
| `ControllerCodeTemplate.CorrectedHandlersDelegateToService` | src/main/java/com/example/demo/codegen/template/ControllerCodeTemplate.java:56-122 | In the corrected controller every handler, `list` included, is one balanced call of the service operation at its position |
| `ControllerCodeTemplate.ListLeavesCallOpen` | src/main/java/com/example/demo/codegen/template/ControllerCodeTemplate.java:100-109 | The emitted `list` handler is one statement calling `service.selectList` that opens one parenthesis more than it closes |
| `ControllerCodeTemplate.QueryFallbacks` | src/main/java/com/example/demo/codegen/template/ControllerCodeTemplate.java:100-122 | The `list` and `page` statements each contain `query != null ? query : new $T()` right after the arguments before it, so a missing query is replaced by a fresh one |
| `ControllerCodeTemplate.GetByIdDelegates` | src/main/java/com/example/demo/codegen/template/ControllerCodeTemplate.java:56-65 | `getById` is one balanced call of `service.selectById` |
| `ControllerCodeTemplate.CreateDelegates` | src/main/java/com/example/demo/codegen/template/ControllerCodeTemplate.java:67-76 | `create` is one balanced call of `service.insert` |
| `ControllerCodeTemplate.UpdateDelegates` | src/main/java/com/example/demo/codegen/template/ControllerCodeTemplate.java:78-87 | `update` is one balanced call of `service.updateById` |
| `ControllerCodeTemplate.DeleteDelegates` | src/main/java/com/example/demo/codegen/template/ControllerCodeTemplate.java:89-98 | `delete` is one balanced call of `service.deleteById` |
| `ControllerCodeTemplate.ListDelegates` | src/main/java/com/example/demo/codegen/template/ControllerCodeTemplate.java:100-109 | The corrected `list` handler is one balanced call of `service.selectList` |
| `ControllerCodeTemplate.PageDelegates` | src/main/java/com/example/demo/codegen/template/ControllerCodeTemplate.java:111-122 | `page` is one balanced call of `service.selectPage` |
| `ControllerCodeTemplate.ListStatementAsWrittenUnclosed` | src/main/java/com/example/demo/codegen/template/ControllerCodeTemplate.java:106 | The list statement as written opens one parenthesis more than it closes; the corrected statement is the same text plus `)` and is balanced |
| `ControllerServiceConsistency.ControllerMatchesService` | src/main/java/com/example/demo/codegen/template/ControllerCodeTemplate.java:22-26 | The controller's `service` field has the type of the interface the service template generates. Each handler calls the operation that interface declares at the same position, and the list query parameter has the controller's query type. Every call but `list`'s is closed; `list` leaves one parenthesis open. In the corrected controller every call is closed. The parameter and result types agree for the id, the looked-up entity, paging and the query, and differ for `create`, `update`, `list` and `page` |
| `ControllerServiceConsistency.HandlerTypesAgree` | src/main/java/com/example/demo/codegen/template/ControllerCodeTemplate.java:22-29 | `getById`, `delete` and `page` take the same parameter types as `selectById`, `deleteById` and `selectPage`, and `getById` returns the same entity type as `selectById` |
| `ControllerServiceConsistency.HandlerTypesDiffer` | src/main/java/com/example/demo/codegen/template/ControllerCodeTemplate.java:25-29 | For every entity and configuration, `create` and `update` take a different type than `insert` and `updateById`, and `list` and `page` return a different type than `selectList` and `selectPage` |
| `ControllerServiceConsistency.ControllerTypes` | src/main/java/com/example/demo/codegen/template/ControllerCodeTemplate.java:56-122 | `getById` and `delete` take the id type and `create` and `update` the DTO; `page` takes two ints and the query. `getById` returns the entity, `list` a list of DTOs and `page` a page of DTOs |
| `ControllerServiceConsistency.ServiceSingleTypes` | src/main/java/com/example/demo/codegen/template/ServiceImplCodeTemplate.java:45-79 | `selectById` and `deleteById` take the id, `selectById` returns the entity, and `insert` and `updateById` take the entity |
| `ControllerServiceConsistency.ServiceQueryTypes` | src/main/java/com/example/demo/codegen/template/ServiceImplCodeTemplate.java:81-99 | `selectList` takes the query and returns a list of entities; `selectPage` takes page number, page size and the query and returns a page of entities |
| `ControllerServiceConsistency.ServiceNames` | src/main/java/com/example/demo/codegen/template/ServiceImplCodeTemplate.java:32-37 | The generated service interface declares the six operations under their usual names, in order |
| `DtoTemplate.Generate` | src/main/java/com/example/demo/template/DtoTemplate.java:26-52 | The `@Data` class `<Entity>Dto` in the hard-coded `<package>.dto`, whatever any configuration says. Its properties match the fields one for one, in order, with resolved types and copied comments |
| `DtoTemplates.SameResolverSameProperties` | src/main/java/com/example/demo/template/DtoTemplate.java:33-46 | The properties built through the older helper copy equal those built through the current one |
| `DtoTemplates.LegacyDtoAgrees` | src/main/java/com/example/demo/template/DtoTemplate.java:26-52 | When the configured DTO package is `<package>.dto`, the legacy DTO template and the DTO code template produce the same file |
| `QueryTemplate.Generate` | src/main/java/com/example/demo/template/QueryTemplate.java:20-46 | The `@Data` class `<Entity>Query` in `<package>.dto`, commented `<classJavadoc>` then `Query object for filtering <Entity> entities`, with one property per field |
| `QueryTemplate.QueryMirrorsDto` | src/main/java/com/example/demo/template/QueryTemplate.java:27-42 | The query object has exactly the DTO's properties (names, types, order, comments) and package, under a different class name |
| `MapStructMapperTemplate.Generate` | src/main/java/com/example/demo/template/MapStructMapperTemplate.java:16-46 | The `@Mapper` interface `<Entity>MapStructMapper` in `<package>.mapstruct`. It declares exactly `toEntity` then `toDto`, mirrored, between `package.Entity` and `package.dto.EntityDto`, with the class comment first |
| `MyBatisFlexMapperTemplate.Generate` | src/main/java/com/example/demo/template/MyBatisFlexMapperTemplate.java:16-32 | The interface `<Entity>FlexMapper` in `<package>.dal.mapper` extends `BaseMapper<package.dal.entity.Entity>`; no members |
| `MyBatisFlexMapperTemplate.IdTypeHasNoEffect` | src/main/java/com/example/demo/template/MyBatisFlexMapperTemplate.java:18 | The id type is resolved but has no influence on the output |
| `ServiceInterfaceTemplate.FilterParams` | src/main/java/com/example/demo/template/ServiceInterfaceTemplate.java:68-76 | One filter parameter per field, in order, named after the first variable and typed by `resolveTypeName` |
| `ServiceInterfaceTemplate.Generate` | src/main/java/com/example/demo/template/ServiceInterfaceTemplate.java:21-96 | The interface `<Entity>Service` in `<package>.service` declares the six abstract operations in order. `selectList` takes the filter parameters; `selectPage` takes `int pageNumber`, `int pageSize`, then the same parameters. The two query comments list one `@param` line per field, in order |
| `ServiceImplTemplate.FilterLoopSpec` | src/main/java/com/example/demo/template/ServiceImplTemplate.java:94-109 | The field loop fails exactly when some column name cannot be read, with the first such failure. Otherwise it yields the interface's filter parameters and `@param` lines and one skip-if-null filter per field, all in field order |
| `ServiceImplTemplate.Overrides` | src/main/java/com/example/demo/template/ServiceImplTemplate.java:42-116 | The six overrides have the interface's signatures, in order. The query bodies are the wrapper set-up (plus the page in `selectPage`), then the filters, then the final query |
| `ServiceImplTemplate.Generate` | src/main/java/com/example/demo/template/ServiceImplTemplate.java:22-137 | Fails exactly when a column name cannot be read. Otherwise: the `@Service` class `<Entity>ServiceImpl` in `<package>.service.impl` implementing `<package>.service.<Entity>Service`, commented with the class comment then `Service implementation for <Entity>`, with the `mapper` field, then the constructor and the six operations, whose query bodies and comments carry the per-field filters in order |
| `LegacyConsistency.ImplementsInterface` | src/main/java/com/example/demo/template/ServiceImplTemplate.java:118-131 | The implementation's only super-interface is the legacy interface generated for the same arguments. After the constructor, it overrides each of the interface's operations with the same signature, in the same order |
| `LegacyConsistency.MapperFieldMatchesMapper` | src/main/java/com/example/demo/template/ServiceImplTemplate.java:25-33 | The `mapper` field has the type of the legacy mapper generated from the same package argument |
| `LegacyConsistency.ConverterUsesDto` | src/main/java/com/example/demo/template/MapStructMapperTemplate.java:18 | The converter's DTO type is the class the legacy DTO template generates |
| `LegacyConsistency.SameVariablesSameDocs` | src/main/java/com/example/demo/template/ServiceInterfaceTemplate.java:68-76 | The filter `@param` lines depend only on the fields' first variables |
| `LegacyConsistency.ColumnValuesIgnored` | src/main/java/com/example/demo/template/ServiceImplTemplate.java:94-109 | The column names read never reach the output: fields that differ only in annotations or comments give the same implementation, as long as every column name can be read |
| `UserScenario.UserBasePackageCut` | src/main/java/com/example/demo/codegen/core/EntityParser.java:68-74 | `com.example.demo.model.dal.entity` gives base package `com.example.demo.model` |
| `UserScenario.UserIdType` | src/main/java/com/example/demo/model/dal/entity/User.java:17-18 | The `User` entity's id type is `Long` |
| `UserScenario.UserMetadata` | src/main/java/com/example/demo/codegen/core/EntityParser.java:26-63 | Under the default configuration, `User` parses to its name, package, base package, class comment, `Long` id and its four fields |
| `UserScenario.UserDtoProperties` | src/main/java/com/example/demo/model/dal/entity/User.java:17-32 | The `User` DTO has the properties `id`, `username`, `email`, `deleted`, in that order |
| `UserScenario.UserDefaultRun` | src/main/java/com/example/demo/CodeGenerator.java:60-87 | The default generator run on `User` succeeds, points the base package at `com.example.demo.model` and logs dto, mapper and service, in that order |

## Left out

- File output: `JavaFile.writeTo` is modelled by a set of unwritable paths. Rendering Java text, import management and formatting are not modelled; a template's output is its abstract specification.
- The legacy static templates write to their fixed `src/main/java` directory. They are modelled as returning the file they would write.
- Parsing Java source: the entity arrives already parsed, as a class declaration in a map from path to compilation unit. A syntax error and an I/O error while reading are not modelled. So the `IOException` that `generate` rethrows as `RuntimeException` (CodeGenerator.java:83-86) never arises in the model.
- Logging: the log lines are replaced by the returned outcome list.
- `CodeGenerator.RunTemplate`: a template is modelled as not changing the shared configuration. In the source every template receives the generator's one mutable `CodeGenConfig` (CodeGenConfig.java:14-15 is `@Data`, so it has setters, and its maps are handed out by reference). `generate` re-reads `isTemplateEnabled` and passes that same object on each iteration (CodeGenerator.java:69-72). So a custom template can change the base package, the package suffixes or the enable map. That would change which later templates run, where they write, and the configuration the generator keeps. The built-in templates only read the configuration, so this matters only for `Custom` templates. `CodeGenerator.RunAllAppend` and `CodeGenerator.Generate` ("each run against the updated configuration") hold under this assumption.
- Unicode case mapping: `toLowerCase`, `toUpperCase`, `Character.isUpperCase` and `equalsIgnoreCase` are modelled for ASCII letters only.
- `TemplateUtils.ResolveTypeName`: every name other than `Long`, `String` and `Integer` becomes an opaque `ClassName.bestGuess` value, and that always succeeds in the model. JavaPoet's `bestGuess` throws `IllegalArgumentException` for names that are not class names. These include primitive names such as `int`, `long` and `boolean`, array types such as `byte[]`, and other lower-case names. So in the source the DTO template fails for an entity with such a field type (DtoCodeTemplate.java:30). The mapper, service, service-interface and controller templates fail for such an id type (MapperCodeTemplate.java:20, ServiceCodeTemplate.java:24, ServiceImplCodeTemplate.java:22, ControllerCodeTemplate.java:24). `generate` then logs the failure and writes nothing for that template (CodeGenerator.java:73-76), while the model records the file as written.
- `LegacyTemplateUtils.ResolveTypeName` has the same gap for the legacy templates.
- `CodeTemplate.Files` models a built-in template as never throwing before writing; in the source the `bestGuess` failure above can make one throw.
- `CodeTemplate.Files`: a custom template either throws before writing anything or hands back files that the generator writes under the output dir. A Java `CodeTemplate` can also write files itself, anywhere, and then throw. The logged failure is the same, but such files are missing from the outcome's written paths.
- `Paths.get` normalisation of the output dir is not modelled.
- `null` values inside the configuration maps (a `null` Boolean makes `isTemplateEnabled` throw) cannot be expressed: the maps hold values. A `null` base package is modelled, and renders as `null`.
- Nested and multiple top-level classes: `getClassByName` is modelled as the first top-level class of that name.
- Doc comments with fixed wording are kept as `Javadoc.Doc` values, not as concatenated text. JavaPoet's treatment of `$` inside a concatenated comment is not modelled.
- `getConfig()` is a getter; the model's generator exposes its configuration directly.
- `entityClass` is modelled by its package and simple name (`JavaSource.EntityRef`); reflection is not.
- `UserScenario`: the comment texts of `User.java` are given without their leading `*` and surrounding whitespace, which `getContent()` would keep.
- `ServiceCodeTemplate.Generate` does not state the method comments; they are fixed texts held in `Javadoc.Doc`.
- `ServiceImplCodeTemplate.Generate` does not state the method comments, only the class comment.
- `ControllerCodeTemplate.Generate` does not state the handlers' mapping annotations or comments.
- `ServiceImplTemplate.Generate` states the class comment and the comments of the two query methods only, not those of the other members.
- `ServiceInterfaceTemplate.Generate` states the comments of the two query methods only, not those of the other operations.

## Findings

| source | as written | input that shows it | evidently intended | confidence | as-written member | corrected member |
|---|---|---|---|---|---|---|
| src/main/java/com/example/demo/codegen/template/ControllerCodeTemplate.java:106 | The `list` handler's statement is `return service.selectList(query != null ? query : new $T()`, which is missing the call's closing parenthesis | Any entity with the controller template enabled: the generated `list` opens one more parenthesis than it closes, so the controller does not compile | `return service.selectList(query != null ? query : new $T())`, as the `page` handler at line 119 does | not executed | `ControllerCodeTemplate.ListStatementAsWritten`, used by `ControllerCodeTemplate.Generate` (shown by `ControllerCodeTemplate.ListStatementAsWrittenUnclosed` and `ControllerCodeTemplate.ListLeavesCallOpen`) | `ControllerCodeTemplate.GenerateCorrected`, built on `ControllerCodeTemplate.ListStatement` (proved by `ControllerCodeTemplate.CorrectedHandlersDelegateToService` and `ControllerCodeTemplate.ListDelegates`) |
