/** The Javadoc comments the templates attach to generated types, fields and methods. A comment
    with fixed wording is kept as which comment it is plus the names substituted into it, the way
    JavaPoet's `addJavadoc(format, args)` keeps a format and its arguments; `Text` renders it.
    A comment copied from the entity source is kept as its text. */
module Javadoc {

  datatype Doc =
    /** Text taken from the entity source, or no comment at all (the empty text). */
    | Plain(text: string)
    /** A class comment that starts with the entity's own comment and a line break. */
    | AfterEntityDoc(classJavadoc: string, rest: Doc)
    /** Type comments. */
    | ServiceInterface(entity: string)
    | ServiceImplementation(entity: string)
    | FlexMapperInterface(entity: string)
    | MapStructInterface(entity: string)
    | QueryObject(entity: string)
    | RestController(classJavadoc: string)
    | RepositoryInterface(classJavadoc: string)
    /** Member comments of the legacy service implementation. */
    | MapperFieldDoc(entity: string)
    | ImplConstructor(entity: string)
    /** The English service operation comments. */
    | SelectById(entity: string)
    | Insert(entity: string)
    | UpdateById(entity: string)
    | DeleteById(entity: string)
    | SelectList(entity: string)
    | SelectPage(entity: string)
    /** The legacy service's query comments: `filters` holds one `@param` line per filter field,
        placed before the `@return` line in the interface and before everything in the
        implementation. */
    | FilteredSelectList(entity: string, filters: string)
    | FilteredSelectPage(entity: string, filters: string)
    | FiltersThenSelectList(filters: string, entity: string)
    | FiltersThenSelectPage(filters: string, entity: string)
    /** The Chinese service operation comments of the configured service template. */
    | SelectByIdZh(entity: string)
    | InsertZh(entity: string)
    | UpdateByIdZh(entity: string)
    | DeleteByIdZh(entity: string)
    | SelectListZh(entity: string)
    | SelectPageZh(entity: string)
    /** The REST handler comments. */
    | GetByIdHandler(entity: string)
    | CreateHandler(entity: string)
    | UpdateHandler(entity: string)
    | DeleteHandler(entity: string)
    | ListHandler(entity: string)
    | PageHandler(entity: string)
    /** The converter comments. */
    | ToEntity(entity: string)
    | ToDto(entity: string)

  /** The rendered comment. */
  function Text(d: Doc): string {
    match d
    case Plain(text) => text
    case AfterEntityDoc(classJavadoc, rest) => classJavadoc + "\n" + Text(rest)
    case ServiceInterface(e) => "Service interface for " + e + "\n"
    case ServiceImplementation(e) => "Service implementation for " + e + "\n"
    case FlexMapperInterface(e) => "MyBatis-Flex Mapper interface for " + e + "\n"
    case MapStructInterface(e) => "MapStruct mapper for converting between " + e + " and " + e + "Dto\n"
    case QueryObject(e) => "Query object for filtering " + e + " entities\n"
    case RestController(classJavadoc) => classJavadoc + " REST API Controller\n"
    case RepositoryInterface(classJavadoc) => classJavadoc + " Repository接口\n"
    case MapperFieldDoc(e) => "The MyBatis-Flex mapper for " + e + "\n"
    case ImplConstructor(e) => "Constructs a new " + e + "ServiceImpl.\n@param mapper the MyBatis-Flex mapper\n"
    case SelectById(e) => "Selects a " + e + " by ID.\n@param id the ID of the " + e + "\n@return the " + e + " entity\n"
    case Insert(e) => "Inserts a new " + e + ".\n@param entity the " + e + " to insert\n"
    case UpdateById(e) => "Updates a " + e + " by ID.\n@param entity the " + e + " to update\n"
    case DeleteById(e) => "Deletes a " + e + " by ID.\n@param id the ID of the " + e + " to delete\n"
    case SelectList(e) =>
      "Queries a list of " + e + " based on conditions, excluding deleted records.\n@param query the query conditions\n"
      + "@return the list of " + e + " entities\n"
    case SelectPage(e) =>
      "Queries a paginated list of " + e + " based on conditions, excluding deleted records.\n"
      + "@param pageNumber the page number\n@param pageSize the page size\n@param query the query conditions\n"
      + "@return the paginated list of " + e + " entities\n"
    case FilteredSelectList(e, filters) =>
      "Queries a list of " + e + " based on conditions.\n" + filters + "@return the list of " + e + " entities\n"
    case FilteredSelectPage(e, filters) =>
      "Queries a paginated list of " + e + " based on conditions.\n@param pageNumber the page number\n@param pageSize the page size\n"
      + filters + "@return the paginated list of " + e + " entities\n"
    case FiltersThenSelectList(filters, e) =>
      filters + "Queries a list of " + e + " based on conditions.\n" + "@return the list of " + e + " entities\n"
    case FiltersThenSelectPage(filters, e) =>
      filters + "Queries a paginated list of " + e + " based on conditions.\n" + "@return the paginated list of " + e + " entities\n"
    case SelectByIdZh(e) => "根据ID查询" + e + "\n@param id " + e + "的ID\n@return " + e + "实体\n"
    case InsertZh(e) => "新增" + e + "\n@param entity 要新增的" + e + "\n"
    case UpdateByIdZh(e) => "根据ID更新" + e + "\n@param entity 要更新的" + e + "\n"
    case DeleteByIdZh(e) => "根据ID删除" + e + "\n@param id 要删除的" + e + "的ID\n"
    case SelectListZh(e) => "根据条件查询" + e + "列表\n@param query 查询条件\n@return " + e + "实体列表\n"
    case SelectPageZh(e) =>
      "根据条件分页查询" + e + "\n@param pageNumber 页码\n@param pageSize 页大小\n@param query 查询条件\n@return " + e + "分页结果\n"
    case GetByIdHandler(e) => "查询" + e + "详情\n@param id " + e + "ID\n@return " + e + "详情\n"
    case CreateHandler(e) => "创建" + e + "\n@param dto " + e + "数据传输对象\n"
    case UpdateHandler(e) => "更新" + e + "\n@param dto " + e + "数据传输对象\n"
    case DeleteHandler(e) => "删除" + e + "\n@param id " + e + "ID\n"
    case ListHandler(e) => "查询" + e + "列表\n@param query 查询条件\n@return " + e + "列表\n"
    case PageHandler(e) =>
      "分页查询" + e + "\n@param pageNumber 页码\n@param pageSize 每页大小\n@param query 查询条件\n@return " + e + "分页结果\n"
    case ToEntity(e) => "Converts a " + e + "Dto to a " + e + " entity.\n@param dto the DTO to convert\n@return the " + e + " entity\n"
    case ToDto(e) => "Converts a " + e + " entity to a " + e + "Dto.\n@param entity the entity to convert\n@return the " + e + "Dto\n"
  }
}
