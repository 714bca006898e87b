/** The framework types the generated code refers to, as JavaPoet `ClassName`s. */
module Frameworks {
  import opened JavaPoet

  const LombokData := ClassRef("lombok", "Data")
  const BaseMapper := ClassRef("com.mybatisflex.core", "BaseMapper")
  const QueryWrapper := ClassRef("com.mybatisflex.core.query", "QueryWrapper")
  const MapStructMapper := ClassRef("org.mapstruct", "Mapper")
  const JpaRepository := ClassRef("org.springframework.data.jpa.repository", "JpaRepository")
  const Autowired := ClassRef("org.springframework.beans.factory.annotation", "Autowired")
  const SpringService := ClassRef("org.springframework.stereotype", "Service")
  const Override := JavaLang("Override")

  function Web(simple: string): TypeRef {
    ClassRef("org.springframework.web.bind.annotation", simple)
  }

  const RestController := Web("RestController")
  const RequestMapping := Web("RequestMapping")
  const GetMapping := Web("GetMapping")
  const PostMapping := Web("PostMapping")
  const PutMapping := Web("PutMapping")
  const DeleteMapping := Web("DeleteMapping")
  const RequestBody := Web("RequestBody")
  const RequestParam := Web("RequestParam")
}
