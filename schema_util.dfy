/*
 * `SchemaUtil`: the core module's copy of the schema splitter. Its reader
 * loop is the same text as the one in `DatabaseUtil`; only the resource
 * lookup differs (the context class loader instead of the class's own).
 */
module SchemaUtil {
  import opened JavaLang
  import DatabaseUtil

  /** `loadSchemaStatements`: a missing resource is an `IOException`; otherwise the same statements as `DatabaseUtil`. */
  method LoadSchemaStatements(resource: Option<seq<string>>) returns (r: Outcome<seq<string>>)
    ensures resource.None? ==> r == Throws(IOException)
    ensures resource.Some? ==> r == Ok(DatabaseUtil.SchemaStatements(resource.value))
  {
    r := DatabaseUtil.LoadSchemaStatements(resource);
  }
}
