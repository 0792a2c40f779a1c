/** The canonical records of pkg/models/types.go. */
module Models {

  /** `DBType` is a Go string type; the four supported tags are the constants below, and
      any other string is a value the type admits but no operation supports. */
  type DBType = string

  const MySQL: DBType := "mysql"
  const PostgreSQL: DBType := "postgresql"
  const Oracle: DBType := "oracle"
  const SQLServer: DBType := "sqlserver"

  predicate IsSupported(t: DBType) {
    t == MySQL || t == PostgreSQL || t == Oracle || t == SQLServer
  }

  /** A column: `nullable` plus four independent flags. An empty `default` or `comment`
      means the value is absent. */
  datatype Column = Column(
    name: string,
    columnType: string,
    nullable: bool,
    default: string,
    comment: string,
    isPK: bool,
    isFK: bool,
    isUnique: bool,
    isAutoIncr: bool)

  /** A foreign key; `onDelete`/`onUpdate` are empty unless a source fills them. */
  datatype FK = FK(
    name: string,
    column: string,
    refTable: string,
    refColumn: string,
    onDelete: string,
    onUpdate: string)

  /** An index; `indexType` is free text such as BTREE, HASH or FULLTEXT. */
  datatype Index = Index(name: string, columns: seq<string>, isUnique: bool, indexType: string)

  /** A table with an ordered column list and an ordered primary-key name list. */
  datatype Table = Table(
    name: string,
    columns: seq<Column>,
    primaryKey: seq<string>,
    foreignKeys: seq<FK>,
    indexes: seq<Index>)

  datatype Schema = Schema(database: string, tables: seq<Table>, dbType: DBType)

  /** The answer to a query-generation request. `executeTime` is a measured duration. */
  datatype QueryResponse = QueryResponse(query: string, explanation: string, tips: seq<string>, executeTime: int)

  /** One problem found in a query; `issueType` is documented as error, warning or info. */
  datatype Issue = Issue(issueType: string, message: string, location: string, suggestion: string)

  /** The result of validating a query; `score` is documented as a 0-100 performance score and
      `aiResponseTime` is a measured duration. */
  datatype QueryValidation = QueryValidation(
    isValid: bool,
    score: int,
    originalQuery: string,
    optimizedQuery: string,
    issues: seq<Issue>,
    suggestions: seq<string>,
    indexUsage: seq<string>,
    executionPlan: string,
    estimatedTime: string,
    aiResponseTime: int)

  /** A request to generate a query from a natural-language prompt; `queryType` is free
      text such as SELECT, INSERT, UPDATE, DELETE or ALTER. */
  datatype QueryRequest = QueryRequest(prompt: string, schema: Schema, queryType: string, optimize: bool)
}
