/** The MySQL connector (internal/db/mysql.go) once its INFORMATION_SCHEMA queries have
    answered: how each row becomes a record, and `ExtractSchema` over those answers. */
module MySqlRows {
  import opened Wrappers
  import opened GoStrings
  import opened Models
  import opened Introspection

  /** A row of the INFORMATION_SCHEMA.COLUMNS query; NULL-able columns are options. */
  datatype ColumnRow = ColumnRow(
    name: string,
    dataType: string,
    isNullable: string,
    default: Option<string>,
    columnKey: string,
    extra: string,
    comment: Option<string>)

  /** One iteration of `getColumns`' row loop. */
  function ColumnOf(row: ColumnRow): (col: Column)
    ensures col.name == row.name && col.columnType == row.dataType
    ensures col.nullable <==> row.isNullable == "YES"
    ensures col.isPK <==> row.columnKey == "PRI"
    ensures col.isFK <==> row.columnKey == "MUL"
    ensures col.isUnique <==> row.columnKey == "UNI"
    ensures !(col.isPK && col.isFK) && !(col.isPK && col.isUnique) && !(col.isFK && col.isUnique)
    ensures col.isAutoIncr <==> Contains(row.extra, "auto_increment")
    ensures col.default == OrEmpty(row.default) && col.comment == OrEmpty(row.comment)
  {
    Column(
      row.name, row.dataType, row.isNullable == "YES",
      OrEmpty(row.default), OrEmpty(row.comment),
      row.columnKey == "PRI", row.columnKey == "MUL", row.columnKey == "UNI",
      Contains(row.extra, "auto_increment"))
  }

  /** A row of the INFORMATION_SCHEMA.STATISTICS query. */
  datatype StatisticsRow = StatisticsRow(indexName: string, columnName: string, nonUnique: int, indexType: string)

  /** The row as the fold reads it: an index is unique when NON_UNIQUE is 0. */
  function IndexRowOf(row: StatisticsRow): (r: IndexRow)
    ensures r.isUnique <==> row.nonUnique == 0
    ensures r.indexName == row.indexName && r.columnName == row.columnName && r.indexType == row.indexType
  {
    IndexRow(row.indexName, row.columnName, row.nonUnique == 0, row.indexType)
  }

  /** `getIndexes` once the query has answered. */
  method GetIndexes(rows: Result<seq<StatisticsRow>>) returns (indexes: Result<seq<Index>>)
    ensures rows.Err? ==> indexes == Err(rows.error)
    ensures rows.Ok? ==>
      (indexes.Ok? && IsListing(indexes.value, IndexMapOf(MapRows(rows, IndexRowOf).value)))
  {
    var converted := ReadRows(rows, IndexRowOf);
    indexes := Introspection.GetIndexes(converted);
  }

  /** What the four per-table queries answer for one table. */
  datatype TableRows = TableRows(
    columns: Result<seq<ColumnRow>>,
    indexes: Result<seq<StatisticsRow>>,
    foreignKeys: Result<seq<FkRow>>,
    primaryKey: Result<seq<string>>)

  /** The four getters' results for one table. */
  function Meta(rows: TableRows): (meta: TableMeta)
    ensures meta.columns == MapRows(rows.columns, ColumnOf)
    ensures meta.indexes.Err? <==> rows.indexes.Err?
    ensures rows.indexes.Err? ==> meta.indexes.error == rows.indexes.error
    ensures rows.indexes.Ok? ==> meta.indexes.value == IndexMapOf(MapRows(rows.indexes, IndexRowOf).value)
    ensures meta.foreignKeys == MapRows(rows.foreignKeys, FkOf)
    ensures meta.primaryKey == rows.primaryKey
  {
    var indexRows := MapRows(rows.indexes, IndexRowOf);
    TableMeta(
      MapRows(rows.columns, ColumnOf),
      if indexRows.Err? then Err(indexRows.error) else Ok(IndexMapOf(indexRows.value)),
      MapRows(rows.foreignKeys, FkOf),
      rows.primaryKey)
  }

  /** Per-table metadata as `ExtractSchema` sees it: the queries take the listed name as is. */
  function Lookup(catalog: string -> TableRows): (lookup: string -> TableMeta)
    ensures forall name :: lookup(name) == Meta(catalog(name))
  {
    name => Meta(catalog(name))
  }

  /** `ExtractSchema`: the schema is tagged `mysql` and named after the configured database. */
  method ExtractSchema(database: string, tables: Result<seq<string>>, catalog: string -> TableRows)
    returns (r: Result<Schema>)
    ensures Extracted(r, database, MySQL, tables, Lookup(catalog))
    ensures r.Ok? ==> r.value.dbType == MySQL && r.value.database == database
  {
    r := Introspection.ExtractSchema(database, MySQL, tables, Lookup(catalog));
  }
}
