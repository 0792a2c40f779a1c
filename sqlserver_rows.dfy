/** The SQL Server connector (internal/db/sqlserver.go) once its INFORMATION_SCHEMA and
    sys.* queries have answered: how each row becomes a record, and `ExtractSchema` over
    those answers. */
module SqlServerRows {
  import opened Wrappers
  import opened Models
  import opened Introspection

  /** A row of the INFORMATION_SCHEMA.COLUMNS query; the key and identity flags are the
      integers the query computes. */
  datatype ColumnRow = ColumnRow(
    name: string,
    dataType: string,
    isNullable: string,
    default: Option<string>,
    isPK: int,
    isIdentity: int)

  /** One iteration of `getColumns`' row loop: the integer flags count only when exactly 1;
      foreign-key and uniqueness flags are never set. */
  function ColumnOf(row: ColumnRow): (col: Column)
    ensures col.name == row.name && col.columnType == row.dataType
    ensures col.nullable <==> row.isNullable == "YES"
    ensures col.isPK <==> row.isPK == 1
    ensures col.isAutoIncr <==> row.isIdentity == 1
    ensures !col.isFK && !col.isUnique
    ensures col.default == OrEmpty(row.default) && col.comment == ""
  {
    Column(row.name, row.dataType, row.isNullable == "YES", OrEmpty(row.default), "", row.isPK == 1, false, false, row.isIdentity == 1)
  }

  /** What the four per-table queries answer for one table. The index rows carry their
      uniqueness as a flag already, so `getIndexes` is `Introspection.GetIndexes` itself. */
  datatype TableRows = TableRows(
    columns: Result<seq<ColumnRow>>,
    indexes: Result<seq<IndexRow>>,
    foreignKeys: Result<seq<FkRow>>,
    primaryKey: Result<seq<string>>)

  /** The four getters' results for one table. */
  function Meta(rows: TableRows): (meta: TableMeta)
    ensures meta.columns == MapRows(rows.columns, ColumnOf)
    ensures meta.indexes.Err? <==> rows.indexes.Err?
    ensures rows.indexes.Err? ==> meta.indexes.error == rows.indexes.error
    ensures rows.indexes.Ok? ==> meta.indexes.value == IndexMapOf(rows.indexes.value)
    ensures meta.foreignKeys == MapRows(rows.foreignKeys, FkOf)
    ensures meta.primaryKey == rows.primaryKey
  {
    TableMeta(
      MapRows(rows.columns, ColumnOf),
      if rows.indexes.Err? then Err(rows.indexes.error) else Ok(IndexMapOf(rows.indexes.value)),
      MapRows(rows.foreignKeys, FkOf),
      rows.primaryKey)
  }

  /** Per-table metadata as `ExtractSchema` sees it: the queries take the listed name as is. */
  function Lookup(catalog: string -> TableRows): (lookup: string -> TableMeta)
    ensures forall name :: lookup(name) == Meta(catalog(name))
  {
    name => Meta(catalog(name))
  }

  /** `ExtractSchema`: the schema is tagged `sqlserver` and named after the configured
      database. */
  method ExtractSchema(database: string, tables: Result<seq<string>>, catalog: string -> TableRows)
    returns (r: Result<Schema>)
    ensures Extracted(r, database, SQLServer, tables, Lookup(catalog))
    ensures r.Ok? ==> r.value.dbType == SQLServer && r.value.database == database
  {
    r := Introspection.ExtractSchema(database, SQLServer, tables, Lookup(catalog));
  }
}
