/** The PostgreSQL connector (internal/db/postgres.go) once its catalog queries have
    answered: how each row becomes a record, and `ExtractSchema` over those answers. */
module PostgresRows {
  import opened Wrappers
  import opened GoStrings
  import opened Models
  import opened Introspection

  /** A row of the information_schema.columns query, with the two key flags the query
      computes by joining the table's constraints. */
  datatype ColumnRow = ColumnRow(
    name: string,
    dataType: string,
    isNullable: string,
    default: Option<string>,
    isPK: bool,
    isFK: bool)

  /** One iteration of `getColumns`' row loop: a column is auto-incrementing exactly when it
      has a default that calls `nextval`; uniqueness and comments are never read. */
  function ColumnOf(row: ColumnRow): (col: Column)
    ensures col.name == row.name && col.columnType == row.dataType
    ensures col.nullable <==> row.isNullable == "YES"
    ensures col.isPK == row.isPK && col.isFK == row.isFK
    ensures !col.isUnique && col.comment == ""
    ensures col.default == OrEmpty(row.default)
    ensures col.isAutoIncr <==> row.default.Some? && Contains(row.default.value, "nextval")
    ensures col.isAutoIncr ==> Contains(col.default, "nextval")
  {
    var col := Column(row.name, row.dataType, row.isNullable == "YES", "", "", row.isPK, row.isFK, false, false);
    match row.default
    case None => col
    case Some(d) => col.(default := d, isAutoIncr := Contains(d, "nextval"))
  }

  /** What the four per-table queries answer for one table. The index rows carry their
      uniqueness as a flag already, so `getIndexes` is `Introspection.GetIndexes` itself. */
  datatype TableRows = TableRows(
    columns: Result<seq<ColumnRow>>,
    indexes: Result<seq<IndexRow>>,
    foreignKeys: Result<seq<FkRow>>,
    primaryKey: Result<seq<string>>)

  /** The four getters' results for one table. */
  function Meta(rows: TableRows): (meta: TableMeta)
    ensures meta.columns == MapRows(rows.columns, ColumnOf)
    ensures meta.indexes.Err? <==> rows.indexes.Err?
    ensures rows.indexes.Err? ==> meta.indexes.error == rows.indexes.error
    ensures rows.indexes.Ok? ==> meta.indexes.value == IndexMapOf(rows.indexes.value)
    ensures meta.foreignKeys == MapRows(rows.foreignKeys, FkOf)
    ensures meta.primaryKey == rows.primaryKey
  {
    TableMeta(
      MapRows(rows.columns, ColumnOf),
      if rows.indexes.Err? then Err(rows.indexes.error) else Ok(IndexMapOf(rows.indexes.value)),
      MapRows(rows.foreignKeys, FkOf),
      rows.primaryKey)
  }

  /** Per-table metadata as `ExtractSchema` sees it: the queries take the listed name as is. */
  function Lookup(catalog: string -> TableRows): (lookup: string -> TableMeta)
    ensures forall name :: lookup(name) == Meta(catalog(name))
  {
    name => Meta(catalog(name))
  }

  /** `ExtractSchema`: the schema is tagged `postgresql` and named after the configured
      database. */
  method ExtractSchema(database: string, tables: Result<seq<string>>, catalog: string -> TableRows)
    returns (r: Result<Schema>)
    ensures Extracted(r, database, PostgreSQL, tables, Lookup(catalog))
    ensures r.Ok? ==> r.value.dbType == PostgreSQL && r.value.database == database
  {
    r := Introspection.ExtractSchema(database, PostgreSQL, tables, Lookup(catalog));
  }
}
