/** The Oracle connector (internal/db/oracle.go) once its data-dictionary queries have
    answered: how each row becomes a record, and `ExtractSchema` over those answers. Oracle
    stores unquoted names in upper case, so every per-table query receives the listed name
    upper-cased. */
module OracleRows {
  import opened Wrappers
  import opened GoStrings
  import opened Models
  import opened Introspection

  /** A row of the user_tab_columns query; `isPK` is the query's `'Y'`/`'N'` flag. */
  datatype ColumnRow = ColumnRow(
    name: string,
    dataType: string,
    nullable: string,
    default: Option<string>,
    isPK: string)

  /** One iteration of `getColumns`' row loop: only nullability and the primary-key flag are
      read, both as `"Y"`; the other flags are never set. */
  function ColumnOf(row: ColumnRow): (col: Column)
    ensures col.name == row.name && col.columnType == row.dataType
    ensures col.nullable <==> row.nullable == "Y"
    ensures col.isPK <==> row.isPK == "Y"
    ensures !col.isFK && !col.isUnique && !col.isAutoIncr
    ensures col.default == OrEmpty(row.default) && col.comment == ""
  {
    Column(row.name, row.dataType, row.nullable == "Y", OrEmpty(row.default), "", row.isPK == "Y", false, false, false)
  }

  /** A row of the user_indexes query; `uniqueness` is `UNIQUE` or `NONUNIQUE`. */
  datatype IndexColumnRow = IndexColumnRow(indexName: string, columnName: string, uniqueness: string, indexType: string)

  /** The row as the fold reads it: an index is unique when its uniqueness is `UNIQUE`. */
  function IndexRowOf(row: IndexColumnRow): (r: IndexRow)
    ensures r.isUnique <==> row.uniqueness == "UNIQUE"
    ensures r.indexName == row.indexName && r.columnName == row.columnName && r.indexType == row.indexType
  {
    IndexRow(row.indexName, row.columnName, row.uniqueness == "UNIQUE", row.indexType)
  }

  /** `getIndexes` once the query has answered. */
  method GetIndexes(rows: Result<seq<IndexColumnRow>>) returns (indexes: Result<seq<Index>>)
    ensures rows.Err? ==> indexes == Err(rows.error)
    ensures rows.Ok? ==>
      (indexes.Ok? && IsListing(indexes.value, IndexMapOf(MapRows(rows, IndexRowOf).value)))
  {
    var converted := ReadRows(rows, IndexRowOf);
    indexes := Introspection.GetIndexes(converted);
  }

  /** A row of the user_constraints query; the referenced table and column come from
      sub-queries and may be NULL. */
  datatype ConstraintRow = ConstraintRow(name: string, column: string, refTable: Option<string>, refColumn: Option<string>)

  /** One iteration of `getForeignKeys`' row loop: a NULL reference becomes empty. */
  function ForeignKeyOf(row: ConstraintRow): (fk: FK)
    ensures fk.name == row.name && fk.column == row.column
    ensures fk.refTable == OrEmpty(row.refTable) && fk.refColumn == OrEmpty(row.refColumn)
    ensures row.refTable.None? ==> fk.refTable == ""
    ensures row.refColumn.None? ==> fk.refColumn == ""
    ensures fk.onDelete == "" && fk.onUpdate == ""
  {
    FK(row.name, row.column, OrEmpty(row.refTable), OrEmpty(row.refColumn), "", "")
  }

  /** What the four per-table queries answer for one (upper-cased) table name. */
  datatype TableRows = TableRows(
    columns: Result<seq<ColumnRow>>,
    indexes: Result<seq<IndexColumnRow>>,
    foreignKeys: Result<seq<ConstraintRow>>,
    primaryKey: Result<seq<string>>)

  /** The four getters' results for one table. */
  function Meta(rows: TableRows): (meta: TableMeta)
    ensures meta.columns == MapRows(rows.columns, ColumnOf)
    ensures meta.indexes.Err? <==> rows.indexes.Err?
    ensures rows.indexes.Err? ==> meta.indexes.error == rows.indexes.error
    ensures rows.indexes.Ok? ==> meta.indexes.value == IndexMapOf(MapRows(rows.indexes, IndexRowOf).value)
    ensures meta.foreignKeys == MapRows(rows.foreignKeys, ForeignKeyOf)
    ensures meta.primaryKey == rows.primaryKey
  {
    var indexRows := MapRows(rows.indexes, IndexRowOf);
    TableMeta(
      MapRows(rows.columns, ColumnOf),
      if indexRows.Err? then Err(indexRows.error) else Ok(IndexMapOf(indexRows.value)),
      MapRows(rows.foreignKeys, ForeignKeyOf),
      rows.primaryKey)
  }

  /** Per-table metadata as `ExtractSchema` sees it: every query is asked about the
      upper-cased name, so names that differ only in ASCII case get the same metadata. */
  function Lookup(catalog: string -> TableRows): (lookup: string -> TableMeta)
    ensures forall name :: lookup(name) == Meta(catalog(ToUpper(name)))
    ensures forall a, b :: ToUpper(a) == ToUpper(b) ==> lookup(a) == lookup(b)
  {
    name => Meta(catalog(ToUpper(name)))
  }

  /** `ExtractSchema`: the schema is tagged `oracle`; each table keeps its listed name while
      its metadata comes from the upper-cased one. */
  method ExtractSchema(database: string, tables: Result<seq<string>>, catalog: string -> TableRows)
    returns (r: Result<Schema>)
    ensures Extracted(r, database, Oracle, tables, Lookup(catalog))
    ensures r.Ok? ==> r.value.dbType == Oracle && r.value.database == database
  {
    r := Introspection.ExtractSchema(database, Oracle, tables, Lookup(catalog));
  }
}
