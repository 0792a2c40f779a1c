/** What the four connectors under internal/db share once their metadata rows are in hand:
    folding index rows into one `Index` per name through a map, listing that map in no
    particular order, copying foreign-key and primary-key rows, and `ExtractSchema`'s
    table-by-table aggregation that stops at the first error. The database itself is a
    parameter: a listing of table names and, per table, what each metadata query gave. */
module Introspection {
  import opened Wrappers
  import opened Models

  /** The value of a nullable text column: `sql.NullString` read as its string, or empty. */
  function OrEmpty(value: Option<string>): (s: string)
    ensures value.None? ==> s == ""
    ensures value.Some? ==> s == value.value
  {
    match value
    case Some(v) => v
    case None => ""
  }

  // ---------------------------------------------------------------------------------------
  // Row loops

  /** A getter whose rows map one by one onto records: the query's error, or one record per
      row in row order. */
  function MapRows<R, T>(rows: Result<seq<R>>, f: R -> T): (r: Result<seq<T>>)
    ensures rows.Err? ==> r == Err(rows.error)
    ensures rows.Ok? ==>
      (r.Ok? && |r.value| == |rows.value| && forall i :: 0 <= i < |rows.value| ==> r.value[i] == f(rows.value[i]))
  {
    match rows
    case Err(e) => Err(e)
    case Ok(rs) => Ok(seq(|rs|, i requires 0 <= i < |rs| => f(rs[i])))
  }

  /** The `for rows.Next()` loop that appends one record per row. */
  method ReadRows<R, T>(rows: Result<seq<R>>, f: R -> T) returns (r: Result<seq<T>>)
    ensures r == MapRows(rows, f)
  {
    if rows.Err? {
      return Err(rows.error);
    }
    var rs := rows.value;
    var list: seq<T> := [];
    var i := 0;
    while i < |rs|
      invariant 0 <= i <= |rs| && |list| == i
      invariant forall k :: 0 <= k < i ==> list[k] == f(rs[k])
    {
      list := list + [f(rs[i])];
      i := i + 1;
    }
    assert list == MapRows(rows, f).value;
    r := Ok(list);
  }

  // ---------------------------------------------------------------------------------------
  // Index folding

  /** One row of an index query, its uniqueness already read as a flag. */
  datatype IndexRow = IndexRow(indexName: string, columnName: string, isUnique: bool, indexType: string)

  /** One iteration of the `indexMap` loop: a known name gets the row's column appended,
      a new name gets an index of that one column, with the row's uniqueness and type. */
  function FoldRow(indexMap: map<string, Index>, row: IndexRow): map<string, Index> {
    if row.indexName in indexMap then
      var idx := indexMap[row.indexName];
      indexMap[row.indexName := idx.(columns := idx.columns + [row.columnName])]
    else
      indexMap[row.indexName := Index(row.indexName, [row.columnName], row.isUnique, row.indexType)]
  }

  /** `indexMap` after the rows. */
  function IndexMapOf(rows: seq<IndexRow>): map<string, Index>
    decreases |rows|
  {
    if |rows| == 0 then map[] else FoldRow(IndexMapOf(rows[..|rows| - 1]), rows[|rows| - 1])
  }

  /** The first row that names an index. */
  function FirstRowNamed(rows: seq<IndexRow>, name: string): Option<IndexRow>
    decreases |rows|
  {
    if |rows| == 0 then None
    else
      match FirstRowNamed(rows[..|rows| - 1], name)
      case Some(row) => Some(row)
      case None => if rows[|rows| - 1].indexName == name then Some(rows[|rows| - 1]) else None
  }

  /** The columns of the rows that name an index, in row order. */
  function ColumnsNamed(rows: seq<IndexRow>, name: string): seq<string>
    decreases |rows|
  {
    if |rows| == 0 then []
    else
      var last := rows[|rows| - 1];
      ColumnsNamed(rows[..|rows| - 1], name) + (if last.indexName == name then [last.columnName] else [])
  }

  /** The folded index of a name, described without the map: the first row with that name
      fixes uniqueness and type, and every row with that name adds its column, in order. */
  lemma {:induction false} IndexMapOfSpec(rows: seq<IndexRow>, name: string)
    ensures name in IndexMapOf(rows) <==> FirstRowNamed(rows, name).Some?
    ensures FirstRowNamed(rows, name).None? ==> ColumnsNamed(rows, name) == []
    ensures name in IndexMapOf(rows) ==>
      var first := FirstRowNamed(rows, name).value;
      IndexMapOf(rows)[name] == Index(name, ColumnsNamed(rows, name), first.isUnique, first.indexType)
    decreases |rows|
  {
    if |rows| > 0 {
      IndexMapOfSpec(rows[..|rows| - 1], name);
    }
  }

  /** The row `FirstRowNamed` gives has the name, and no earlier row has it. */
  lemma {:induction false} FirstRowNamedIsFirst(rows: seq<IndexRow>, name: string)
    requires FirstRowNamed(rows, name).Some?
    ensures exists i :: (0 <= i < |rows| && rows[i] == FirstRowNamed(rows, name).value && rows[i].indexName == name
                         && forall j :: 0 <= j < i ==> rows[j].indexName != name)
    decreases |rows|
  {
    var init, last := rows[..|rows| - 1], rows[|rows| - 1];
    if FirstRowNamed(init, name).Some? {
      assert FirstRowNamed(rows, name) == FirstRowNamed(init, name);
      FirstRowNamedIsFirst(init, name);
      var i :| 0 <= i < |init| && init[i] == FirstRowNamed(init, name).value && init[i].indexName == name
        && forall j :: 0 <= j < i ==> init[j].indexName != name;
      assert rows[i] == init[i];
      assert forall j :: 0 <= j < i ==> rows[j] == init[j];
    } else {
      assert FirstRowNamed(rows, name) == Some(last) && last.indexName == name;
      FirstRowNamedAbsent(init, name);
      assert forall j :: 0 <= j < |rows| - 1 ==> rows[j].indexName != name by {
        forall j | 0 <= j < |rows| - 1 ensures rows[j].indexName != name {
          assert rows[j] == init[j];
        }
      }
      assert rows[|rows| - 1] == last;
    }
  }

  lemma {:induction false} FirstRowNamedAbsent(rows: seq<IndexRow>, name: string)
    requires FirstRowNamed(rows, name).None?
    ensures forall j :: 0 <= j < |rows| ==> rows[j].indexName != name
    decreases |rows|
  {
    if |rows| > 0 {
      var init := rows[..|rows| - 1];
      FirstRowNamedAbsent(init, name);
      assert forall j :: 0 <= j < |init| ==> rows[j] == init[j];
    }
  }

  /** A name is a key of the folded map exactly when some row carries it, and each key's
      index carries that name. */
  lemma IndexMapKeys(rows: seq<IndexRow>, name: string)
    ensures name in IndexMapOf(rows) <==> exists i :: 0 <= i < |rows| && rows[i].indexName == name
    ensures name in IndexMapOf(rows) ==> IndexMapOf(rows)[name].name == name
  {
    IndexMapOfSpec(rows, name);
    if FirstRowNamed(rows, name).Some? {
      FirstRowNamedIsFirst(rows, name);
    } else {
      FirstRowNamedAbsent(rows, name);
    }
  }

  /** The `indexMap` loop of `getIndexes`. */
  method FoldIndexes(rows: seq<IndexRow>) returns (indexMap: map<string, Index>)
    ensures indexMap == IndexMapOf(rows)
  {
    indexMap := map[];
    var i := 0;
    while i < |rows|
      invariant 0 <= i <= |rows|
      invariant indexMap == IndexMapOf(rows[..i])
    {
      var row := rows[i];
      if row.indexName in indexMap {
        var idx := indexMap[row.indexName];
        idx := idx.(columns := idx.columns + [row.columnName]);
        indexMap := indexMap[row.indexName := idx];
      } else {
        indexMap := indexMap[row.indexName := Index(row.indexName, [row.columnName], row.isUnique, row.indexType)];
      }
      assert rows[..i + 1][..i] == rows[..i];
      i := i + 1;
    }
    assert rows[..i] == rows;
  }

  /** `indexes` holds the map's values in the order of `order`, which lists every key once. */
  predicate ListsValues(indexes: seq<Index>, indexMap: map<string, Index>, order: seq<string>) {
    && |order| == |indexes|
    && (forall i :: 0 <= i < |order| ==> order[i] in indexMap && indexes[i] == indexMap[order[i]])
    && (forall i, j :: 0 <= i < j < |order| ==> order[i] != order[j])
    && (forall k :: k in indexMap ==> k in order)
  }

  /** Some order of the keys gives `indexes`: the values of the map, each once. */
  ghost predicate IsListing(indexes: seq<Index>, indexMap: map<string, Index>) {
    exists order :: ListsValues(indexes, indexMap, order)
  }

  /** The `range indexMap` loop: Go visits the keys in an unspecified order, modelled by
      picking any key not yet visited. */
  method ListIndexes(indexMap: map<string, Index>) returns (indexes: seq<Index>)
    ensures IsListing(indexes, indexMap)
  {
    indexes := [];
    ghost var order: seq<string> := [];
    var remaining := indexMap.Keys;
    while remaining != {}
      invariant remaining <= indexMap.Keys
      invariant |order| == |indexes|
      invariant forall i :: 0 <= i < |order| ==> order[i] in indexMap && indexes[i] == indexMap[order[i]]
      invariant forall i :: 0 <= i < |order| ==> order[i] !in remaining
      invariant forall i, j :: 0 <= i < j < |order| ==> order[i] != order[j]
      invariant forall k :: k in indexMap ==> k in remaining || k in order
      decreases |remaining|
    {
      var k :| k in remaining;
      indexes := indexes + [indexMap[k]];
      order := order + [k];
      remaining := remaining - {k};
    }
    assert ListsValues(indexes, indexMap, order);
  }

  /** Every key of the map is the name of the index it holds. */
  predicate KeyedByName(indexMap: map<string, Index>) {
    forall k :: k in indexMap ==> indexMap[k].name == k
  }

  /** The folded map is keyed by index name. */
  lemma IndexMapKeyed(rows: seq<IndexRow>)
    ensures KeyedByName(IndexMapOf(rows))
  {
    forall k | k in IndexMapOf(rows) ensures IndexMapOf(rows)[k].name == k {
      IndexMapKeys(rows, k);
    }
  }

  /** A listing of a map keyed by name holds each name once, exactly the map's keys, each
      with its map value. */
  lemma ListedNames(indexes: seq<Index>, indexMap: map<string, Index>)
    requires IsListing(indexes, indexMap) && KeyedByName(indexMap)
    ensures forall i, j :: 0 <= i < j < |indexes| ==> indexes[i].name != indexes[j].name
    ensures forall k :: k in indexMap <==> exists i :: 0 <= i < |indexes| && indexes[i].name == k
    ensures forall i :: 0 <= i < |indexes| ==> indexes[i].name in indexMap && indexes[i] == indexMap[indexes[i].name]
  {
    var order :| ListsValues(indexes, indexMap, order);
    assert forall i :: 0 <= i < |indexes| ==> indexes[i].name == order[i];
    forall k | k in indexMap ensures exists i :: 0 <= i < |indexes| && indexes[i].name == k {
      var i :| 0 <= i < |order| && order[i] == k;
      assert indexes[i].name == k;
    }
  }

  /** `getIndexes` once the rows are read: the fold, then the listing. */
  method GetIndexes(rows: Result<seq<IndexRow>>) returns (indexes: Result<seq<Index>>)
    ensures rows.Err? ==> indexes == Err(rows.error)
    ensures rows.Ok? ==> indexes.Ok? && IsListing(indexes.value, IndexMapOf(rows.value))
  {
    match rows
    case Err(e) => indexes := Err(e);
    case Ok(rs) =>
      var indexMap := FoldIndexes(rs);
      var list := ListIndexes(indexMap);
      indexes := Ok(list);
  }

  // ---------------------------------------------------------------------------------------
  // Foreign keys and primary keys

  /** A foreign-key row with every field present; `getForeignKeys` is `ReadRows` with
      `FkOf`. */
  datatype FkRow = FkRow(name: string, column: string, refTable: string, refColumn: string)

  function FkOf(row: FkRow): (fk: FK)
    ensures fk.onDelete == "" && fk.onUpdate == ""
    ensures fk.name == row.name && fk.column == row.column && fk.refTable == row.refTable && fk.refColumn == row.refColumn
  {
    FK(row.name, row.column, row.refTable, row.refColumn, "", "")
  }

  /** `getPrimaryKeys`: the key's column names in row order. */
  method GetPrimaryKeys(rows: Result<seq<string>>) returns (pks: Result<seq<string>>)
    ensures pks == rows
  {
    match rows
    case Err(e) => pks := Err(e);
    case Ok(rs) =>
      var list: seq<string> := [];
      var i := 0;
      while i < |rs|
        invariant 0 <= i <= |rs| && list == rs[..i]
      {
        list := list + [rs[i]];
        assert rs[..i + 1] == rs[..i] + [rs[i]];
        i := i + 1;
      }
      assert rs[..i] == rs;
      pks := Ok(list);
  }

  // ---------------------------------------------------------------------------------------
  // ExtractSchema

  /** What the four per-table getters give for one table, in the order `ExtractSchema`
      calls them; the indexes are still the folded map. */
  datatype TableMeta = TableMeta(
    columns: Result<seq<Column>>,
    indexes: Result<map<string, Index>>,
    foreignKeys: Result<seq<FK>>,
    primaryKey: Result<seq<string>>)

  /** The first error among a table's getters, in call order. */
  function MetaError(meta: TableMeta): (e: Option<Error>)
    ensures e.None? <==> meta.columns.Ok? && meta.indexes.Ok? && meta.foreignKeys.Ok? && meta.primaryKey.Ok?
  {
    if meta.columns.Err? then Some(meta.columns.error)
    else if meta.indexes.Err? then Some(meta.indexes.error)
    else if meta.foreignKeys.Err? then Some(meta.foreignKeys.error)
    else if meta.primaryKey.Err? then Some(meta.primaryKey.error)
    else None
  }

  /** The first error over the tables in listing order. */
  function FirstError(names: seq<string>, lookup: string -> TableMeta): Option<Error>
    decreases |names|
  {
    if |names| == 0 then None
    else
      match FirstError(names[..|names| - 1], lookup)
      case Some(e) => Some(e)
      case None => MetaError(lookup(names[|names| - 1]))
  }

  /** A table assembled from its name and its getters' results. */
  ghost predicate TableFrom(table: Table, name: string, meta: TableMeta)
    requires MetaError(meta).None?
  {
    && table.name == name
    && table.columns == meta.columns.value
    && IsListing(table.indexes, meta.indexes.value)
    && table.foreignKeys == meta.foreignKeys.value
    && table.primaryKey == meta.primaryKey.value
  }

  /** The outcome of `ExtractSchema`: the listing's error, else the first getter error in
      table order, else a schema with the connector's type and the configured database and
      one table per listed name, in listing order. */
  ghost predicate Extracted(r: Result<Schema>, database: string, dbType: DBType, tables: Result<seq<string>>, lookup: string -> TableMeta) {
    match tables
    case Err(e) => r == Err(e)
    case Ok(names) =>
      match FirstError(names, lookup)
      case Some(e) => r == Err(e)
      case None =>
        && r.Ok? && r.value.database == database && r.value.dbType == dbType
        && |r.value.tables| == |names|
        && forall i :: 0 <= i < |names| ==> MetaError(lookup(names[i])).None? && TableFrom(r.value.tables[i], names[i], lookup(names[i]))
  }

  /** No error at all exactly when no table's getters fail. */
  lemma {:induction false} FirstErrorNone(names: seq<string>, lookup: string -> TableMeta)
    ensures FirstError(names, lookup).None? <==> forall i :: 0 <= i < |names| ==> MetaError(lookup(names[i])).None?
    decreases |names|
  {
    if |names| > 0 {
      var init := names[..|names| - 1];
      FirstErrorNone(init, lookup);
      assert forall i :: 0 <= i < |init| ==> names[i] == init[i];
    }
  }

  /** The error reported is that of a table all of whose predecessors succeeded. */
  lemma {:induction false} FirstErrorIsFirst(names: seq<string>, lookup: string -> TableMeta)
    requires FirstError(names, lookup).Some?
    ensures exists i :: (0 <= i < |names| && MetaError(lookup(names[i])) == FirstError(names, lookup)
                         && forall j :: 0 <= j < i ==> MetaError(lookup(names[j])).None?)
    decreases |names|
  {
    var init := names[..|names| - 1];
    if FirstError(init, lookup).Some? {
      FirstErrorIsFirst(init, lookup);
      var i :| 0 <= i < |init| && MetaError(lookup(init[i])) == FirstError(init, lookup)
        && forall j :: 0 <= j < i ==> MetaError(lookup(init[j])).None?;
      assert names[i] == init[i];
      assert forall j :: 0 <= j < i ==> names[j] == init[j];
    } else {
      FirstErrorNone(init, lookup);
      assert forall j :: 0 <= j < |init| ==> names[j] == init[j];
    }
  }

  /** `ExtractSchema`: tables in listing order, each through its four getters, stopping at
      the first error. */
  method ExtractSchema(database: string, dbType: DBType, tables: Result<seq<string>>, lookup: string -> TableMeta)
    returns (r: Result<Schema>)
    ensures Extracted(r, database, dbType, tables, lookup)
  {
    if tables.Err? {
      return Err(tables.error);
    }
    var names := tables.value;
    var schema := Schema(database, [], dbType);
    var i := 0;
    while i < |names|
      invariant 0 <= i <= |names|
      invariant FirstError(names[..i], lookup).None?
      invariant schema.database == database && schema.dbType == dbType && |schema.tables| == i
      invariant forall k :: 0 <= k < i ==> MetaError(lookup(names[k])).None? && TableFrom(schema.tables[k], names[k], lookup(names[k]))
    {
      var name := names[i];
      assert names[..i + 1][..i] == names[..i];
      var table, err := ReadTable(name, lookup(name));
      if err.Some? {
        assert FirstError(names[..i + 1], lookup) == err;
        FirstErrorPrefix(names, lookup, i + 1);
        return Err(err.value);
      }
      schema := schema.(tables := schema.tables + [table]);
      i := i + 1;
    }
    assert names[..i] == names;
    return Ok(schema);
  }

  /** The body of `ExtractSchema`'s loop for one table. */
  method ReadTable(name: string, meta: TableMeta) returns (table: Table, err: Option<Error>)
    ensures err == MetaError(meta)
    ensures err.None? ==> TableFrom(table, name, meta)
  {
    table := Table(name, [], [], [], []);
    if meta.columns.Err? {
      return table, Some(meta.columns.error);
    }
    table := table.(columns := meta.columns.value);
    if meta.indexes.Err? {
      return table, Some(meta.indexes.error);
    }
    var indexes := ListIndexes(meta.indexes.value);
    table := table.(indexes := indexes);
    if meta.foreignKeys.Err? {
      return table, Some(meta.foreignKeys.error);
    }
    table := table.(foreignKeys := meta.foreignKeys.value);
    if meta.primaryKey.Err? {
      return table, Some(meta.primaryKey.error);
    }
    table := table.(primaryKey := meta.primaryKey.value);
    err := None;
  }

  /** An error in a prefix of the listing is the error of the whole listing. */
  lemma {:induction false} FirstErrorPrefix(names: seq<string>, lookup: string -> TableMeta, n: nat)
    requires n <= |names| && FirstError(names[..n], lookup).Some?
    ensures FirstError(names, lookup) == FirstError(names[..n], lookup)
    decreases |names| - n
  {
    if n < |names| {
      assert names[..n + 1][..n] == names[..n];
      FirstErrorPrefix(names, lookup, n + 1);
    } else {
      assert names[..n] == names;
    }
  }
}
