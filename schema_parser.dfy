/** `ParseDDL` and its helpers (internal/schema/parser.go): CREATE TABLE and CREATE INDEX text
    into a `Schema`. Each looping Go function is a method proved equal to a specification
    function; the properties of the parser are lemmas about those functions. */
module SchemaParser {
  import opened Wrappers
  import opened GoStrings
  import opened ReScan
  import opened DdlPatterns
  import opened Models

  /** Membership in the cutset ``"`\"'[]"`` that `strings.Trim` strips from key and index
      column names. */
  predicate IsQuoteChar(c: char) {
    c == '`' || c == '"' || c == '\'' || c == '[' || c == ']'
  }

  /** A clause whose upper-cased text starts with one of these is a table constraint. */
  predicate IsConstraintClause(upper: string) {
    HasPrefix(upper, "PRIMARY KEY") || HasPrefix(upper, "FOREIGN KEY") || HasPrefix(upper, "CONSTRAINT")
    || HasPrefix(upper, "INDEX") || HasPrefix(upper, "KEY") || HasPrefix(upper, "UNIQUE")
  }

  function DefaultOf(rest: string): string {
    match FirstDefault(rest, 0)
    case Some(d) => d
    case None => ""
  }

  function CommentOf(rest: string): string {
    match FirstComment(rest, 0)
    case Some(c) => c
    case None => ""
  }

  /** The column one comma-separated clause of a table body declares, if any. */
  function ClauseColumn(clause: string): (r: Option<Column>)
    ensures var l := TrimSpace(clause);
      r.Some? <==> !IsConstraintClause(ToUpper(l)) && MatchColumn(l).Some?
    ensures r.Some? ==>
      var m := MatchColumn(TrimSpace(clause)).value;
      var flags := ToUpper(m.rest);
      && r.value.name == m.name && r.value.columnType == m.columnType
      && (r.value.nullable <==> !Contains(flags, "NOT NULL"))
      && (r.value.isPK <==> Contains(flags, "PRIMARY KEY"))
      && (r.value.isUnique <==> Contains(flags, "UNIQUE"))
      && (r.value.isAutoIncr <==>
            Contains(flags, "AUTO_INCREMENT") || Contains(ToUpper(m.columnType), "SERIAL")
            || Contains(flags, "IDENTITY"))
      && !r.value.isFK
      && r.value.default == DefaultOf(m.rest)
      && r.value.comment == CommentOf(m.rest)
  {
    var l := TrimSpace(clause);
    if IsConstraintClause(ToUpper(l)) then None
    else match MatchColumn(l)
      case None => None
      case Some(m) =>
        var flags := ToUpper(m.rest);
        Some(Column(m.name, m.columnType,
          !Contains(flags, "NOT NULL"),
          DefaultOf(m.rest),
          CommentOf(m.rest),
          Contains(flags, "PRIMARY KEY"),
          false,
          Contains(flags, "UNIQUE"),
          Contains(flags, "AUTO_INCREMENT") || Contains(ToUpper(m.columnType), "SERIAL")
            || Contains(flags, "IDENTITY")))
  }

  /** The columns of a list of clauses, in order; clauses that declare none are skipped. */
  function ColumnsOf(clauses: seq<string>): seq<Column>
    decreases |clauses|
  {
    if |clauses| == 0 then []
    else
      var last := ClauseColumn(clauses[|clauses| - 1]);
      ColumnsOf(clauses[..|clauses| - 1]) + (if last.Some? then [last.value] else [])
  }

  lemma ColumnsOfStep(clauses: seq<string>, i: nat)
    requires i < |clauses|
    ensures ColumnsOf(clauses[..i + 1])
         == ColumnsOf(clauses[..i]) + (if ClauseColumn(clauses[i]).Some? then [ClauseColumn(clauses[i]).value] else [])
  {
    assert clauses[..i + 1][..i] == clauses[..i];
  }

  /** `parseColumns`: every comma-separated clause of the body, trimmed and tested in turn. */
  method ParseColumns(columnsDef: string, dbType: DBType) returns (columns: seq<Column>)
    ensures columns == ColumnsOf(Split(columnsDef, ','))
  {
    var lines := Split(columnsDef, ',');
    columns := [];
    var i := 0;
    while i < |lines|
      invariant 0 <= i <= |lines|
      invariant columns == ColumnsOf(lines[..i])
    {
      ColumnsOfStep(lines, i);
      var col := ClauseColumn(lines[i]);
      if col.Some? {
        columns := columns + [col.value];
      }
      i := i + 1;
    }
    assert lines[..i] == lines;
  }

  /** The parts of a list, each passed through `clean`, with the empty results dropped: the
      shape of the column loops of `parsePrimaryKey` and `parseIndexes`. */
  function NonEmptyCleaned(parts: seq<string>, clean: string -> string): (kept: seq<string>)
    ensures |kept| <= |parts|
    decreases |parts|
  {
    if |parts| == 0 then []
    else
      var col := clean(parts[|parts| - 1]);
      NonEmptyCleaned(parts[..|parts| - 1], clean) + (if col != "" then [col] else [])
  }

  lemma NonEmptyCleanedStep(parts: seq<string>, clean: string -> string, i: nat)
    requires i < |parts|
    ensures NonEmptyCleaned(parts[..i + 1], clean)
         == NonEmptyCleaned(parts[..i], clean) + (if clean(parts[i]) != "" then [clean(parts[i])] else [])
  {
    assert parts[..i + 1][..i] == parts[..i];
  }

  /** Every kept entry is non-empty and, when `clean` always yields `good` values, good. */
  lemma {:induction false} NonEmptyCleanedEach(parts: seq<string>, clean: string -> string, good: string -> bool)
    requires forall p :: good(clean(p))
    ensures forall j :: 0 <= j < |NonEmptyCleaned(parts, clean)| ==>
      NonEmptyCleaned(parts, clean)[j] != [] && good(NonEmptyCleaned(parts, clean)[j])
    decreases |parts|
  {
    if |parts| > 0 {
      NonEmptyCleanedEach(parts[..|parts| - 1], clean, good);
    }
  }

  /** The loop over the parts: clean each one, append it when non-empty. */
  method CleanParts(parts: seq<string>, clean: string -> string) returns (kept: seq<string>)
    ensures kept == NonEmptyCleaned(parts, clean)
  {
    kept := [];
    var i := 0;
    while i < |parts|
      invariant 0 <= i <= |parts|
      invariant kept == NonEmptyCleaned(parts[..i], clean)
    {
      NonEmptyCleanedStep(parts, clean, i);
      var col := clean(parts[i]);
      if col != "" {
        kept := kept + [col];
      }
      i := i + 1;
    }
    assert parts[..i] == parts;
  }

  /** One entry of a primary-key column list, trimmed of white space and then of quote characters. */
  function KeyName(part: string): (col: string)
    ensures col == [] || (!IsQuoteChar(col[0]) && !IsQuoteChar(col[|col| - 1]))
  {
    TrimFunc(TrimSpace(part), IsQuoteChar)
  }

  /** What `parsePrimaryKey` returns: the names of the first `PRIMARY KEY (...)` only. */
  function PrimaryKeyOf(columnsDef: string): seq<string> {
    match FirstPrimaryKey(columnsDef, 0)
    case None => []
    case Some(list) => NonEmptyCleaned(Split(list, ','), KeyName)
  }

  /** `parsePrimaryKey`. */
  method ParsePrimaryKey(columnsDef: string) returns (pks: seq<string>)
    ensures pks == PrimaryKeyOf(columnsDef)
  {
    var match1 := FirstPrimaryKey(columnsDef, 0);
    if match1.None? {
      return [];
    }
    var cols := Split(match1.value, ',');
    pks := CleanParts(cols, KeyName);
  }

  /** The foreign key one match describes; without a CONSTRAINT name it is named
      `fk_<column>_<refTable>`. */
  function FkOf(m: FkMatch): (fk: FK)
    ensures fk.column == m.column && fk.refTable == m.refTable && fk.refColumn == m.refColumn
    ensures fk.onDelete == "" && fk.onUpdate == ""
    ensures m.constraintName != "" ==> fk.name == m.constraintName
    ensures m.constraintName == "" ==> fk.name == "fk_" + m.column + "_" + m.refTable
  {
    FK(if m.constraintName != "" then m.constraintName else "fk_" + m.column + "_" + m.refTable,
       m.column, m.refTable, m.refColumn, "", "")
  }

  /** One FK per match, in order. */
  function FksOf(ms: seq<FkMatch>): (fks: seq<FK>)
    ensures |fks| == |ms|
    decreases |ms|
  {
    if |ms| == 0 then [] else FksOf(ms[..|ms| - 1]) + [FkOf(ms[|ms| - 1])]
  }

  /** The foreign keys of a table body. */
  function ForeignKeysOf(columnsDef: string): seq<FK> {
    FksOf(FksFrom(columnsDef, 0))
  }

  lemma FksOfStep(ms: seq<FkMatch>, i: nat)
    requires i < |ms|
    ensures FksOf(ms[..i + 1]) == FksOf(ms[..i]) + [FkOf(ms[i])]
  {
    assert ms[..i + 1][..i] == ms[..i];
  }

  /** `parseForeignKeys`: one FK per match, in text order. */
  method ParseForeignKeys(columnsDef: string) returns (fks: seq<FK>)
    ensures fks == ForeignKeysOf(columnsDef)
  {
    var matches := FksFrom(columnsDef, 0);
    fks := [];
    var i := 0;
    while i < |matches|
      invariant 0 <= i <= |matches|
      invariant fks == FksOf(matches[..i])
    {
      FksOfStep(matches, i);
      var m := matches[i];
      var fk := FK("", m.column, m.refTable, m.refColumn, "", "");
      if m.constraintName != "" {
        fk := fk.(name := m.constraintName);
      } else {
        fk := fk.(name := "fk_" + m.column + "_" + m.refTable);
      }
      fks := fks + [fk];
      i := i + 1;
    }
    assert matches[..i] == matches;
  }

  /** The table one CREATE TABLE match describes, before any index is attached. */
  function TableOf(m: TableMatch): Table {
    Table(m.name, ColumnsOf(Split(m.body, ',')), PrimaryKeyOf(m.body), ForeignKeysOf(m.body), [])
  }

  /** The index one CREATE INDEX match describes. */
  function IndexOf(m: IndexMatch): Index {
    Index(m.name, NonEmptyCleaned(Split(m.columnList, ','), IndexColumnName), TrimSpace(m.uniqueGroup) != "", "BTREE")
  }

  /** The position of the first table whose name equals `name` case-insensitively. */
  function FirstNamed(tables: seq<Table>, name: string, from: nat): (r: Option<nat>)
    requires from <= |tables|
    ensures r.Some? ==> from <= r.value < |tables| && EqualFold(tables[r.value].name, name)
    ensures r.Some? ==> forall k :: from <= k < r.value ==> !EqualFold(tables[k].name, name)
    ensures r.None? ==> forall k :: from <= k < |tables| ==> !EqualFold(tables[k].name, name)
    decreases |tables| - from
  {
    if from == |tables| then None
    else if EqualFold(tables[from].name, name) then Some(from)
    else FirstNamed(tables, name, from + 1)
  }

  /** `idx` appended to the first table named `tableName`; dropped when there is none. */
  function AttachTo(tables: seq<Table>, tableName: string, idx: Index): seq<Table> {
    match FirstNamed(tables, tableName, 0)
    case None => tables
    case Some(i) => tables[i := tables[i].(indexes := tables[i].indexes + [idx])]
  }

  /** The index of one match attached to the table it names. */
  function AttachIndex(tables: seq<Table>, m: IndexMatch): seq<Table> {
    AttachTo(tables, m.table, IndexOf(m))
  }

  /** Every index match attached in text order. */
  function AttachAll(tables: seq<Table>, ms: seq<IndexMatch>): seq<Table>
    decreases |ms|
  {
    if |ms| == 0 then tables
    else AttachIndex(AttachAll(tables, ms[..|ms| - 1]), ms[|ms| - 1])
  }

  /** One entry of an index column list, as the inner loop of `parseIndexes` cleans it: the
      first space-separated field (`strings.Split(col, " ")[0]`, see `SplitFirstField`) of the
      entry trimmed of white space and quote characters. */
  function IndexColumnName(part: string): (col: string)
    ensures ' ' !in col
    ensures var t := TrimFunc(TrimSpace(part), IsQuoteChar); |col| <= |t| && col == t[..|col|] && (|col| == |t| || t[|col|] == ' ')
  {
    FirstField(TrimFunc(TrimSpace(part), IsQuoteChar), ' ')
  }

  /** The inner loop of `parseIndexes` over the comma-separated column list. */
  method IndexColumns(columnStr: string) returns (columns: seq<string>)
    ensures columns == NonEmptyCleaned(Split(columnStr, ','), IndexColumnName)
  {
    var cols := Split(columnStr, ',');
    columns := CleanParts(cols, IndexColumnName);
  }

  /** The search of `parseIndexes` for the first table with a matching name, appending in place. */
  method AttachInPlace(tables: array<Table>, tableName: string, idx: Index)
    modifies tables
    ensures tables[..] == AttachTo(old(tables[..]), tableName, idx)
  {
    ghost var before := tables[..];
    var k := 0;
    while k < tables.Length
      invariant 0 <= k <= tables.Length
      invariant tables[..] == before
      invariant FirstNamed(before, tableName, 0) == FirstNamed(before, tableName, k)
    {
      if EqualFold(tables[k].name, tableName) {
        tables[k] := tables[k].(indexes := tables[k].indexes + [idx]);
        return;
      }
      k := k + 1;
    }
  }

  /** The body of the match loop of `parseIndexes`. */
  method AttachMatch(tables: array<Table>, m: IndexMatch)
    modifies tables
    ensures tables[..] == AttachIndex(old(tables[..]), m)
  {
    var isUnique := TrimSpace(m.uniqueGroup) != "";
    var columns := IndexColumns(m.columnList);
    var idx := Index(m.name, columns, isUnique, "BTREE");
    AttachInPlace(tables, m.table, idx);
  }

  lemma AttachAllStep(tables: seq<Table>, ms: seq<IndexMatch>, i: nat)
    requires i < |ms|
    ensures AttachAll(tables, ms[..i + 1]) == AttachIndex(AttachAll(tables, ms[..i]), ms[i])
  {
    assert ms[..i + 1][..i] == ms[..i];
  }

  /** `parseIndexes`: every CREATE INDEX of the whole text, attached in place. */
  method ParseIndexes(ddl: string, tables: array<Table>)
    modifies tables
    ensures tables[..] == AttachAll(old(tables[..]), IndexesFrom(ddl, 0))
  {
    var matches := IndexesFrom(ddl, 0);
    ghost var start := tables[..];
    var i := 0;
    while i < |matches|
      invariant 0 <= i <= |matches|
      invariant tables[..] == AttachAll(start, matches[..i])
    {
      AttachAllStep(start, matches, i);
      AttachMatch(tables, matches[i]);
      i := i + 1;
    }
    assert matches[..i] == matches;
  }

  /** One table per CREATE TABLE match, in text order. */
  function TablesOf(ms: seq<TableMatch>): (tables: seq<Table>)
    ensures |tables| == |ms|
    decreases |ms|
  {
    if |ms| == 0 then [] else TablesOf(ms[..|ms| - 1]) + [TableOf(ms[|ms| - 1])]
  }

  /** What `ParseDDL` returns: one table per CREATE TABLE match, with the indexes attached. */
  function DdlSchema(ddl: string, dbType: DBType): Schema {
    Schema("", AttachAll(TablesOf(TablesFrom(ddl, 0)), IndexesFrom(ddl, 0)), dbType)
  }

  /** The body of the table loop of `ParseDDL`: one match into a table without indexes. */
  method ParseTable(m: TableMatch, dbType: DBType) returns (table: Table)
    ensures table == TableOf(m)
  {
    table := Table(m.name, [], [], [], []);
    var columns := ParseColumns(m.body, dbType);
    table := table.(columns := columns);
    var pks := ParsePrimaryKey(m.body);
    table := table.(primaryKey := pks);
    var fks := ParseForeignKeys(m.body);
    table := table.(foreignKeys := fks);
  }

  lemma TablesOfStep(ms: seq<TableMatch>, i: nat)
    requires i < |ms|
    ensures TablesOf(ms[..i + 1]) == TablesOf(ms[..i]) + [TableOf(ms[i])]
  {
    assert ms[..i + 1][..i] == ms[..i];
  }

  /** The table loop of `ParseDDL`: one table per CREATE TABLE match, in text order. */
  method ParseTables(ddl: string, dbType: DBType) returns (tables: seq<Table>)
    ensures tables == TablesOf(TablesFrom(ddl, 0))
  {
    var matches := TablesFrom(ddl, 0);
    tables := [];
    var i := 0;
    while i < |matches|
      invariant 0 <= i <= |matches|
      invariant tables == TablesOf(matches[..i])
    {
      TablesOfStep(matches, i);
      var table := ParseTable(matches[i], dbType);
      tables := tables + [table];
      i := i + 1;
    }
    assert matches[..i] == matches;
  }

  /** A fresh array holding `tables`, so that `parseIndexes` can update them in place. */
  method ToArray(tables: seq<Table>) returns (arr: array<Table>)
    ensures fresh(arr) && arr[..] == tables
  {
    arr := new Table[|tables|](k requires 0 <= k < |tables| => tables[k]);
    assert arr[..] == tables;
  }

  /** `ParseDDL`: it never fails. */
  method ParseDdl(ddl: string, dbType: DBType) returns (r: Result<Schema>)
    ensures r == Ok(DdlSchema(ddl, dbType))
  {
    var tables := ParseTables(ddl, dbType);
    var arr := ToArray(tables);
    ParseIndexes(ddl, arr);
    r := Ok(Schema("", arr[..], dbType));
  }
}
