/** `GenerateDDL` and `quote` of internal/schema/parser.go: printing a schema back as DDL
    text in the quoting style of its dialect. */
module DdlWriter {
  import opened Wrappers
  import opened GoStrings
  import opened Models

  // ---------------------------------------------------------------------------------------
  // Quoting

  /** The quote character a supported dialect puts before a name. */
  function OpenQuote(t: DBType): char {
    if t == MySQL then '`' else if t == SQLServer then '[' else '"'
  }

  /** The quote character a supported dialect puts after a name. */
  function CloseQuote(t: DBType): char {
    if t == MySQL then '`' else if t == SQLServer then ']' else '"'
  }

  /** `quote`: backticks for MySQL, double quotes for PostgreSQL, brackets for SQL Server,
      double quotes around the upper-cased name for Oracle, and the bare name otherwise. */
  function Quote(name: string, t: DBType): (q: string)
    ensures IsSupported(t) ==> |q| == |name| + 2 && q[0] == OpenQuote(t) && q[|q| - 1] == CloseQuote(t)
    ensures !IsSupported(t) ==> q == name
  {
    if t == MySQL then "`" + name + "`"
    else if t == PostgreSQL then "\"" + name + "\""
    else if t == SQLServer then "[" + name + "]"
    else if t == Oracle then "\"" + ToUpper(name) + "\""
    else name
  }

  /** The text a quoted name stands for: what lies between the two quote characters. */
  function Unquote(q: string, t: DBType): string {
    if IsSupported(t) && |q| >= 2 then q[1..|q| - 1] else q
  }

  /** Quoting keeps the name readable between the quotes: unchanged for every dialect but
      Oracle, which stores it upper-cased. */
  lemma QuoteUnquote(name: string, t: DBType)
    ensures Unquote(Quote(name, t), t) == (if t == Oracle then ToUpper(name) else name)
  {
    var q := Quote(name, t);
    if t == MySQL || t == PostgreSQL || t == SQLServer {
      assert q[1..|q| - 1] == name;
    } else if t == Oracle {
      assert q[1..|q| - 1] == ToUpper(name);
    }
  }

  /** Outside Oracle, distinct names stay distinct once quoted. */
  lemma QuoteInjective(a: string, b: string, t: DBType)
    requires t != Oracle
    requires Quote(a, t) == Quote(b, t)
    ensures a == b
  {
    QuoteUnquote(a, t);
    QuoteUnquote(b, t);
  }

  /** Under Oracle two names print alike exactly when their upper-case forms agree. */
  lemma OracleQuoteFolds(a: string, b: string)
    ensures Quote(a, Oracle) == Quote(b, Oracle) <==> ToUpper(a) == ToUpper(b)
  {
    if Quote(a, Oracle) == Quote(b, Oracle) {
      QuoteUnquote(a, Oracle);
      QuoteUnquote(b, Oracle);
    }
  }

  /** Every name of a list, quoted: the `pkCols` and `idxCols` slices. */
  function QuoteAll(names: seq<string>, t: DBType): (qs: seq<string>)
    ensures |qs| == |names|
  {
    Each(names, (n: string) => Quote(n, t))
  }

  /** The loops that fill `pkCols` and `idxCols`. */
  method QuoteNames(names: seq<string>, t: DBType) returns (qs: seq<string>)
    ensures qs == QuoteAll(names, t)
    ensures forall i :: 0 <= i < |qs| ==> Unquote(qs[i], t) == (if t == Oracle then ToUpper(names[i]) else names[i])
  {
    qs := [];
    var i := 0;
    while i < |names|
      invariant 0 <= i <= |names|
      invariant qs == QuoteAll(names[..i], t)
      invariant forall k :: 0 <= k < i ==> Unquote(qs[k], t) == (if t == Oracle then ToUpper(names[k]) else names[k])
    {
      QuoteUnquote(names[i], t);
      EachStep(names, (n: string) => Quote(n, t), i);
      qs := qs + [Quote(names[i], t)];
      i := i + 1;
    }
    assert names[..i] == names;
  }

  // ---------------------------------------------------------------------------------------
  // Column definitions

  /** The auto-increment marker of a dialect: MySQL and SQL Server have one, the others none. */
  function AutoIncrClause(t: DBType): string {
    if t == MySQL then " AUTO_INCREMENT" else if t == SQLServer then " IDENTITY(1,1)" else ""
  }

  /** ` NOT NULL` for a column that is not nullable. */
  function NotNullText(col: Column): string {
    if !col.nullable then " NOT NULL" else ""
  }

  /** The dialect's auto-increment marker for an auto-increment column. */
  function AutoIncrText(col: Column, t: DBType): string {
    if col.isAutoIncr then AutoIncrClause(t) else ""
  }

  /** ` DEFAULT <value>` for a column with a default. */
  function DefaultText(col: Column): string {
    if col.default != "" then " DEFAULT " + col.default else ""
  }

  /** What follows a column's type: NOT NULL, the auto-increment marker, and DEFAULT, each
      only when it applies. */
  function ModifiersText(col: Column, t: DBType): string {
    NotNullText(col) + (AutoIncrText(col, t) + DefaultText(col))
  }

  /** One entry of `columnDefs` for a column. */
  function ColumnDef(col: Column, t: DBType): string {
    "  " + Quote(col.name, t) + " " + col.columnType + ModifiersText(col, t)
  }

  /** The modifiers after a column type, as a reader of the generated text sees them. */
  datatype Modifiers = Modifiers(notNull: bool, autoIncr: string, default: string)

  /** Reads an optional ` NOT NULL`. */
  function ReadNotNull(text: string): (bool, string) {
    if HasPrefix(text, " NOT NULL") then (true, text[9..]) else (false, text)
  }

  /** Reads an optional ` AUTO_INCREMENT` or ` IDENTITY(1,1)`. */
  function ReadAutoIncr(text: string): (string, string) {
    if HasPrefix(text, " AUTO_INCREMENT") then ("AUTO_INCREMENT", text[15..])
    else if HasPrefix(text, " IDENTITY(1,1)") then ("IDENTITY(1,1)", text[14..])
    else ("", text)
  }

  /** Reads nothing, or ` DEFAULT ` and a non-empty value. */
  function ReadDefaultText(text: string): Option<string> {
    if text == "" then Some("")
    else if HasPrefix(text, " DEFAULT ") && |text| > 9 then Some(text[9..])
    else None
  }

  /** Reads the modifier text of a column definition back. */
  function ReadModifiers(text: string): Option<Modifiers> {
    var (notNull, r1) := ReadNotNull(text);
    var (autoIncr, r2) := ReadAutoIncr(r1);
    var d := ReadDefaultText(r2);
    if d.None? then None else Some(Modifiers(notNull, autoIncr, d.value))
  }

  /** The marker a reader finds for an auto-increment column. */
  function AutoIncrKeyword(t: DBType): string {
    if t == MySQL then "AUTO_INCREMENT" else if t == SQLServer then "IDENTITY(1,1)" else ""
  }

  /** The second character of a text, which tells the modifiers apart. */
  function Mark(text: string): char {
    if |text| >= 2 then text[1] else ' '
  }

  lemma ReadDefaultTextOf(col: Column)
    ensures ReadDefaultText(DefaultText(col)) == Some(col.default)
    ensures Mark(DefaultText(col)) == 'D' || DefaultText(col) == ""
  {
    if col.default != "" {
      assert DefaultText(col)[9..] == col.default;
    }
  }

  lemma ReadAutoIncrOf(col: Column, t: DBType, rest: string)
    requires Mark(rest) == 'D' || rest == ""
    ensures ReadAutoIncr(AutoIncrText(col, t) + rest) == (if col.isAutoIncr then AutoIncrKeyword(t) else "", rest)
    ensures Mark(AutoIncrText(col, t) + rest) != 'N'
  {
    var text := AutoIncrText(col, t) + rest;
    if col.isAutoIncr && t == MySQL {
      assert text[..15] == " AUTO_INCREMENT";
      assert text[15..] == rest;
    } else if col.isAutoIncr && t == SQLServer {
      assert text[..14] == " IDENTITY(1,1)";
      assert text[1] == 'I';
      assert text[14..] == rest;
    } else {
      assert text == rest;
      assert !HasPrefix(text, " AUTO_INCREMENT") && !HasPrefix(text, " IDENTITY(1,1)") by {
        if |text| >= 14 { assert text[1] == Mark(text); }
      }
    }
  }

  lemma ReadNotNullOf(col: Column, rest: string)
    requires Mark(rest) != 'N'
    ensures ReadNotNull(NotNullText(col) + rest) == (!col.nullable, rest)
  {
    var text := NotNullText(col) + rest;
    if !col.nullable {
      assert text[..9] == " NOT NULL";
      assert text[9..] == rest;
    } else {
      assert text == rest;
      assert !HasPrefix(text, " NOT NULL") by {
        if |text| >= 9 { assert text[1] == Mark(text); }
      }
    }
  }

  /** The modifiers of a generated column definition read back to exactly the column's
      settings: NOT NULL exactly when the column is not nullable, AUTO_INCREMENT for an
      auto-increment MySQL column, IDENTITY(1,1) for an auto-increment SQL Server column, no
      marker otherwise, and the default value when there is one. */
  lemma ModifiersRoundTrip(col: Column, t: DBType)
    ensures ReadModifiers(ModifiersText(col, t))
         == Some(Modifiers(!col.nullable, if col.isAutoIncr then AutoIncrKeyword(t) else "", col.default))
  {
    ReadDefaultTextOf(col);
    ReadAutoIncrOf(col, t, DefaultText(col));
    ReadNotNullOf(col, AutoIncrText(col, t) + DefaultText(col));
  }

  /** The `PRIMARY KEY (...)` entry for a non-empty key list. */
  function PrimaryKeyClause(pk: seq<string>, t: DBType): string {
    "  PRIMARY KEY (" + Join(QuoteAll(pk, t), ", ") + ")"
  }

  /** What follows `CONSTRAINT` in the entry of a foreign key. */
  function ForeignKeyTarget(fk: FK, t: DBType): string {
    Quote(fk.name, t) + " FOREIGN KEY (" + Quote(fk.column, t) + ") REFERENCES "
    + Quote(fk.refTable, t) + "(" + Quote(fk.refColumn, t) + ")"
  }

  /** The `CONSTRAINT ... FOREIGN KEY ... REFERENCES ...` entry of a foreign key. */
  function ForeignKeyClause(fk: FK, t: DBType): string {
    "  CONSTRAINT " + ForeignKeyTarget(fk, t)
  }

  /** One definition per column. */
  function ColumnEntriesOf(columns: seq<Column>, t: DBType): (defs: seq<string>)
    ensures |defs| == |columns|
  {
    Each(columns, (c: Column) => ColumnDef(c, t))
  }

  /** The key entry: present exactly when the key list is non-empty. */
  function KeyEntry(pk: seq<string>, t: DBType): (defs: seq<string>)
    ensures |defs| == if |pk| > 0 then 1 else 0
  {
    if |pk| > 0 then [PrimaryKeyClause(pk, t)] else []
  }

  /** One constraint per foreign key. */
  function ForeignKeyEntries(fks: seq<FK>, t: DBType): (defs: seq<string>)
    ensures |defs| == |fks|
  {
    Each(fks, (fk: FK) => ForeignKeyClause(fk, t))
  }

  /** `columnDefs` of a table: one entry per column, the key entry when the key list is
      non-empty, then one entry per foreign key. */
  function ColumnDefs(table: Table, t: DBType): (defs: seq<string>)
    ensures |defs| == |table.columns| + (if |table.primaryKey| > 0 then 1 else 0) + |table.foreignKeys|
  {
    ColumnEntriesOf(table.columns, t) + KeyEntry(table.primaryKey, t) + ForeignKeyEntries(table.foreignKeys, t)
  }

  /** Where each entry of `columnDefs` comes from. */
  lemma ColumnDefsLayout(table: Table, t: DBType)
    ensures var defs := ColumnDefs(table, t); var p := |KeyEntry(table.primaryKey, t)|;
      && (forall i :: 0 <= i < |table.columns| ==> defs[i] == ColumnDef(table.columns[i], t))
      && (|table.primaryKey| > 0 ==> defs[|table.columns|] == PrimaryKeyClause(table.primaryKey, t))
      && (forall j :: 0 <= j < |table.foreignKeys| ==> defs[|table.columns| + p + j] == ForeignKeyClause(table.foreignKeys[j], t))
  {
    var head := ColumnEntriesOf(table.columns, t) + KeyEntry(table.primaryKey, t);
    var fks := ForeignKeyEntries(table.foreignKeys, t);
    assert ColumnDefs(table, t) == head + fks;
    assert forall j :: 0 <= j < |fks| ==> (head + fks)[|head| + j] == fks[j];
  }

  /** A character of the left part of a concatenation. */
  lemma CharOfLeft(a: string, b: string, k: nat)
    requires k < |a|
    ensures (a + b)[k] == a[k]
  {
  }

  /** A text whose character `k` differs from that of `p` does not start with `p`. */
  lemma NoPrefixAt(s: string, p: string, k: nat)
    requires k < |p| && k < |s| && s[k] != p[k]
    ensures !HasPrefix(s, p)
  {
    if |p| <= |s| {
      assert s[..|p|][k] != p[k];
    }
  }

  /** A column definition starts with two spaces and the quoted name. */
  lemma ColumnDefStart(col: Column, t: DBType)
    requires IsSupported(t)
    ensures |ColumnDef(col, t)| > 2 && ColumnDef(col, t)[2] == OpenQuote(t)
  {
    var q := Quote(col.name, t);
    var head := "  " + q;
    assert head[2] == q[0];
    CharOfLeft(head, " " + col.columnType, 2);
    assert head + " " + col.columnType == head + (" " + col.columnType);
    CharOfLeft(head + " " + col.columnType, ModifiersText(col, t), 2);
  }

  lemma PrimaryKeyClauseStart(pk: seq<string>, t: DBType)
    ensures HasPrefix(PrimaryKeyClause(pk, t), "  PRIMARY KEY (")
  {
    var a := "  PRIMARY KEY (";
    var b := Join(QuoteAll(pk, t), ", ");
    assert (a + b + ")")[..|a|] == a;
  }

  lemma ColumnDefNotKey(col: Column, t: DBType)
    requires IsSupported(t)
    ensures !HasPrefix(ColumnDef(col, t), "  PRIMARY KEY (")
  {
    ColumnDefStart(col, t);
    NoPrefixAt(ColumnDef(col, t), "  PRIMARY KEY (", 2);
  }

  lemma ForeignKeyClauseNotKey(fk: FK, t: DBType)
    ensures !HasPrefix(ForeignKeyClause(fk, t), "  PRIMARY KEY (")
  {
    CharOfLeft("  CONSTRAINT ", ForeignKeyTarget(fk, t), 2);
    NoPrefixAt(ForeignKeyClause(fk, t), "  PRIMARY KEY (", 2);
  }

  lemma ColumnEntryNotKey(table: Table, t: DBType, i: nat)
    requires IsSupported(t) && i < |table.columns|
    ensures !HasPrefix(ColumnDefs(table, t)[i], "  PRIMARY KEY (")
  {
    ColumnDefsLayout(table, t);
    ColumnDefNotKey(table.columns[i], t);
  }

  lemma ForeignKeyEntryNotKey(table: Table, t: DBType, i: nat)
    requires |table.columns| + |KeyEntry(table.primaryKey, t)| <= i < |ColumnDefs(table, t)|
    ensures !HasPrefix(ColumnDefs(table, t)[i], "  PRIMARY KEY (")
  {
    ColumnDefsLayout(table, t);
    var j := i - |table.columns| - |KeyEntry(table.primaryKey, t)|;
    ForeignKeyClauseNotKey(table.foreignKeys[j], t);
  }

  lemma KeyEntryIsKey(table: Table, t: DBType)
    requires |table.primaryKey| > 0
    ensures HasPrefix(ColumnDefs(table, t)[|table.columns|], "  PRIMARY KEY (")
  {
    ColumnDefsLayout(table, t);
    PrimaryKeyClauseStart(table.primaryKey, t);
  }

  /** Under a quoting dialect exactly one entry, the one after the columns, opens with
      `PRIMARY KEY (`, and only when the key list is non-empty. */
  lemma PrimaryKeyEntryOnlyWhenKeyed(table: Table, t: DBType, i: nat)
    requires IsSupported(t)
    requires i < |ColumnDefs(table, t)|
    ensures HasPrefix(ColumnDefs(table, t)[i], "  PRIMARY KEY (") <==> (|table.primaryKey| > 0 && i == |table.columns|)
  {
    if i < |table.columns| {
      ColumnEntryNotKey(table, t, i);
    } else if i >= |table.columns| + |KeyEntry(table.primaryKey, t)| {
      ForeignKeyEntryNotKey(table, t, i);
    } else {
      KeyEntryIsKey(table, t);
    }
  }

  lemma ForeignKeyEntriesStep(fks: seq<FK>, t: DBType, i: nat)
    requires i < |fks|
    ensures ForeignKeyEntries(fks[..i + 1], t) == ForeignKeyEntries(fks[..i], t) + [ForeignKeyClause(fks[i], t)]
  {
    EachStep(fks, (fk: FK) => ForeignKeyClause(fk, t), i);
  }

  /** The loops that fill `columnDefs`: the column loop with its step-by-step `colDef`, the
      key clause, then the foreign-key loop. */
  method ColumnDefinitions(table: Table, t: DBType) returns (defs: seq<string>)
    ensures defs == ColumnDefs(table, t)
  {
    var columnDefs := ColumnEntries(table.columns, t);
    if |table.primaryKey| > 0 {
      var pkCols := QuoteNames(table.primaryKey, t);
      columnDefs := columnDefs + ["  PRIMARY KEY (" + Join(pkCols, ", ") + ")"];
    }
    assert columnDefs == ColumnEntriesOf(table.columns, t) + KeyEntry(table.primaryKey, t);
    var fks := table.foreignKeys;
    var i := 0;
    defs := columnDefs;
    while i < |fks|
      invariant 0 <= i <= |fks|
      invariant defs == columnDefs + ForeignKeyEntries(fks[..i], t)
    {
      var fk := fks[i];
      var fkDef := "  CONSTRAINT " + (Quote(fk.name, t) + " FOREIGN KEY (" + Quote(fk.column, t) + ") REFERENCES "
                   + Quote(fk.refTable, t) + "(" + Quote(fk.refColumn, t) + ")");
      ForeignKeyEntriesStep(fks, t, i);
      defs := defs + [fkDef];
      i := i + 1;
    }
    assert fks[..i] == fks;
  }

  /** The column loop: `colDef` grows clause by clause. */
  method ColumnEntries(columns: seq<Column>, t: DBType) returns (defs: seq<string>)
    ensures defs == ColumnEntriesOf(columns, t)
  {
    defs := [];
    var i := 0;
    while i < |columns|
      invariant 0 <= i <= |columns|
      invariant defs == ColumnEntriesOf(columns[..i], t)
    {
      var col := columns[i];
      var head := "  " + Quote(col.name, t) + " " + col.columnType;
      var colDef := head;
      if !col.nullable {
        colDef := colDef + " NOT NULL";
      }
      assert colDef == head + NotNullText(col);
      if col.isAutoIncr {
        if t == MySQL {
          colDef := colDef + " AUTO_INCREMENT";
        } else if t == SQLServer {
          colDef := colDef + " IDENTITY(1,1)";
        }
      }
      assert colDef == head + NotNullText(col) + AutoIncrText(col, t);
      if col.default != "" {
        colDef := colDef + (" DEFAULT " + col.default);
      }
      assert colDef == head + NotNullText(col) + AutoIncrText(col, t) + DefaultText(col);
      ModifiersSplit(col, t, head);
      ColumnEntriesStep(columns, t, i);
      defs := defs + [colDef];
      i := i + 1;
    }
    assert columns[..i] == columns;
  }

  lemma ColumnEntriesStep(columns: seq<Column>, t: DBType, i: nat)
    requires i < |columns|
    ensures ColumnEntriesOf(columns[..i + 1], t) == ColumnEntriesOf(columns[..i], t) + [ColumnDef(columns[i], t)]
  {
    EachStep(columns, (c: Column) => ColumnDef(c, t), i);
  }

  lemma ModifiersSplit(col: Column, t: DBType, head: string)
    ensures head + NotNullText(col) + AutoIncrText(col, t) + DefaultText(col) == head + ModifiersText(col, t)
  {
  }

  // ---------------------------------------------------------------------------------------
  // Index statements

  /** The indexes `GenerateDDL` prints: all but those named `PRIMARY`, in order. */
  function PrintedIndexes(indexes: seq<Index>): (kept: seq<Index>)
    ensures |kept| <= |indexes|
    decreases |indexes|
  {
    if |indexes| == 0 then []
    else
      var idx := indexes[|indexes| - 1];
      PrintedIndexes(indexes[..|indexes| - 1]) + (if idx.name == "PRIMARY" then [] else [idx])
  }

  /** An index is printed exactly when it is in the list and is not named `PRIMARY`. */
  lemma {:induction false} PrintedIndexesIff(indexes: seq<Index>, idx: Index)
    ensures idx in PrintedIndexes(indexes) <==> idx in indexes && idx.name != "PRIMARY"
    decreases |indexes|
  {
    if |indexes| > 0 {
      var init := indexes[..|indexes| - 1];
      PrintedIndexesIff(init, idx);
      assert indexes == init + [indexes[|indexes| - 1]];
    }
  }

  /** `CREATE `, the `UNIQUE ` a unique index adds, and `INDEX `. */
  function IndexHead(isUnique: bool): string {
    "CREATE " + (if isUnique then "UNIQUE " else "") + "INDEX "
  }

  /** What follows the head of an index line: `<name> ON <table> (<columns>);` and a newline. */
  function IndexTarget(idx: Index, tableName: string, t: DBType): string {
    Quote(idx.name, t) + " ON " + Quote(tableName, t) + " (" + Join(QuoteAll(idx.columns, t), ", ") + ");\n"
  }

  /** The `CREATE [UNIQUE] INDEX ... ON ... (...);` line of one index. */
  function IndexStatement(idx: Index, tableName: string, t: DBType): string {
    IndexHead(idx.isUnique) + IndexTarget(idx, tableName, t)
  }

  /** An index line says UNIQUE exactly when the index is unique. */
  lemma IndexStatementUnique(idx: Index, tableName: string, t: DBType)
    ensures HasPrefix(IndexStatement(idx, tableName, t), "CREATE UNIQUE INDEX ") <==> idx.isUnique
  {
    IndexHeadUnique(idx.isUnique, IndexTarget(idx, tableName, t));
  }

  lemma IndexHeadUnique(isUnique: bool, rest: string)
    ensures HasPrefix(IndexHead(isUnique) + rest, "CREATE UNIQUE INDEX ") <==> isUnique
  {
    var head := IndexHead(isUnique);
    var s := head + rest;
    if isUnique {
      assert s[..20] == head;
    } else {
      assert s[7] == head[7] == 'I';
    }
  }

  /** The printed index lines of a table, one per printed index, in order. */
  function IndexStatements(kept: seq<Index>, tableName: string, t: DBType): string {
    Concat(kept, (idx: Index) => IndexStatement(idx, tableName, t))
  }

  // ---------------------------------------------------------------------------------------
  // GenerateDDL

  /** The `CREATE TABLE <name> (` line. */
  function TableHead(name: string, t: DBType): string {
    "CREATE TABLE " + Quote(name, t) + " (\n"
  }

  /** The column definitions, the closing `);`, a blank line, and the index lines. */
  function TableBody(table: Table, t: DBType): string {
    Join(ColumnDefs(table, t), ",\n") + "\n);\n\n" + IndexStatements(PrintedIndexes(table.indexes), table.name, t)
  }

  /** The text `GenerateDDL` writes for one table. */
  function TableDdl(table: Table, t: DBType): string {
    TableHead(table.name, t) + TableBody(table, t)
  }

  /** The text `GenerateDDL` writes for a table list: each table's text, in order. */
  function Ddl(tables: seq<Table>, t: DBType): string {
    Concat(tables, (table: Table) => TableDdl(table, t))
  }

  /** The whole text is the tables' texts one after the other, and each opens with its
      CREATE TABLE line. */
  lemma DdlTables(tables: seq<Table>, t: DBType, k: nat)
    requires k < |tables|
    ensures Ddl(tables, t) == Ddl(tables[..k], t) + TableDdl(tables[k], t) + Ddl(tables[k + 1..], t)
    ensures HasPrefix(TableDdl(tables[k], t), TableHead(tables[k].name, t))
  {
    ConcatAt(tables, (table: Table) => TableDdl(table, t), k);
    PrefixOfAppend(TableHead(tables[k].name, t), TableBody(tables[k], t));
  }

  /** The index lines of a table: one per index not named `PRIMARY`, in order, each
      starting with `CREATE UNIQUE INDEX ` exactly when the index is unique. */
  lemma IndexLinesOf(table: Table, t: DBType, k: nat)
    requires k < |PrintedIndexes(table.indexes)|
    ensures var kept := PrintedIndexes(table.indexes); var idx := kept[k];
      && idx in table.indexes && idx.name != "PRIMARY"
      && IndexStatements(kept, table.name, t)
         == IndexStatements(kept[..k], table.name, t) + IndexStatement(idx, table.name, t) + IndexStatements(kept[k + 1..], table.name, t)
      && (HasPrefix(IndexStatement(idx, table.name, t), "CREATE UNIQUE INDEX ") <==> idx.isUnique)
  {
    var kept := PrintedIndexes(table.indexes);
    PrintedIndexesIff(table.indexes, kept[k]);
    ConcatAt(kept, (idx: Index) => IndexStatement(idx, table.name, t), k);
    IndexStatementUnique(kept[k], table.name, t);
  }

  /** What the index loop writes for a list of indexes, index by index. */
  function IndexLoopText(indexes: seq<Index>, tableName: string, t: DBType): string
    decreases |indexes|
  {
    if |indexes| == 0 then ""
    else
      var idx := indexes[|indexes| - 1];
      IndexLoopText(indexes[..|indexes| - 1], tableName, t)
      + (if idx.name == "PRIMARY" then "" else IndexStatement(idx, tableName, t))
  }

  /** The loop's text is the lines of the printed indexes. */
  lemma {:induction false} IndexLoopTextPrinted(indexes: seq<Index>, tableName: string, t: DBType)
    ensures IndexLoopText(indexes, tableName, t) == IndexStatements(PrintedIndexes(indexes), tableName, t)
    decreases |indexes|
  {
    if |indexes| > 0 {
      var init := indexes[..|indexes| - 1];
      var idx := indexes[|indexes| - 1];
      IndexLoopTextPrinted(init, tableName, t);
      if idx.name != "PRIMARY" {
        IndexStatementsAppend(PrintedIndexes(init), idx, tableName, t);
      } else {
        assert PrintedIndexes(indexes) == PrintedIndexes(init);
      }
    }
  }

  lemma IndexLoopTextStep(indexes: seq<Index>, i: nat, tableName: string, t: DBType)
    requires i < |indexes|
    ensures IndexLoopText(indexes[..i + 1], tableName, t)
         == IndexLoopText(indexes[..i], tableName, t)
            + (if indexes[i].name == "PRIMARY" then "" else IndexStatement(indexes[i], tableName, t))
  {
    assert indexes[..i + 1][..i] == indexes[..i];
  }

  /** The index loop of one table, skipping `PRIMARY`. */
  method WriteIndexes(indexes: seq<Index>, tableName: string, t: DBType) returns (out: string)
    ensures out == IndexStatements(PrintedIndexes(indexes), tableName, t)
  {
    out := "";
    var i := 0;
    while i < |indexes|
      invariant 0 <= i <= |indexes|
      invariant out == IndexLoopText(indexes[..i], tableName, t)
    {
      var idx := indexes[i];
      IndexLoopTextStep(indexes, i, tableName, t);
      if idx.name == "PRIMARY" {
        i := i + 1;
        continue;
      }
      var line := WriteIndex(idx, tableName, t);
      out := out + line;
      i := i + 1;
    }
    assert indexes[..i] == indexes;
    IndexLoopTextPrinted(indexes, tableName, t);
  }

  /** The body of the index loop for an index it prints: `unique`, `idxCols` and the line. */
  method WriteIndex(idx: Index, tableName: string, t: DBType) returns (line: string)
    ensures line == IndexStatement(idx, tableName, t)
  {
    var unique := "";
    if idx.isUnique {
      unique := "UNIQUE ";
    }
    var idxCols := QuoteNames(idx.columns, t);
    var target := Quote(idx.name, t) + " ON " + Quote(tableName, t) + " (" + Join(idxCols, ", ") + ");\n";
    assert target == IndexTarget(idx, tableName, t);
    line := "CREATE " + unique + "INDEX " + target;
    IndexLine(unique, idx.isUnique, target);
  }

  lemma IndexLine(unique: string, isUnique: bool, target: string)
    requires unique == if isUnique then "UNIQUE " else ""
    ensures "CREATE " + unique + "INDEX " + target == IndexHead(isUnique) + target
  {
  }

  lemma IndexStatementsAppend(kept: seq<Index>, idx: Index, tableName: string, t: DBType)
    ensures IndexStatements(kept + [idx], tableName, t) == IndexStatements(kept, tableName, t) + IndexStatement(idx, tableName, t)
  {
    ConcatStep(kept + [idx], (i: Index) => IndexStatement(i, tableName, t), |kept|);
    assert (kept + [idx])[..|kept|] == kept;
    assert (kept + [idx])[..|kept| + 1] == kept + [idx];
  }

  lemma PrintedIndexesStep(indexes: seq<Index>, i: nat)
    requires i < |indexes|
    ensures PrintedIndexes(indexes[..i + 1])
         == PrintedIndexes(indexes[..i]) + (if indexes[i].name == "PRIMARY" then [] else [indexes[i]])
  {
    assert indexes[..i + 1][..i] == indexes[..i];
  }

  /** A builder written four times holds the four texts in order. */
  lemma Written(out: string, a: string, b: string, c: string, d: string)
    ensures out + a + b + c + d == out + (a + (b + c + d))
  {
  }

  lemma DdlStep(tables: seq<Table>, t: DBType, i: nat)
    requires i < |tables|
    ensures Ddl(tables[..i + 1], t) == Ddl(tables[..i], t) + TableDdl(tables[i], t)
  {
    ConcatStep(tables, (table: Table) => TableDdl(table, t), i);
  }

  /** `GenerateDDL`: the tables in order, each as its CREATE TABLE statement followed by its
      index lines. */
  method GenerateDdl(schema: Schema) returns (out: string)
    ensures out == Ddl(schema.tables, schema.dbType)
  {
    var t := schema.dbType;
    out := "";
    var i := 0;
    while i < |schema.tables|
      invariant 0 <= i <= |schema.tables|
      invariant out == Ddl(schema.tables[..i], t)
    {
      var table := schema.tables[i];
      var before := out;
      var head := "CREATE TABLE " + Quote(table.name, t) + " (\n";
      out := out + head;
      var columnDefs := ColumnDefinitions(table, t);
      var defsText := Join(columnDefs, ",\n");
      out := out + defsText;
      out := out + "\n);\n\n";
      var indexText := WriteIndexes(table.indexes, table.name, t);
      out := out + indexText;
      Written(before, head, defsText, "\n);\n\n", indexText);
      assert out == before + TableDdl(table, t);
      DdlStep(schema.tables, t, i);
      i := i + 1;
    }
    assert schema.tables[..i] == schema.tables;
  }
}
