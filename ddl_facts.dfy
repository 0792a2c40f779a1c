/** What `ParseDDL` guarantees, stated over the specification functions of `SchemaParser`. */
module DdlFacts {
  import opened Wrappers
  import opened GoStrings
  import opened ReScan
  import opened DdlPatterns
  import opened Models
  import opened SchemaParser

  // ---------------------------------------------------------------------------------------
  // Matching: leftmost-first, non-overlapping

  /** No CREATE TABLE match anywhere: no table. */
  lemma TablesFromNone(s: string, from: nat)
    requires forall p :: from <= p < |s| ==> TableAt(s, p).None?
    ensures TablesFrom(s, from) == []
  {
    FindAllNone(s, from, (p: nat) => TableAt(s, p), (m: TableMatch) => m.end);
  }

  /** The first table match is the one at the leftmost position that starts a match, and the
      search resumes where that match ends. */
  lemma TablesFromLeftmost(s: string, from: nat, p: nat)
    requires from <= p < |s| && TableAt(s, p).Some?
    requires forall q :: from <= q < p ==> TableAt(s, q).None?
    ensures TablesFrom(s, from) == [TableAt(s, p).value] + TablesFrom(s, TableAt(s, p).value.end)
  {
    FindAllLeftmost(s, from, (p: nat) => TableAt(s, p), (m: TableMatch) => m.end, p);
  }

  /** A captured table body never holds ')': the lazy body stops at the first one. */
  lemma TablesFromBodies(s: string, from: nat)
    ensures forall k :: 0 <= k < |TablesFrom(s, from)| ==> ')' !in TablesFrom(s, from)[k].body
  {
    FindAllEach(s, from, (p: nat) => TableAt(s, p), (m: TableMatch) => m.end, (m: TableMatch) => ')' !in m.body);
  }

  /** The same two facts for CREATE INDEX matches. */
  lemma IndexesFromNone(s: string, from: nat)
    requires forall p :: from <= p < |s| ==> IndexAt(s, p).None?
    ensures IndexesFrom(s, from) == []
  {
    FindAllNone(s, from, (p: nat) => IndexAt(s, p), (m: IndexMatch) => m.end);
  }

  lemma IndexesFromLeftmost(s: string, from: nat, p: nat)
    requires from <= p < |s| && IndexAt(s, p).Some?
    requires forall q :: from <= q < p ==> IndexAt(s, q).None?
    ensures IndexesFrom(s, from) == [IndexAt(s, p).value] + IndexesFrom(s, IndexAt(s, p).value.end)
  {
    FindAllLeftmost(s, from, (p: nat) => IndexAt(s, p), (m: IndexMatch) => m.end, p);
  }

  /** The shape every CREATE INDEX match has: a non-empty column list without ')', and a
      UNIQUE group that is either absent or starts with the letter U. */
  predicate IndexMatchShape(m: IndexMatch) {
    m.columnList != [] && ')' !in m.columnList && (m.uniqueGroup == [] || FoldMatch(m.uniqueGroup[0], 'U'))
  }

  lemma IndexesFromShape(s: string, from: nat)
    ensures forall k :: 0 <= k < |IndexesFrom(s, from)| ==> IndexMatchShape(IndexesFrom(s, from)[k])
  {
    FindAllEach(s, from, (p: nat) => IndexAt(s, p), (m: IndexMatch) => m.end, IndexMatchShape);
  }

  /** Without a ')' there is no FOREIGN KEY match. */
  lemma FksFromWithoutParen(s: string)
    requires ')' !in s
    ensures FksFrom(s, 0) == []
  {
    FindAllNone(s, 0, (p: nat) => FkAt(s, p), (m: FkMatch) => m.end);
  }

  /** `FindStringSubmatch` of the default pattern: no value exactly when no position matches,
      and otherwise the value of the leftmost match. */
  lemma {:induction false} FirstDefaultNone(s: string, from: nat)
    ensures FirstDefault(s, from).None? <==> forall p :: from <= p < |s| ==> DefaultAt(s, p).None?
    decreases |s| - from
  {
    if from < |s| {
      if DefaultAt(s, from).None? {
        assert FirstDefault(s, from) == FirstDefault(s, from + 1);
        FirstDefaultNone(s, from + 1);
      } else {
        assert FirstDefault(s, from) == DefaultAt(s, from);
      }
    }
  }

  lemma {:induction false} FirstDefaultLeftmost(s: string, from: nat, p: nat)
    requires from <= p < |s| && DefaultAt(s, p).Some?
    requires forall q :: from <= q < p ==> DefaultAt(s, q).None?
    ensures FirstDefault(s, from) == DefaultAt(s, p)
    decreases p - from
  {
    if from < p {
      assert DefaultAt(s, from).None?;
      FirstDefaultLeftmost(s, from + 1, p);
    }
  }

  /** The same two facts for the comment pattern. */
  lemma {:induction false} FirstCommentNone(s: string, from: nat)
    ensures FirstComment(s, from).None? <==> forall p :: from <= p < |s| ==> CommentAt(s, p).None?
    decreases |s| - from
  {
    if from < |s| && CommentAt(s, from).None? {
      FirstCommentNone(s, from + 1);
    }
  }

  lemma {:induction false} FirstCommentLeftmost(s: string, from: nat, p: nat)
    requires from <= p < |s| && CommentAt(s, p).Some?
    requires forall q :: from <= q < p ==> CommentAt(s, q).None?
    ensures FirstComment(s, from) == CommentAt(s, p)
    decreases p - from
  {
    if from < p {
      assert CommentAt(s, from).None?;
      FirstCommentLeftmost(s, from + 1, p);
    }
  }

  // ---------------------------------------------------------------------------------------
  // Table bodies never hold ')'

  /** A clause of a body without ')' has no ')' either. */
  lemma ClausesWithoutParen(body: string)
    requires ')' !in body
    ensures forall k :: 0 <= k < |Split(body, ',')| ==> ')' !in Split(body, ',')[k]
  {
    forall k | 0 <= k < |Split(body, ',')| ensures ')' !in Split(body, ',')[k] {
      if ')' in Split(body, ',')[k] {
        SplitChars(body, ',', k, ')');
      }
    }
  }

  /** A column parsed from a clause without ')' has a bare word as its type and no FK flag. */
  lemma BareColumn(clause: string)
    requires ')' !in clause
    ensures ClauseColumn(clause).Some? ==>
      !ClauseColumn(clause).value.isFK
      && forall j :: 0 <= j < |ClauseColumn(clause).value.columnType| ==>
           IsWordChar(ClauseColumn(clause).value.columnType[j], false)
  {
    TrimSpaceChars(clause);
  }

  /** The predicate the columns of every table `ParseDDL` builds satisfy. */
  predicate BareColumns(columns: seq<Column>) {
    forall k :: 0 <= k < |columns| ==>
      !columns[k].isFK && forall j :: 0 <= j < |columns[k].columnType| ==> IsWordChar(columns[k].columnType[j], false)
  }

  lemma {:induction false} ColumnsOfBare(clauses: seq<string>)
    requires forall k :: 0 <= k < |clauses| ==> ')' !in clauses[k]
    ensures BareColumns(ColumnsOf(clauses))
    decreases |clauses|
  {
    if |clauses| > 0 {
      ColumnsOfBare(clauses[..|clauses| - 1]);
      BareColumn(clauses[|clauses| - 1]);
    }
  }

  /** The table of a CREATE TABLE match whose body has no ')': no primary-key list, no
      foreign keys, no indexes, and only bare column types. */
  lemma TableOfShape(m: TableMatch)
    requires ')' !in m.body
    ensures TableOf(m).name == m.name
    ensures TableOf(m).columns == ColumnsOf(Split(m.body, ','))
    ensures TableOf(m).primaryKey == [] && TableOf(m).foreignKeys == [] && TableOf(m).indexes == []
    ensures BareColumns(TableOf(m).columns)
  {
    ClausesWithoutParen(m.body);
    ColumnsOfBare(Split(m.body, ','));
    FksFromWithoutParen(m.body);
  }

  lemma {:induction false} TablesOfAt(ms: seq<TableMatch>, k: nat)
    requires k < |ms|
    ensures TablesOf(ms)[k] == TableOf(ms[k])
    decreases |ms|
  {
    var init := ms[..|ms| - 1];
    assert TablesOf(ms) == TablesOf(init) + [TableOf(ms[|ms| - 1])];
    if k < |ms| - 1 {
      TablesOfAt(init, k);
      assert init[k] == ms[k];
    }
  }

  // ---------------------------------------------------------------------------------------
  // Attaching indexes

  /** The indexes of `ms` whose table name first matches position `k` of `tables`, in order. */
  function RoutedTo(tables: seq<Table>, ms: seq<IndexMatch>, k: nat): seq<Index>
    decreases |ms|
  {
    if |ms| == 0 then []
    else
      var m := ms[|ms| - 1];
      RoutedTo(tables, ms[..|ms| - 1], k) + (if FirstNamed(tables, m.table, 0) == Some(k) then [IndexOf(m)] else [])
  }

  /** Two table lists with the same names route every name to the same position. */
  lemma {:induction false} FirstNamedSameNames(a: seq<Table>, b: seq<Table>, name: string, from: nat)
    requires |a| == |b| && from <= |a|
    requires forall k :: 0 <= k < |a| ==> a[k].name == b[k].name
    ensures FirstNamed(a, name, from) == FirstNamed(b, name, from)
    decreases |a| - from
  {
    if from < |a| && !EqualFold(a[from].name, name) {
      FirstNamedSameNames(a, b, name, from + 1);
    }
  }

  /** One attachment: the list keeps its length, the first table named `name` gains `idx` at
      the end of its index list, and every other table is unchanged. */
  lemma AttachToAt(tables: seq<Table>, name: string, idx: Index, k: nat)
    requires k < |tables|
    ensures |AttachTo(tables, name, idx)| == |tables|
    ensures AttachTo(tables, name, idx)[k]
         == tables[k].(indexes := tables[k].indexes + (if FirstNamed(tables, name, 0) == Some(k) then [idx] else []))
  {
  }

  lemma AttachToLength(tables: seq<Table>, name: string, idx: Index)
    ensures |AttachTo(tables, name, idx)| == |tables|
    ensures forall k :: 0 <= k < |tables| ==> AttachTo(tables, name, idx)[k].name == tables[k].name
  {
  }

  /** Attaching indexes keeps the table list's length and names. */
  lemma {:induction false} AttachAllNames(tables: seq<Table>, ms: seq<IndexMatch>)
    ensures |AttachAll(tables, ms)| == |tables|
    ensures forall k :: 0 <= k < |tables| ==> AttachAll(tables, ms)[k].name == tables[k].name
    decreases |ms|
  {
    if |ms| > 0 {
      AttachAllNames(tables, ms[..|ms| - 1]);
      AttachToLength(AttachAll(tables, ms[..|ms| - 1]), ms[|ms| - 1].table, IndexOf(ms[|ms| - 1]));
    }
  }

  /** One attachment seen from table `k`: what `k` had gained so far, plus `idx` when the name
      routes to `k`. */
  lemma AttachToStep(tables: seq<Table>, before: seq<Table>, name: string, idx: Index, k: nat, gained: seq<Index>)
    requires k < |tables| == |before|
    requires before[k] == tables[k].(indexes := tables[k].indexes + gained)
    requires FirstNamed(before, name, 0) == FirstNamed(tables, name, 0)
    ensures |AttachTo(before, name, idx)| == |tables|
    ensures AttachTo(before, name, idx)[k]
         == tables[k].(indexes := tables[k].indexes + (gained + (if FirstNamed(tables, name, 0) == Some(k) then [idx] else [])))
  {
    AttachToAt(before, name, idx, k);
    var added := if FirstNamed(tables, name, 0) == Some(k) then [idx] else [];
    assert tables[k].indexes + gained + added == tables[k].indexes + (gained + added);
  }

  lemma {:induction false} AttachAllRoutesAt(tables: seq<Table>, ms: seq<IndexMatch>, k: nat)
    requires k < |tables|
    ensures |AttachAll(tables, ms)| == |tables|
    ensures AttachAll(tables, ms)[k] == tables[k].(indexes := tables[k].indexes + RoutedTo(tables, ms, k))
    decreases |ms|
  {
    if |ms| > 0 {
      var init := ms[..|ms| - 1];
      var m := ms[|ms| - 1];
      AttachAllRoutesAt(tables, init, k);
      var before := AttachAll(tables, init);
      AttachAllNames(tables, init);
      FirstNamedSameNames(before, tables, m.table, 0);
      AttachToStep(tables, before, m.table, IndexOf(m), k, RoutedTo(tables, init, k));
    } else {
      assert tables[k].indexes + [] == tables[k].indexes;
    }
  }

  /** `parseIndexes` as a whole: the table list keeps its length and order, each table keeps
      everything but its index list, and that list gains, in text order, exactly the indexes
      whose table name first matches it case-insensitively. An index naming no table is dropped. */
  lemma AttachAllRoutes(tables: seq<Table>, ms: seq<IndexMatch>)
    ensures |AttachAll(tables, ms)| == |tables|
    ensures forall k :: 0 <= k < |tables| ==>
      AttachAll(tables, ms)[k] == tables[k].(indexes := tables[k].indexes + RoutedTo(tables, ms, k))
  {
    AttachAllNames(tables, ms);
    forall k | 0 <= k < |tables|
      ensures AttachAll(tables, ms)[k] == tables[k].(indexes := tables[k].indexes + RoutedTo(tables, ms, k))
    {
      AttachAllRoutesAt(tables, ms, k);
    }
  }

  /** An index whose table name matches no table changes nothing. */
  lemma UnmatchedIndexDropped(tables: seq<Table>, m: IndexMatch)
    requires forall k :: 0 <= k < |tables| ==> !EqualFold(tables[k].name, m.table)
    ensures AttachIndex(tables, m) == tables
  {
  }

  /** The index of a CREATE INDEX match: its name, type BTREE, unique exactly when the UNIQUE
      group took part, and its columns cleaned from the column list. */
  lemma IndexOfShape(ddl: string, k: nat)
    requires k < |IndexesFrom(ddl, 0)|
    ensures var m := IndexesFrom(ddl, 0)[k];
      && IndexOf(m).name == m.name
      && IndexOf(m).indexType == "BTREE"
      && (IndexOf(m).isUnique <==> m.uniqueGroup != [])
      && IndexOf(m).columns == NonEmptyCleaned(Split(m.columnList, ','), IndexColumnName)
  {
    IndexesFromShape(ddl, 0);
    var m := IndexesFrom(ddl, 0)[k];
    assert IndexMatchShape(m);
    UniqueGroupFlag(m.uniqueGroup);
  }

  /** A UNIQUE group, when present, starts with a letter matching `U`, so trimming leaves it
      non-empty. */
  lemma UniqueGroupFlag(g: string)
    requires g == [] || FoldMatch(g[0], 'U')
    ensures TrimSpace(g) != "" <==> g != []
  {
    TrimSpaceEmpty(g);
    if g != [] {
      assert !IsSpace(g[0]);
    }
  }

  /** Every column of an index is a non-empty single word. */
  lemma IndexColumnsWords(parts: seq<string>)
    ensures forall j :: 0 <= j < |NonEmptyCleaned(parts, IndexColumnName)| ==>
      NonEmptyCleaned(parts, IndexColumnName)[j] != [] && ' ' !in NonEmptyCleaned(parts, IndexColumnName)[j]
  {
    NonEmptyCleanedEach(parts, IndexColumnName, (col: string) => ' ' !in col);
  }

  /** Every name of a primary-key list is non-empty and neither starts nor ends with a quote
      character. */
  lemma KeyNamesUnquoted(parts: seq<string>)
    ensures forall j :: 0 <= j < |NonEmptyCleaned(parts, KeyName)| ==>
      var col := NonEmptyCleaned(parts, KeyName)[j];
      col != [] && !IsQuoteChar(col[0]) && !IsQuoteChar(col[|col| - 1])
  {
    NonEmptyCleanedEach(parts, KeyName, (col: string) => col == [] || (!IsQuoteChar(col[0]) && !IsQuoteChar(col[|col| - 1])));
  }

  // ---------------------------------------------------------------------------------------
  // ParseDDL as a whole

  /** `ParseDDL` keeps the dialect, leaves the database name empty, and returns one table per
      CREATE TABLE match in text order (none when there is no match). Each table has the
      match's name, the body's columns, no primary-key list and no foreign keys, and column
      types that are bare words; its indexes are those routed to it. */
  lemma DdlSchemaShape(ddl: string, dbType: DBType)
    ensures var s := DdlSchema(ddl, dbType); var ms := TablesFrom(ddl, 0);
      && s.database == "" && s.dbType == dbType
      && |s.tables| == |ms|
      && forall k :: 0 <= k < |ms| ==>
           && s.tables[k].name == ms[k].name
           && s.tables[k].columns == ColumnsOf(Split(ms[k].body, ','))
           && s.tables[k].primaryKey == []
           && s.tables[k].foreignKeys == []
           && BareColumns(s.tables[k].columns)
           && s.tables[k].indexes == RoutedTo(TablesOf(ms), IndexesFrom(ddl, 0), k)
  {
    var ms := TablesFrom(ddl, 0);
    TablesFromBodies(ddl, 0);
    var base := TablesOf(ms);
    AttachAllRoutes(base, IndexesFrom(ddl, 0));
    forall k | 0 <= k < |ms|
      ensures base[k] == TableOf(ms[k])
      ensures TableOf(ms[k]).primaryKey == [] && TableOf(ms[k]).foreignKeys == [] && TableOf(ms[k]).indexes == []
      ensures BareColumns(TableOf(ms[k]).columns)
    {
      TablesOfAt(ms, k);
      TableOfShape(ms[k]);
    }
  }

  // ---------------------------------------------------------------------------------------
  // Column clauses

  /** A clause naming a column `key_id` matches the column pattern ... */
  lemma KeyNamedColumnMatches()
    ensures MatchColumn("key_id INT").Some?
  {
  }

  /** ... but is taken for a KEY constraint and skipped. */
  lemma KeyNamedColumnSkipped()
    ensures ClauseColumn("key_id INT").None?
  {
    var l := "key_id INT";
    TrimmedFixed(l);
    assert ToUpper(l)[..3] == "KEY";
  }
}
