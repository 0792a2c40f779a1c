/** The prompts of internal/ai/ollama.go: `formatSchema`, the schema summary given to the
    language model, and the three prompt templates whose response formats the extractors
    in `AiResponse` read back. */
module AiPrompt {
  import opened Wrappers
  import opened GoStrings
  import opened Models
  import opened IssueFormat

  // ---------------------------------------------------------------------------------------
  // formatSchema

  const TableHeading := "테이블: "
  const ColumnsHeading := "컬럼:"
  const IndexesHeading := "인덱스:"
  const ForeignKeysHeading := "외래키:"
  /** The indentation and dash that open every column, index and foreign-key line. */
  const ItemMark := "  - "

  const PkFlag := " [PK]"
  const FkFlag := " [FK]"
  const UniqueFlag := " [UNIQUE]"

  /** One line of text with its newline, as each `WriteString` call of `formatSchema` ends. */
  function Line(text: string): string {
    text + "\n"
  }

  /** The flags of a column, in the order primary key, foreign key, unique. */
  function ColumnFlags(col: Column): string {
    (if col.isPK then PkFlag else "") + (if col.isFK then FkFlag else "") + (if col.isUnique then UniqueFlag else "")
  }

  function ColumnLine(col: Column): string {
    ItemMark + col.name + " " + col.columnType + ColumnFlags(col)
  }

  function IndexLine(idx: Index): string {
    ItemMark + idx.name + " (" + Join(idx.columns, ", ") + ")"
  }

  function ForeignKeyLine(fk: FK): string {
    ItemMark + fk.column + " -> " + fk.refTable + "." + fk.refColumn
  }

  /** The index block: a heading and one line per index, or nothing for a table without
      indexes. */
  function IndexLines(indexes: seq<Index>): (lines: seq<string>)
    ensures |lines| == if |indexes| == 0 then 0 else |indexes| + 1
  {
    if |indexes| == 0 then [] else [IndexesHeading] + Each(indexes, IndexLine)
  }

  function ForeignKeyLines(fks: seq<FK>): (lines: seq<string>)
    ensures |lines| == if |fks| == 0 then 0 else |fks| + 1
  {
    if |fks| == 0 then [] else [ForeignKeysHeading] + Each(fks, ForeignKeyLine)
  }

  /** The lines written for one table, the last one empty. */
  function TableLines(table: Table): (lines: seq<string>)
    ensures |lines| == 3 + |table.columns| + |IndexLines(table.indexes)| + |ForeignKeyLines(table.foreignKeys)|
  {
    [TableHeading + table.name, ColumnsHeading] + Each(table.columns, ColumnLine)
      + IndexLines(table.indexes) + ForeignKeyLines(table.foreignKeys) + [""]
  }

  function SchemaLines(tables: seq<Table>): seq<string>
    decreases |tables|
  {
    if |tables| == 0 then [] else SchemaLines(tables[..|tables| - 1]) + TableLines(tables[|tables| - 1])
  }

  /** The text `formatSchema` returns. */
  function SchemaText(schema: Schema): string {
    Concat(SchemaLines(schema.tables), Line)
  }

  lemma ConcatPush(lines: seq<string>, x: string)
    ensures Concat(lines + [x], Line) == Concat(lines, Line) + Line(x)
  {
    assert (lines + [x])[..|lines|] == lines;
  }

  lemma ConcatLines(a: seq<string>, b: seq<string>)
    ensures Concat(a + b, Line) == Concat(a, Line) + Concat(b, Line)
  {
    ConcatAppend(a, b, Line);
  }

  /** `formatSchema`'s nested loops over tables and their columns, indexes and foreign keys. */
  method FormatSchema(schema: Schema) returns (text: string)
    ensures text == SchemaText(schema)
  {
    text := "";
    var i := 0;
    while i < |schema.tables|
      invariant 0 <= i <= |schema.tables|
      invariant text == Concat(SchemaLines(schema.tables[..i]), Line)
    {
      var table := schema.tables[i];
      var tableText := FormatTable(table);
      ConcatLines(SchemaLines(schema.tables[..i]), TableLines(table));
      text := text + tableText;
      assert schema.tables[..i + 1][..i] == schema.tables[..i];
      i := i + 1;
    }
    assert schema.tables[..i] == schema.tables;
  }

  /** The body of `formatSchema`'s outer loop: the text of one table. */
  method FormatTable(table: Table) returns (text: string)
    ensures text == Concat(TableLines(table), Line)
  {
    var head := [TableHeading + table.name, ColumnsHeading];
    text := Line(TableHeading + table.name) + Line(ColumnsHeading);
    assert text == Concat(head, Line) by {
      ConcatPush([TableHeading + table.name], ColumnsHeading);
      ConcatPush([], TableHeading + table.name);
    }
    var columns := WriteColumns(table.columns);
    var indexes := WriteIndexes(table.indexes);
    var fks := WriteForeignKeys(table.foreignKeys);
    ConcatLines(head, Each(table.columns, ColumnLine));
    ConcatLines(head + Each(table.columns, ColumnLine), IndexLines(table.indexes));
    ConcatLines(head + Each(table.columns, ColumnLine) + IndexLines(table.indexes), ForeignKeyLines(table.foreignKeys));
    ConcatPush(head + Each(table.columns, ColumnLine) + IndexLines(table.indexes) + ForeignKeyLines(table.foreignKeys), "");
    text := text + columns + indexes + fks + Line("");
  }

  /** The column lines, each with the flags the column carries. */
  method WriteColumns(columns: seq<Column>) returns (text: string)
    ensures text == Concat(Each(columns, ColumnLine), Line)
  {
    text := "";
    var j := 0;
    while j < |columns|
      invariant 0 <= j <= |columns|
      invariant text == Concat(Each(columns[..j], ColumnLine), Line)
    {
      var col := columns[j];
      var flags := WriteFlags(col);
      var line := ItemMark + col.name + " " + col.columnType + flags;
      assert line == ColumnLine(col);
      EachStep(columns, ColumnLine, j);
      ConcatPush(Each(columns[..j], ColumnLine), line);
      text := text + Line(line);
      j := j + 1;
    }
    assert columns[..j] == columns;
  }

  /** The flags of one column line, in the order primary key, foreign key, unique. */
  method WriteFlags(col: Column) returns (flags: string)
    ensures flags == ColumnFlags(col)
  {
    flags := "";
    if col.isPK {
      flags := flags + PkFlag;
    }
    if col.isFK {
      flags := flags + FkFlag;
    }
    if col.isUnique {
      flags := flags + UniqueFlag;
    }
  }

  /** The index block, written only when the table has indexes. */
  method WriteIndexes(indexes: seq<Index>) returns (text: string)
    ensures text == Concat(IndexLines(indexes), Line)
  {
    text := "";
    if |indexes| > 0 {
      text := Line(IndexesHeading);
      ConcatPush([], IndexesHeading);
      var k := 0;
      while k < |indexes|
        invariant 0 <= k <= |indexes|
        invariant text == Concat([IndexesHeading] + Each(indexes[..k], IndexLine), Line)
      {
        var line := IndexLine(indexes[k]);
        ConcatPush([IndexesHeading] + Each(indexes[..k], IndexLine), line);
        EachStep(indexes, IndexLine, k);
        assert [IndexesHeading] + Each(indexes[..k + 1], IndexLine) == [IndexesHeading] + Each(indexes[..k], IndexLine) + [line];
        text := text + Line(line);
        k := k + 1;
      }
      assert indexes[..k] == indexes;
    }
  }

  /** The foreign-key block, written only when the table has foreign keys. */
  method WriteForeignKeys(fks: seq<FK>) returns (text: string)
    ensures text == Concat(ForeignKeyLines(fks), Line)
  {
    text := "";
    if |fks| > 0 {
      text := Line(ForeignKeysHeading);
      ConcatPush([], ForeignKeysHeading);
      var k := 0;
      while k < |fks|
        invariant 0 <= k <= |fks|
        invariant text == Concat([ForeignKeysHeading] + Each(fks[..k], ForeignKeyLine), Line)
      {
        var line := ForeignKeyLine(fks[k]);
        ConcatPush([ForeignKeysHeading] + Each(fks[..k], ForeignKeyLine), line);
        EachStep(fks, ForeignKeyLine, k);
        assert [ForeignKeysHeading] + Each(fks[..k + 1], ForeignKeyLine) == [ForeignKeysHeading] + Each(fks[..k], ForeignKeyLine) + [line];
        text := text + Line(line);
        k := k + 1;
      }
      assert fks[..k] == fks;
    }
  }

  /** The text is its lines joined by newlines, after a final newline. */
  lemma {:induction false} LinesText(lines: seq<string>)
    ensures Concat(lines, Line) == Join(lines + [""], "\n")
    decreases |lines|
  {
    if |lines| > 0 {
      var init := lines[..|lines| - 1];
      var x := lines[|lines| - 1];
      LinesText(init);
      assert init + [x] == lines;
      JoinAppend(lines, "", "\n");
      if |init| > 0 {
        JoinAppend(init, x, "\n");
        JoinAppend(init, "", "\n");
      }
    }
  }

  /** Fields that hold no newline, so that each entity stays on one line. */
  predicate ColumnOnOneLine(col: Column) {
    '\n' !in col.name && '\n' !in col.columnType
  }

  predicate IndexOnOneLine(idx: Index) {
    '\n' !in idx.name && forall k :: 0 <= k < |idx.columns| ==> '\n' !in idx.columns[k]
  }

  predicate ForeignKeyOnOneLine(fk: FK) {
    '\n' !in fk.column && '\n' !in fk.refTable && '\n' !in fk.refColumn
  }

  predicate TableOnOneLine(table: Table) {
    && '\n' !in table.name
    && (forall k :: 0 <= k < |table.columns| ==> ColumnOnOneLine(table.columns[k]))
    && (forall k :: 0 <= k < |table.indexes| ==> IndexOnOneLine(table.indexes[k]))
    && (forall k :: 0 <= k < |table.foreignKeys| ==> ForeignKeyOnOneLine(table.foreignKeys[k]))
  }

  predicate NoNewlines(lines: seq<string>) {
    forall k :: 0 <= k < |lines| ==> '\n' !in lines[k]
  }

  lemma TableLinesFree(table: Table)
    requires TableOnOneLine(table)
    ensures NoNewlines(TableLines(table))
  {
    var cols := Each(table.columns, ColumnLine);
    assert NoNewlines(cols) by {
      forall k | 0 <= k < |cols| ensures '\n' !in cols[k] {
        assert ColumnOnOneLine(table.columns[k]);
        assert cols[k] == ColumnLine(table.columns[k]);
      }
    }
    var idx := Each(table.indexes, IndexLine);
    assert NoNewlines(idx) by {
      forall k | 0 <= k < |idx| ensures '\n' !in idx[k] {
        var index := table.indexes[k];
        assert IndexOnOneLine(index);
        JoinExcludes(index.columns, ", ", '\n');
        assert idx[k] == IndexLine(index);
      }
    }
    var fks := Each(table.foreignKeys, ForeignKeyLine);
    assert NoNewlines(fks) by {
      forall k | 0 <= k < |fks| ensures '\n' !in fks[k] {
        assert ForeignKeyOnOneLine(table.foreignKeys[k]);
        assert fks[k] == ForeignKeyLine(table.foreignKeys[k]);
      }
    }
  }

  lemma {:induction false} SchemaLinesFree(tables: seq<Table>)
    requires forall k :: 0 <= k < |tables| ==> TableOnOneLine(tables[k])
    ensures NoNewlines(SchemaLines(tables))
    decreases |tables|
  {
    if |tables| > 0 {
      SchemaLinesFree(tables[..|tables| - 1]);
      TableLinesFree(tables[|tables| - 1]);
    }
  }

  /** Splitting the schema text at newlines gives back the lines written, one per table
      heading, column, index and foreign key, then an empty remainder after the last
      newline. */
  lemma SchemaTextSplits(schema: Schema)
    requires forall k :: 0 <= k < |schema.tables| ==> TableOnOneLine(schema.tables[k])
    ensures Split(SchemaText(schema), '\n') == SchemaLines(schema.tables) + [""]
  {
    var lines := SchemaLines(schema.tables);
    LinesText(lines);
    SchemaLinesFree(schema.tables);
    SplitJoin(lines + [""], '\n');
  }

  /** The index heading is written exactly when the table has indexes. */
  lemma IndexHeadingIff(table: Table)
    ensures IndexesHeading in TableLines(table) <==> |table.indexes| > 0
  {
    if |table.indexes| == 0 {
      assert (TableHeading + table.name)[0] != IndexesHeading[0];
      ItemsUnmarked(table, IndexesHeading);
    }
  }

  /** The foreign-key heading is written exactly when the table has foreign keys. */
  lemma ForeignKeyHeadingIff(table: Table)
    ensures ForeignKeysHeading in TableLines(table) <==> |table.foreignKeys| > 0
  {
    if |table.foreignKeys| == 0 {
      assert (TableHeading + table.name)[0] != ForeignKeysHeading[0];
      ItemsUnmarked(table, ForeignKeysHeading);
    }
  }

  /** No column, index or foreign-key line equals a text that opens with a letter. */
  lemma ItemsUnmarked(table: Table, heading: string)
    requires |heading| > 0 && heading[0] != ' '
    ensures heading !in Each(table.columns, ColumnLine)
    ensures heading !in Each(table.indexes, IndexLine)
    ensures heading !in Each(table.foreignKeys, ForeignKeyLine)
  {
    var cols := Each(table.columns, ColumnLine);
    forall k | 0 <= k < |cols| ensures cols[k] != heading {
      assert cols[k] == ColumnLine(table.columns[k]);
      assert cols[k][0] == ' ';
    }
    var idx := Each(table.indexes, IndexLine);
    forall k | 0 <= k < |idx| ensures idx[k] != heading {
      assert idx[k] == IndexLine(table.indexes[k]);
      assert idx[k][0] == ' ';
    }
    var fks := Each(table.foreignKeys, ForeignKeyLine);
    forall k | 0 <= k < |fks| ensures fks[k] != heading {
      assert fks[k] == ForeignKeyLine(table.foreignKeys[k]);
      assert fks[k][0] == ' ';
    }
  }

  /** What a column line tells about its column. */
  datatype ColumnSummary = ColumnSummary(name: string, columnType: string, isPK: bool, isFK: bool, isUnique: bool)

  function Summary(col: Column): ColumnSummary {
    ColumnSummary(col.name, col.columnType, col.isPK, col.isFK, col.isUnique)
  }

  /** Reads a column line back: the name runs to the first space and the flags are taken
      off the end, last flag first. */
  function ReadColumnLine(line: string): (summary: Option<ColumnSummary>)
    ensures summary.Some? ==> ' ' !in summary.value.name && HasPrefix(line, ItemMark)
  {
    if !HasPrefix(line, ItemMark) then None
    else
      var body := line[|ItemMark|..];
      var name := FirstField(body, ' ');
      if |name| == |body| then None else Some(ReadFlags(name, body[|name| + 1..]))
  }

  function ReadFlags(name: string, rest: string): ColumnSummary {
    var withoutUnique := TrimSuffix(rest, UniqueFlag);
    var withoutFk := TrimSuffix(withoutUnique, FkFlag);
    ColumnSummary(name, TrimSuffix(withoutFk, PkFlag),
      HasSuffix(withoutFk, PkFlag), HasSuffix(withoutUnique, FkFlag), HasSuffix(rest, UniqueFlag))
  }

  /** A column type that does not itself end in a flag's text. */
  predicate PlainType(columnType: string) {
    !HasSuffix(columnType, PkFlag) && !HasSuffix(columnType, FkFlag) && !HasSuffix(columnType, UniqueFlag)
  }

  /** A column line loses nothing `formatSchema` writes about a column whose name has no space
      and whose type does not end in a flag. */
  lemma ColumnLineRoundTrip(col: Column)
    requires ' ' !in col.name && PlainType(col.columnType)
    ensures ReadColumnLine(ColumnLine(col)) == Some(Summary(col))
  {
    var rest := col.columnType + ColumnFlags(col);
    assert ColumnLine(col) == ItemMark + (col.name + " " + rest);
    LineRead(col.name, rest);
    FlagsPeeled(col.name, col.columnType, col.isPK, col.isFK, col.isUnique);
  }

  lemma LineRead(name: string, rest: string)
    requires ' ' !in name
    ensures ReadColumnLine(ItemMark + (name + " " + rest)) == Some(ReadFlags(name, rest))
  {
    var body := name + " " + rest;
    assert (ItemMark + body)[|ItemMark|..] == body;
    FirstFieldAt(name, ' ', rest);
    assert body[|name| + 1..] == rest;
  }

  lemma {:induction false} FirstFieldAt(a: string, c: char, b: string)
    requires c !in a
    ensures FirstField(a + [c] + b, c) == a
    decreases |a|
  {
    if |a| > 0 {
      FirstFieldAt(a[1..], c, b);
      assert (a + [c] + b)[1..] == a[1..] + [c] + b;
    }
  }

  lemma FlagsPeeled(name: string, columnType: string, isPK: bool, isFK: bool, isUnique: bool)
    requires PlainType(columnType)
    ensures var pk := if isPK then PkFlag else "";
            var fk := if isFK then FkFlag else "";
            var unique := if isUnique then UniqueFlag else "";
            ReadFlags(name, columnType + (pk + fk + unique)) == ColumnSummary(name, columnType, isPK, isFK, isUnique)
  {
    var pk := if isPK then PkFlag else "";
    var fk := if isFK then FkFlag else "";
    var unique := if isUnique then UniqueFlag else "";
    assert columnType + (pk + fk + unique) == columnType + pk + fk + unique;
    FlagPeeled(columnType + pk + fk, UniqueFlag, isUnique);
    if !isUnique {
      if isFK {
        NotEndingIn(columnType + pk, FkFlag, UniqueFlag);
      } else if isPK {
        NotEndingIn(columnType, PkFlag, UniqueFlag);
      }
    }
    FlagPeeled(columnType + pk, FkFlag, isFK);
    if !isFK && isPK {
      NotEndingIn(columnType, PkFlag, FkFlag);
    }
    FlagPeeled(columnType, PkFlag, isPK);
  }

  /** Taking a flag off the end of a text that ends in it. */
  lemma FlagPeeled(x: string, flag: string, on: bool)
    ensures on ==> HasSuffix(x + flag, flag) && TrimSuffix(x + flag, flag) == x
    ensures !on ==> x + "" == x
  {
    assert (x + flag)[|x + flag| - |flag|..] == flag;
  }

  /** A text ending in one flag does not end in a longer or equal flag that itself does not
      end in the first. */
  lemma NotEndingIn(x: string, tail: string, flag: string)
    requires |tail| <= |flag| && !HasSuffix(flag, tail)
    ensures !HasSuffix(x + tail, flag)
  {
    var s := x + tail;
    assert s[|s| - |tail|..] == tail;
  }

  // ---------------------------------------------------------------------------------------
  // The prompt templates

  /** A placeholder of a response format: a bracketed text on one line. */
  predicate Placeholder(s: string) {
    |s| > 1 && s[0] == '(' && s[|s| - 1] == ')' && '\n' !in s
  }

  function Bracketed(text: string): string {
    "(" + text + ")"
  }

  lemma BracketedPlaceholder(text: string)
    requires '\n' !in text
    ensures Placeholder(Bracketed(text))
  {
  }

  /** The placeholders the response formats show. */
  const QueryPlaceholder := Bracketed("쿼리")
  const ExplanationPlaceholder := Bracketed("간단한 설명")
  const OptimizedPlaceholder := Bracketed("최적화된 쿼리")
  const ChangesPlaceholder := Bracketed("변경 사항 설명")
  const FirstTip := Bracketed("팁1")
  const SecondTip := Bracketed("팁2")

  /** The response format the query and optimize prompts end with, one entry per line. */
  function ResponseFormatLines(query: string, explanation: string): seq<string> {
    ["SQL:", query, "", "설명:", explanation, "", "최적화 팁:", "- " + FirstTip, "- " + SecondTip]
  }

  function ResponseFormat(query: string, explanation: string): string {
    Join(ResponseFormatLines(query, explanation), "\n")
  }

  /** The closing section of the query and optimize prompts. */
  function ResponseSection(query: string, explanation: string): string {
    FormatHeading + ResponseFormat(query, explanation) + "\n"
  }

  const QueryPromptIntro := "당신은 SQL 전문가입니다. 주어진 데이터베이스 스키마를 분석하고, 사용자 요청에 맞는 최적화된 SQL 쿼리를 생성해주세요.\n\n## 데이터베이스 타입: "
  const QuerySchemaHeading := "\n\n## 스키마 정보:\n"
  const QueryRequestHeading := "\n\n## 사용자 요청:\n"
  const QueryTypeHeading := "\n\n## 쿼리 타입: "
  const QueryRules := "\n\n## 요구사항:\n1. 인덱스를 최대한 활용하세요\n2. 불필요한 서브쿼리를 피하세요\n3. 적절한 JOIN을 사용하세요\n4. "
  const QueryDialectRule := " 문법에 맞게 작성하세요"
  const FormatHeading := "\n\n## 응답 형식:\n"

  /** `buildQueryPrompt`: the database type, the schema text, the user's request and the
      query type filled into the template, the database type a second time in the rules. */
  function BuildQueryPrompt(req: QueryRequest): string {
    QueryPromptBody(req) + ResponseSection(QueryPlaceholder, ExplanationPlaceholder)
  }

  function QueryPromptBody(req: QueryRequest): string {
    QueryPromptIntro + req.schema.dbType + QuerySchemaHeading + SchemaText(req.schema)
      + QueryRequestHeading + req.prompt + QueryTypeHeading + req.queryType
      + QueryRules + req.schema.dbType + QueryDialectRule
  }

  const OptimizePromptIntro := "당신은 SQL 최적화 전문가입니다. 다음 쿼리를 분석하고 더 빠르게 실행될 수 있도록 최적화해주세요.\n\n## 원본 쿼리:\n"

  /** `buildOptimizePrompt`: the query and the schema text filled into the template. */
  function BuildOptimizePrompt(query: string, schema: Schema): string {
    OptimizePromptIntro + query + QuerySchemaHeading + SchemaText(schema)
      + ResponseSection(OptimizedPlaceholder, ChangesPlaceholder)
  }

  const ValidatePromptIntro := "당신은 SQL 성능 분석 전문가입니다. 다음 쿼리를 분석하고 성능을 평가해주세요.\n\n## 분석할 쿼리:\n"
  const ValidateSchemaHeading := "\n\n## 데이터베이스 스키마:\n"
  const ValidateItems := "\n\n## 다음 항목들을 분석해주세요:\n1. 쿼리 문법이 올바른지 (유효성)\n2. 성능 점수 (0-100점)\n3. 발견된 문제점 (type: error/warning/info)\n4. 인덱스 활용 여부\n5. 더 최적화된 쿼리가 있다면 제안\n6. 예상 실행 계획\n\n## 응답 형식 (반드시 이 형식을 따라주세요):\n"

  /** The placeholders of the validation response format. */
  const ValidityPlaceholder := Bracketed("true 또는 false")
  const ScorePlaceholder := Bracketed("0-100 숫자만")
  const MessagePlaceholder := Bracketed("문제 설명")
  const LocationPlaceholder := Bracketed("위치")
  const FixPlaceholder := Bracketed("해결방안")
  const FirstIndexPlaceholder := Bracketed("사용 가능한 인덱스1")
  const SecondIndexPlaceholder := Bracketed("사용 가능한 인덱스2")
  const BetterQueryPlaceholder := Bracketed("더 나은 쿼리가 있으면 작성, 없으면 \"원본 쿼리가 최적입니다\"")
  const PlanPlaceholder := Bracketed("예상 실행 계획 설명")
  const TimePlaceholder := Bracketed("빠름/보통/느림")
  const FirstSuggestionPlaceholder := Bracketed("제안1")
  const SecondSuggestionPlaceholder := Bracketed("제안2")

  /** The validation response format, one entry per line: a problem line per issue type. */
  function ValidationFormatLines(): seq<string> {
    [ "유효성: " + ValidityPlaceholder,
      "점수: " + ScorePlaceholder,
      "",
      "문제점:",
      IssueLine("error", MessagePlaceholder, LocationPlaceholder, FixPlaceholder),
      IssueLine("warning", MessagePlaceholder, LocationPlaceholder, FixPlaceholder),
      IssueLine("info", MessagePlaceholder, LocationPlaceholder, FixPlaceholder),
      "",
      "인덱스 활용:",
      "- " + FirstIndexPlaceholder,
      "- " + SecondIndexPlaceholder,
      "",
      "최적화된 쿼리:",
      BetterQueryPlaceholder,
      "",
      "실행 계획:",
      PlanPlaceholder,
      "",
      "예상 시간: " + TimePlaceholder,
      "",
      "개선 제안:",
      "- " + FirstSuggestionPlaceholder,
      "- " + SecondSuggestionPlaceholder ]
  }

  function ValidationFormat(): string {
    Join(ValidationFormatLines(), "\n")
  }

  /** `buildValidatePrompt`: the query and the schema text filled into the template. */
  function BuildValidatePrompt(query: string, schema: Schema): string {
    ValidatePromptIntro + query + ValidateSchemaHeading + SchemaText(schema) + ValidateItems
      + (ValidationFormat() + "\n")
  }

}
