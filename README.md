# SQL Genius core, modelled in Dafny

SQL Genius turns natural-language requests into SQL for a known database shape. A language
model, reached through Ollama or Groq, does the reasoning. The engineering lies in one
canonical schema model (`pkg/models/types.go`) and in three sources that feed it or read
from it:

- **DDL text.** `ParseDDL` reads `CREATE TABLE` and `CREATE INDEX` statements into a
  `Schema`. `GenerateDDL` prints a schema back as dialect-quoted DDL.
- **Live databases.** Each connector (MySQL, PostgreSQL, Oracle, SQL Server) maps the rows of
  its catalog queries onto columns, indexes, foreign keys and primary keys. `ExtractSchema`
  assembles the tables and stops at the first failing query.
- **Model answers.** `formatSchema` and the prompt builders tell the model what to answer
  and in which line format. `parseQueryResponse`, `parseValidationResponse` and
  `parseIssue` read the free-text answer back into `QueryResponse` and `QueryValidation`
  fields.

The command-line tool adds three pure pieces, all modelled: the default port per dialect
(`getPort`), the display layout of SQL (`formatSQL`), and the REPL's command switch
(`handleCommand`), which changes the current query mode.

Modules, one per file:

- `Wrappers`: `Option` and `Result`.
- `GoStrings`: the Go `strings` functions the code calls, including `TrimSpace`, `Split`,
  `Join`, `Contains`, `ReplaceAll`, `ToUpper`/`ToLower` with Go's simple case mapping, and
  `fmt.Sscanf("%d")`.
- `ReScan` and `DdlPatterns`: the parser's fixed RE2 patterns, written out as scanners.
  Leftmost-first matching is `FindAll`.
- `Models`: the records.
- `SchemaParser`, `DdlFacts` and `DdlWriter`: `internal/schema/parser.go`.
- `AiPrompt`, `IssueFormat` and `AiResponse`: `internal/ai/ollama.go`. `IssueFormat` holds
  the problem-line layout that the validation prompt shows and `parseIssue` reads.
- `PromptReadBack`: each prompt's response format, filled with its own placeholders, read
  back through the matching response parser.
- `Introspection`, `MySqlRows`, `PostgresRows`, `OracleRows` and `SqlServerRows`: the
  connectors under `internal/db`.
- `Cli`: `cmd/cli/main.go`.

Specification functions define what the loops of each Go function compute. A method carries
the loop, and its `ensures` ties it to that function. Lemmas about the functions state the
properties.

- **Go map iteration.** `range indexMap` visits keys in an unspecified order. It is modelled
  by a nondeterministic choice of the next key, and specified as "some order of the keys"
  (`IsListing`).
- **Database answers.** The connectors' queries become parameters: the table listing, and a
  function from table name to that table's query answers, each a `Result`.

Two behaviours of the code are worth noting:

- An out-of-range score is not clamped. It is rejected, and the previous value stays.
- A validity text holding `유효` reads as valid even when it says "not valid".

Some consequences of the code as written are proved as lemmas, not corrected:

- The CREATE TABLE pattern's lazy body stops at the first `)`. A type such as
  `VARCHAR(255)` therefore ends the body. `PRIMARY KEY (...)` and `FOREIGN KEY (...)`
  clauses can never match inside it, so no parsed table has a primary-key list or a foreign
  key (`DdlFacts.DdlSchemaShape`).
- A column named `key_id` is skipped as a KEY constraint (`DdlFacts.KeyNamedColumnSkipped`).
- A problem line written in the validation prompt's own format keeps its `위치:` and `해결:`
  labels (`AiResponse.ParseIssueLine`).
- An optimized-query line equal to the original query is replaced by the next line
  (`AiResponse.OptimizedRestarts`).

## Model

| member | source | states |
|---|---|---|
| `SchemaParser.ClauseColumn` | internal/schema/parser.go:81-134 | A clause yields a column iff it is not a constraint clause and matches the column pattern. When it does: the name and type come from the match; nullable iff the rest lacks NOT NULL; PK iff it has PRIMARY KEY; unique iff UNIQUE; auto-increment iff AUTO_INCREMENT or IDENTITY appears or the type holds SERIAL; never FK; default and comment come from their patterns |
| `SchemaParser.ParseColumns` | internal/schema/parser.go:73-137 | The loop over the comma-separated clauses returns exactly the columns of the clauses that declare one, in order |
| `SchemaParser.NonEmptyCleaned` | internal/schema/parser.go:146-154 | The kept entries are never more than the parts |
| `SchemaParser.NonEmptyCleanedEach` | internal/schema/parser.go:148-153 | Every kept entry is non-empty, and it satisfies any property the cleaning function always gives |
| `SchemaParser.CleanParts` | internal/schema/parser.go:146-154 | The clean-and-keep loop equals the specification `NonEmptyCleaned` |
| `SchemaParser.KeyName` | internal/schema/parser.go:149-150 | A cleaned key name is empty or neither starts nor ends with a character of the cutset `` `"'[] `` |
| `SchemaParser.ParsePrimaryKey` | internal/schema/parser.go:139-156 | Returns the cleaned, non-empty names of the first `PRIMARY KEY (...)` only |
| `SchemaParser.FkOf` | internal/schema/parser.go:164-173 | Column and references come from the match, and ON DELETE/ON UPDATE stay empty. A CONSTRAINT name is used when given; otherwise the key is named `fk_<column>_<refTable>` |
| `SchemaParser.FksOf` | internal/schema/parser.go:163-175 | One foreign key per match |
| `SchemaParser.ParseForeignKeys` | internal/schema/parser.go:158-177 | The match loop gives one FK per FOREIGN KEY match, in text order |
| `SchemaParser.FirstNamed` | internal/schema/parser.go:213-218 | Finds the first table whose name equals the index's table name case-insensitively (EqualFold), with no earlier one; none when no table qualifies |
| `SchemaParser.IndexColumnName` | internal/schema/parser.go:196-199 | A cleaned index column has no space and is the prefix of the cleaned entry up to its first space (ASC/DESC dropped) |
| `SchemaParser.IndexColumns` | internal/schema/parser.go:193-203 | The inner loop keeps the non-empty cleaned column names in order |
| `SchemaParser.AttachInPlace` | internal/schema/parser.go:213-218 | The in-place search appends the index to the first matching table of the array and changes nothing else |
| `SchemaParser.AttachMatch` | internal/schema/parser.go:183-218 | One match-loop iteration attaches that match's index |
| `SchemaParser.ParseIndexes` | internal/schema/parser.go:179-220 | The array of tables afterwards is the old one with every CREATE INDEX match of the whole text attached in order |
| `SchemaParser.TablesOf` | internal/schema/parser.go:39-65 | One table per CREATE TABLE match |
| `SchemaParser.ParseTable` | internal/schema/parser.go:44-62 | The body of the table loop builds the table of one match from its columns, key and foreign keys |
| `SchemaParser.ParseTables` | internal/schema/parser.go:36-65 | The table loop returns one table per CREATE TABLE match, in text order |
| `SchemaParser.ToArray` | internal/schema/parser.go:68 | A fresh array holding the tables, so that `parseIndexes` can update them in place |
| `SchemaParser.ParseDdl` | internal/schema/parser.go:29-71 | `ParseDDL` never fails, and its schema is `DdlSchema` of the text and dialect |
| `DdlFacts.TablesFromNone` | internal/schema/parser.go:36-37 | With no CREATE TABLE match at any position, no table is found |
| `DdlFacts.TablesFromLeftmost` | internal/schema/parser.go:36-37 | The first table found is the match at the leftmost matching position, and the search resumes after it |
| `DdlFacts.TablesFromBodies` | internal/schema/parser.go:36 | A captured table body never holds `)`, because the lazy body stops at the first one |
| `DdlFacts.IndexesFromNone` | internal/schema/parser.go:180-181 | With no CREATE INDEX match, no index is found |
| `DdlFacts.IndexesFromLeftmost` | internal/schema/parser.go:180-181 | The first index found is at the leftmost matching position, and the search resumes after it |
| `DdlFacts.IndexesFromShape` | internal/schema/parser.go:180 | Every index match has a non-empty column list without `)` and non-empty names |
| `DdlFacts.FksFromWithoutParen` | internal/schema/parser.go:159-160 | A body without `)` has no FOREIGN KEY match |
| `DdlFacts.FirstDefaultNone` | internal/schema/parser.go:122-125 | The DEFAULT search finds nothing iff no position matches |
| `DdlFacts.FirstDefaultLeftmost` | internal/schema/parser.go:122-125 | The DEFAULT value is the one of the leftmost matching position |
| `DdlFacts.FirstCommentNone` | internal/schema/parser.go:128-131 | The COMMENT search finds nothing iff no position matches |
| `DdlFacts.FirstCommentLeftmost` | internal/schema/parser.go:128-131 | The COMMENT text is the one of the leftmost matching position |
| `DdlFacts.ClausesWithoutParen` | internal/schema/parser.go:77 | Clauses split from a body without `)` hold no `)` |
| `DdlFacts.BareColumn` | internal/schema/parser.go:79-103 | A column parsed from a clause without `)` has a bare word as its type and is not a foreign key |
| `DdlFacts.ColumnsOfBare` | internal/schema/parser.go:73-137 | Every column parsed from such clauses is bare |
| `DdlFacts.TableOfShape` | internal/schema/parser.go:44-62 | A table whose body has no `)` keeps the match's name and parsed columns, and has no primary key, no foreign keys and no indexes of its own |
| `DdlFacts.TablesOfAt` | internal/schema/parser.go:39-65 | Table k comes from match k |
| `DdlFacts.AttachAllNames` | internal/schema/parser.go:183-219 | Attaching indexes keeps the table list's length and every table's name |
| `DdlFacts.AttachAllRoutes` | internal/schema/parser.go:179-220 | `parseIndexes` as a whole: each table keeps its fields and gains, in text order, exactly the indexes whose table name first matches it |
| `DdlFacts.UnmatchedIndexDropped` | internal/schema/parser.go:213-218 | An index naming no table changes nothing |
| `DdlFacts.IndexOfShape` | internal/schema/parser.go:188-210 | The index of a match keeps its name, has type BTREE, is unique iff the UNIQUE group matched, and has the cleaned entries of the column list as its columns |
| `DdlFacts.UniqueGroupFlag` | internal/schema/parser.go:188 | Trimming the UNIQUE group leaves it non-empty iff it matched |
| `DdlFacts.IndexColumnsWords` | internal/schema/parser.go:193-203 | Every index column is a non-empty word without a space |
| `DdlFacts.KeyNamesUnquoted` | internal/schema/parser.go:146-154 | Every primary-key name is non-empty and neither starts nor ends with a quote character |
| `DdlFacts.DdlSchemaShape` | internal/schema/parser.go:29-71 | `ParseDDL` keeps the dialect and leaves the database name empty. It has one table per CREATE TABLE match, in text order, with that match's name and columns, bare column types, and the indexes routed to it. No table ever has a primary-key list or a foreign key: the lazy body stops at the first `)`, which those patterns need |
| `DdlFacts.KeyNamedColumnMatches` | internal/schema/parser.go:79 | The clause `key_id INT` matches the column pattern |
| `DdlFacts.KeyNamedColumnSkipped` | internal/schema/parser.go:85-93 | The clause `key_id INT` is nonetheless skipped as a KEY constraint, as the prefix test is written |
| `DdlPatterns.FindAllNone` | internal/schema/parser.go:37 | `FindAllStringSubmatch` finds nothing when no position starts a match |
| `DdlPatterns.FindAllLeftmost` | internal/schema/parser.go:37 | The first match is the leftmost, and the search continues after its end |
| `DdlPatterns.FindAllEach` | internal/schema/parser.go:37 | Every match found has every property all anchored matches have |
| `DdlPatterns.TableAt` | internal/schema/parser.go:36 | A CREATE TABLE match ends with `)`, has a non-empty name and a body without `)` |
| `DdlPatterns.MatchColumn` | internal/schema/parser.go:79 | A column match has a non-empty name and type and a rest without newline. Without `)` in the line, the type is a bare word |
| `DdlPatterns.FirstDefault` | internal/schema/parser.go:122 | A DEFAULT value is non-empty and holds no white space or comma |
| `DdlPatterns.DefaultAtMaximal` | internal/schema/parser.go:122-126 | A DEFAULT value is the whole run of value characters after the keyword and its spaces: the text ends or a space or comma follows |
| `DdlPatterns.FirstComment` | internal/schema/parser.go:128 | A COMMENT text holds no quote |
| `DdlPatterns.FirstPrimaryKey` | internal/schema/parser.go:140 | A PRIMARY KEY list is non-empty and holds no `)`; none without a `)` |
| `DdlPatterns.FkAt` | internal/schema/parser.go:159 | A FOREIGN KEY match ends with `)`; none without a `)` |
| `DdlPatterns.FkTail` | internal/schema/parser.go:159 | A FOREIGN KEY match has a non-empty column, referenced table and referenced column |
| `DdlPatterns.IndexAt` | internal/schema/parser.go:180 | A CREATE INDEX match has non-empty names, a non-empty column list without `)`, and a UNIQUE group that is empty or starts with a U |
| `DdlWriter.Quote` | internal/schema/parser.go:301-314 | The four dialects wrap the name in their quote pair, with two characters added; other dialect tags leave it as is |
| `DdlWriter.QuoteUnquote` | internal/schema/parser.go:301-314 | Between the quotes stands the name itself, or its upper case under Oracle |
| `DdlWriter.QuoteInjective` | internal/schema/parser.go:301-308 | Outside Oracle, distinct names quote differently |
| `DdlWriter.OracleQuoteFolds` | internal/schema/parser.go:309-310 | Under Oracle two names print alike iff their upper-case forms agree |
| `DdlWriter.QuoteAll` | internal/schema/parser.go:258-261 | One quoted name per name |
| `DdlWriter.QuoteNames` | internal/schema/parser.go:287-290 | The loops filling `pkCols` and `idxCols` quote each name, and each can be read back |
| `DdlWriter.ModifiersRoundTrip` | internal/schema/parser.go:238-251 | The text after a column's type reads back as exactly: not-null iff not nullable, the dialect's auto-increment marker iff auto-increment (none outside MySQL and SQL Server), and the default iff non-empty |
| `DdlWriter.ReadNotNullOf` | internal/schema/parser.go:238-240 | ` NOT NULL` is read back iff the column is not nullable |
| `DdlWriter.ReadAutoIncrOf` | internal/schema/parser.go:241-248 | The auto-increment marker is read back iff it was written |
| `DdlWriter.ReadDefaultTextOf` | internal/schema/parser.go:249-251 | The default value is read back |
| `DdlWriter.ColumnEntriesOf` | internal/schema/parser.go:235-254 | One definition per column |
| `DdlWriter.KeyEntry` | internal/schema/parser.go:257-263 | The PRIMARY KEY entry is present iff the key list is non-empty |
| `DdlWriter.ForeignKeyEntries` | internal/schema/parser.go:266-273 | One constraint per foreign key |
| `DdlWriter.ColumnDefs` | internal/schema/parser.go:234-273 | `columnDefs` has one entry per column, one key entry when keyed, and one per foreign key |
| `DdlWriter.ColumnDefsLayout` | internal/schema/parser.go:234-273 | The column definitions come first, then the key entry, then the foreign keys, each at its position |
| `DdlWriter.ColumnDefStart` | internal/schema/parser.go:236 | A column definition opens with two spaces and the dialect's quote |
| `DdlWriter.PrimaryKeyEntryOnlyWhenKeyed` | internal/schema/parser.go:256-273 | Under a quoting dialect, an entry opens with `  PRIMARY KEY (` iff the table is keyed and the entry is the one right after the columns |
| `DdlWriter.ColumnDefinitions` | internal/schema/parser.go:234-273 | The loops filling `columnDefs` give exactly `ColumnDefs` |
| `DdlWriter.ColumnEntries` | internal/schema/parser.go:235-254 | The column loop, `colDef` growing clause by clause, gives one definition per column |
| `DdlWriter.PrintedIndexes` | internal/schema/parser.go:279-282 | The printed indexes are never more than the indexes |
| `DdlWriter.PrintedIndexesIff` | internal/schema/parser.go:279-282 | An index is printed iff it is in the table's list and not named `PRIMARY` |
| `DdlWriter.IndexStatementUnique` | internal/schema/parser.go:283-294 | An index line opens with `CREATE UNIQUE INDEX ` iff the index is unique |
| `DdlWriter.DdlTables` | internal/schema/parser.go:231-296 | The output is the tables' texts in order, each opening with its `CREATE TABLE <quoted name> (` line |
| `DdlWriter.IndexLinesOf` | internal/schema/parser.go:279-295 | The index lines of a table: one per index not named PRIMARY, in order, each naming the quoted index, the table and the quoted columns |
| `DdlWriter.IndexLoopTextPrinted` | internal/schema/parser.go:279-295 | The index loop's text is the lines of the printed indexes |
| `DdlWriter.WriteIndexes` | internal/schema/parser.go:279-295 | The index loop, skipping PRIMARY, writes exactly the printed indexes' lines |
| `DdlWriter.WriteIndex` | internal/schema/parser.go:283-294 | One printed index: `unique`, `idxCols` and the line |
| `DdlWriter.GenerateDdl` | internal/schema/parser.go:228-299 | `GenerateDDL` writes the tables in order, each as its CREATE TABLE statement followed by its index lines |
| `AiPrompt.IndexLines` | internal/ai/ollama.go:244-249 | The index block has a heading and one line per index, or nothing for a table without indexes |
| `AiPrompt.ForeignKeyLines` | internal/ai/ollama.go:251-256 | The foreign-key block has a heading and one line per key, or nothing |
| `AiPrompt.TableLines` | internal/ai/ollama.go:227-257 | One table gives: its heading, the columns heading, one line per column, the two blocks and a blank line |
| `AiPrompt.FormatSchema` | internal/ai/ollama.go:223-261 | `formatSchema`'s nested loops produce the schema text, each table's lines in order |
| `AiPrompt.FormatTable` | internal/ai/ollama.go:228-257 | The outer loop's body writes one table's lines |
| `AiPrompt.WriteColumns` | internal/ai/ollama.go:230-242 | The column loop writes one flagged line per column |
| `AiPrompt.WriteFlags` | internal/ai/ollama.go:231-240 | A column's flags are ` [PK]`, ` [FK]`, ` [UNIQUE]` for the keys it carries, in that order |
| `AiPrompt.WriteIndexes` | internal/ai/ollama.go:244-249 | The index block is written only for a table with indexes |
| `AiPrompt.WriteForeignKeys` | internal/ai/ollama.go:251-256 | The foreign-key block is written only for a table with foreign keys |
| `AiPrompt.LinesText` | internal/ai/ollama.go:225-260 | The text is its lines joined by newlines, after a final newline |
| `AiPrompt.TableLinesFree` | internal/ai/ollama.go:228-257 | No newline appears inside the lines of a table whose fields hold none |
| `AiPrompt.SchemaTextSplits` | internal/ai/ollama.go:223-261 | Splitting the schema text at newlines gives back exactly the lines written, plus the final empty one |
| `AiPrompt.IndexHeadingIff` | internal/ai/ollama.go:244-245 | The index heading appears among a table's lines iff the table has indexes |
| `AiPrompt.ForeignKeyHeadingIff` | internal/ai/ollama.go:251-252 | The foreign-key heading appears iff the table has foreign keys |
| `AiPrompt.ItemsUnmarked` | internal/ai/ollama.go:241-254 | No column, index or foreign-key line can be mistaken for a heading |
| `AiPrompt.ReadColumnLine` | internal/ai/ollama.go:241 | A column line that reads back has a space-free name and starts with the item mark |
| `AiPrompt.ColumnLineRoundTrip` | internal/ai/ollama.go:231-241 | A column line reads back to the name, type and three flags, for a name without spaces and a type not ending in a flag text |
| `AiPrompt.BracketedPlaceholder` | internal/ai/ollama.go:183-193 | A bracketed one-line text is a placeholder |
| `PromptReadBack.QueryPromptFormat` | internal/ai/ollama.go:162-196 | The query prompt ends with its response format, and `parseQueryResponse` reads that format as its own query, explanation and two tips |
| `PromptReadBack.QueryFormatRead` | internal/ai/ollama.go:183-193 | The query prompt's format reads back as its placeholders |
| `PromptReadBack.OptimizePromptFormat` | internal/ai/ollama.go:199-221 | The optimize prompt ends with the same format with its own placeholders, and it reads back as those |
| `PromptReadBack.OptimizeFormatRead` | internal/ai/ollama.go:210-220 | The optimize prompt's format reads back as its placeholders |
| `PromptReadBack.ResponseFormatRead` | internal/ai/ollama.go:183-193 | A reply that fills the format with placeholders is read as those placeholders |
| `PromptReadBack.FormatSplits` | internal/ai/ollama.go:183-193 | The format splits into its nine lines |
| `PromptReadBack.FormatRun` | internal/ai/ollama.go:271-301 | The parse loop over the format's lines ends in the tips section, holding the query, the explanation and both tips |
| `PromptReadBack.FormatLinesRun` | internal/ai/ollama.go:271-301 | Any nine lines shaped like the format (header, value, blank, three times, with two tips) are read as those values |
| `PromptReadBack.SectionRun` | internal/ai/ollama.go:274-293 | A header, its value and a blank line switch the section and add the value to that section |
| `PromptReadBack.TipsRun` | internal/ai/ollama.go:294-299 | The two tip lines add their two tips |
| `PromptReadBack.CleanPlaceholder` | internal/ai/ollama.go:303-310 | Query cleaning leaves a placeholder unchanged |
| `PromptReadBack.ValidatePromptFormat` | internal/ai/ollama.go:332-376 | The validate prompt ends with its response format, and `parseValidationResponse` reads that format as valid, score 50, the query kept, three issues labelled error, warning and info, two indexes, the plan, the time and two suggestions |
| `PromptReadBack.ValidationFormatRead` | internal/ai/ollama.go:351-376 | The validation format reads back as those values: the score placeholder is not a score, and the optimized-query placeholder is the "original is optimal" remark, so it is skipped |
| `PromptReadBack.ValidationFormatSplits` | internal/ai/ollama.go:351-376 | The validation format splits into its twenty-three lines |
| `PromptReadBack.ValidationFormatRun` | internal/ai/ollama.go:379-494 | The parse loop over the format's lines ends in the suggestions section with the issues, indexes, plan, time and suggestions of the format |
| `PromptReadBack.ValidationTextRun` | internal/ai/ollama.go:379-494 | Any twenty-three lines holding the format's text with placeholders of the same shape are read as those placeholders |
| `PromptReadBack.ValidationLinesRun` | internal/ai/ollama.go:393-483 | Lines that read as a validity line, a score line, the issue, index, optimized, plan, time and suggestion sections add exactly their values, in order |
| `AiResponse.BulletText` | internal/ai/ollama.go:295-298 | A list item is trimmed and no longer than its line |
| `AiResponse.BulletTextChars` | internal/ai/ollama.go:295-298 | Every character of a list item comes from its line |
| `AiResponse.IssueTag` | internal/ai/ollama.go:504-514 | The type is error iff the line holds `[error]`; warning iff it holds `[warning]` and not `[error]`; info otherwise. It is always one of the three |
| `AiResponse.ParseIssue` | internal/ai/ollama.go:497-531 | An issue has one of the three types, and trimmed message, location and suggestion without a pipe character |
| `AiResponse.IssueOfParts` | internal/ai/ollama.go:516-528 | The parts give the type as read, and trimmed fields without a pipe character |
| `AiResponse.ParseIssueLine` | internal/ai/ollama.go:356-358 | A problem line in the prompt's own format reads back to its type and message, but the location and suggestion keep their `위치:`/`해결:` labels, because the space after each pipe defeats `TrimPrefix` |
| `AiResponse.LabelKept` | internal/ai/ollama.go:521-528 | A part `" <label> <text>"` keeps its label after `TrimPrefix` and trimming |
| `AiResponse.ContainsOnlyAtStart` | internal/ai/ollama.go:505-513 | A tag that can only occur at the start is contained iff it is a prefix |
| `AiResponse.TagRead` | internal/ai/ollama.go:504-514 | A line opening with a type tag reads as that type, with the tag removed |
| `AiResponse.MarkerDropped` | internal/ai/ollama.go:500-502 | The list marker `- ` is dropped |
| `AiResponse.FieldsSplit` | internal/ai/ollama.go:517 | A problem line's fields split at the pipe character into the three parts |
| `AiResponse.Gathered` | internal/ai/ollama.go:285-300 | What a section gathers is never more than the lines |
| `AiResponse.QueryRunGathers` | internal/ai/ollama.go:271-301 | The loop keeps the sections apart. The section in force is the last header's. SQL lines are the raw kept lines under `SQL:`, explanation lines the trimmed non-empty lines under `설명:`, tips the list items under `최적화 팁:`. Headers and lines before the first header contribute nothing |
| `AiResponse.PreambleIgnored` | internal/ai/ollama.go:267-285 | Lines before the first header are ignored |
| `AiResponse.PreambleEmpty` | internal/ai/ollama.go:267-285 | A response with no header gathers nothing |
| `AiResponse.GatheredExcludes` | internal/ai/ollama.go:285-300 | A character no item holds is absent from what a section gathers |
| `AiResponse.QueryAnswerShape` | internal/ai/ollama.go:264-313 | The query is trimmed, the explanation holds no newline, and every tip is trimmed and on one line |
| `AiResponse.TipsTrimmed` | internal/ai/ollama.go:294-299 | Every tip is trimmed |
| `AiResponse.CleanQuery` | internal/ai/ollama.go:303-310 | The cleaned query is trimmed |
| `AiResponse.ParseQueryResponse` | internal/ai/ollama.go:264-313 | The loop over the response lines returns `QueryAnswer` of the response |
| `AiResponse.NotValidInKoreanReadsValid` | internal/ai/ollama.go:399 | "유효하지 않음" ("not valid") holds `유효`, so it reads as valid, as the code is written |
| `AiResponse.FalseReadsInvalid` | internal/ai/ollama.go:399 | `false` and `FALSE` read as invalid |
| `AiResponse.ScoreOf` | internal/ai/ollama.go:403-409 | A score is accepted only within 1 to 100 |
| `AiResponse.Taken` | internal/ai/ollama.go:439-481 | An item gives at most one list entry |
| `AiResponse.FinalOptimized` | internal/ai/ollama.go:486-491 | The cleaned optimized query is empty only when the original query is |
| `AiResponse.Collected` | internal/ai/ollama.go:438-482 | A list section collects no more entries than there are lines |
| `AiResponse.RunSection` | internal/ai/ollama.go:396-435 | The section in force is the last section header's; the single-line headers do not change it |
| `AiResponse.RunScalars` | internal/ai/ollama.go:380-435 | Validity, score and estimated time are those of the last validity, accepted score and time line, in any section. Otherwise they keep the defaults true, 50 and "". The original query is kept and no time is measured |
| `AiResponse.RunLists` | internal/ai/ollama.go:438-482 | Issues, index usage and suggestions are exactly what their sections collect, in line order |
| `AiResponse.RunPlan` | internal/ai/ollama.go:465-472 | The plan is built from what its section collects |
| `AiResponse.RunOptimized` | internal/ai/ollama.go:455-464 | The optimized query is built from what its section collects, starting from the original |
| `AiResponse.ValidationOfFields` | internal/ai/ollama.go:379-494 | `parseValidationResponse` field by field: every field of the result in terms of the response's lines |
| `AiResponse.ScoreBounded` | internal/ai/ollama.go:383-409 | The score stays within 1 to 100 whatever the response says |
| `AiResponse.LatestScoreBounded` | internal/ai/ollama.go:402-411 | The latest accepted score, or 50, lies in 1 to 100 |
| `AiResponse.CollectedAll` | internal/ai/ollama.go:438-482 | A property of every item a section can take holds of everything collected |
| `AiResponse.ListsClean` | internal/ai/ollama.go:439-481 | Every issue kept has a message and one of the three types. No index-usage entry is empty or `없음`. No suggestion is empty. All entries are trimmed |
| `AiResponse.PlanJoined` | internal/ai/ollama.go:466-471 | The plan built line by line is the non-empty lines joined by single spaces |
| `AiResponse.PlanIsJoin` | internal/ai/ollama.go:465-472 | The execution plan is the plan section's trimmed non-empty lines joined by spaces |
| `AiResponse.OptimizedJoined` | internal/ai/ollama.go:455-464 | For a one-line original that no taken line repeats, the optimized query is the taken lines joined by newlines |
| `AiResponse.OptimizedRestarts` | internal/ai/ollama.go:458-462 | A taken line equal to the original query does not start the text: the next line replaces it |
| `AiResponse.ParseValidationResponse` | internal/ai/ollama.go:379-494 | The loop that updates the record field by field returns `ValidationOf` of the response |
| `AiResponse.ReadLine` | internal/ai/ollama.go:394-482 | One loop iteration is one `ValidationStep` |
| `AiResponse.ReadLaterLine` | internal/ai/ollama.go:420-482 | The rest of an iteration is one `ValidationStep` |
| `AiResponse.ReadBodyLine` | internal/ai/ollama.go:438-482 | The `switch section` is one `BodyStep` |
| `AiResponse.ReadIssue` | internal/ai/ollama.go:439-445 | The issues case appends the line's issue, if any |
| `AiResponse.ReadIndexUsage` | internal/ai/ollama.go:446-454 | The index case appends the line's entry, if any |
| `AiResponse.ReadOptimized` | internal/ai/ollama.go:455-464 | The optimized case restarts or extends the optimized query |
| `AiResponse.ReadPlan` | internal/ai/ollama.go:465-472 | The plan case starts or extends the plan |
| `AiResponse.ReadSuggestion` | internal/ai/ollama.go:473-481 | The suggestions case appends the line's suggestion, if any |
| `Introspection.OrEmpty` | internal/db/mysql.go:151-156 | A NULL text reads as empty, any other as its string |
| `Introspection.MapRows` | internal/db/mysql.go:136-160 | A getter gives the query's error, or one record per row in row order |
| `Introspection.ReadRows` | internal/db/mysql.go:219-227 | The `for rows.Next()` loop equals `MapRows` |
| `Introspection.IndexMapOfSpec` | internal/db/mysql.go:176-195 | A name is in the folded map iff some row names it. Its index has the first such row's uniqueness and type, and the columns of all rows with that name, in row order |
| `Introspection.FirstRowNamedIsFirst` | internal/db/mysql.go:185-194 | The row that creates an index is the first row with its name |
| `Introspection.FirstRowNamedAbsent` | internal/db/mysql.go:185-194 | With no creating row, no row has the name |
| `Introspection.IndexMapKeys` | internal/db/mysql.go:176-195 | A name is a key iff some row carries it, and each key's index has that name |
| `Introspection.FoldIndexes` | internal/db/mysql.go:176-195 | The `indexMap` loop equals `IndexMapOf` |
| `Introspection.ListIndexes` | internal/db/mysql.go:197-200 | The `range indexMap` loop lists the map's values, each once, in some order of its keys |
| `Introspection.IndexMapKeyed` | internal/db/mysql.go:188-193 | Every key of the folded map is the name of its index |
| `Introspection.ListedNames` | internal/db/mysql.go:197-201 | The listed indexes have distinct names, exactly the map's keys, each being the map's entry |
| `Introspection.GetIndexes` | internal/db/mysql.go:170-201 | A query error passes through; otherwise the result lists the folded map |
| `Introspection.FkOf` | internal/db/mysql.go:219-227 | A foreign-key row's fields carry over, with empty ON DELETE/ON UPDATE |
| `Introspection.GetPrimaryKeys` | internal/db/mysql.go:237-251 | The primary-key names in row order, or the query's error |
| `Introspection.MetaError` | internal/db/mysql.go:69-94 | There is no error iff all four getters succeed; otherwise the first error in call order |
| `Introspection.FirstErrorNone` | internal/db/mysql.go:65-97 | No table error iff no table's getters fail |
| `Introspection.FirstErrorIsFirst` | internal/db/mysql.go:65-97 | The error reported is that of a table all of whose predecessors succeeded |
| `Introspection.FirstErrorPrefix` | internal/db/mysql.go:65-97 | An error within a prefix of the listing is the error of the whole listing |
| `Introspection.ExtractSchema` | internal/db/mysql.go:52-100 | A listing error aborts. Otherwise the first getter error aborts. Otherwise there is one table per listed name, in order, each with its name, columns, listed indexes, foreign keys and keys |
| `Introspection.ReadTable` | internal/db/mysql.go:66-96 | One loop iteration: the table's first error, or the table assembled from its four getters |
| `MySqlRows.ColumnOf` | internal/db/mysql.go:146-156 | Nullable iff `YES`. PK iff `PRI`, FK iff `MUL`, unique iff `UNI`, so at most one key flag holds. Auto-increment iff the extra text holds `auto_increment`. NULL default and comment become empty |
| `MySqlRows.IndexRowOf` | internal/db/mysql.go:191 | An index is unique iff NON_UNIQUE is 0 |
| `MySqlRows.GetIndexes` | internal/db/mysql.go:163-202 | A query error passes through; otherwise the folded and listed indexes of the rows |
| `MySqlRows.Meta` | internal/db/mysql.go:121-252 | Each getter's result in terms of its rows |
| `MySqlRows.Lookup` | internal/db/mysql.go:69-90 | The getters are asked about the listed name as is |
| `MySqlRows.ExtractSchema` | internal/db/mysql.go:52-100 | `ExtractSchema` with the `mysql` tag and the configured database name |
| `PostgresRows.ColumnOf` | internal/db/postgres.go:150-160 | Nullable iff `YES`. The key flags come from the query. Never unique, no comment. Auto-increment iff a default exists and holds `nextval` |
| `PostgresRows.Meta` | internal/db/postgres.go:116-271 | Each getter's result in terms of its rows |
| `PostgresRows.Lookup` | internal/db/postgres.go:47-90 | The getters are asked about the listed name as is |
| `PostgresRows.ExtractSchema` | internal/db/postgres.go:47-90 | `ExtractSchema` with the `postgresql` tag |
| `OracleRows.ColumnOf` | internal/db/oracle.go:140-144 | Nullable iff `Y`, PK iff `Y`. Never FK, unique or auto-increment. NULL default becomes empty |
| `OracleRows.IndexRowOf` | internal/db/oracle.go:179 | An index is unique iff its uniqueness is `UNIQUE` |
| `OracleRows.GetIndexes` | internal/db/oracle.go:151-190 | A query error passes through; otherwise the folded and listed indexes |
| `OracleRows.ForeignKeyOf` | internal/db/oracle.go:211-222 | A NULL referenced table or column becomes empty |
| `OracleRows.Meta` | internal/db/oracle.go:112-250 | Each getter's result in terms of its rows |
| `OracleRows.Lookup` | internal/db/oracle.go:124 | Every getter is asked about the upper-cased name, so names equal up to case get the same metadata |
| `OracleRows.ExtractSchema` | internal/db/oracle.go:47-90 | `ExtractSchema` with the `oracle` tag; tables keep their listed names |
| `SqlServerRows.ColumnOf` | internal/db/sqlserver.go:149-154 | Nullable iff `YES`. PK iff the flag is 1, auto-increment iff the identity flag is 1. Never FK or unique |
| `SqlServerRows.Meta` | internal/db/sqlserver.go:116-259 | Each getter's result in terms of its rows |
| `SqlServerRows.Lookup` | internal/db/sqlserver.go:47-90 | The getters are asked about the listed name as is |
| `SqlServerRows.ExtractSchema` | internal/db/sqlserver.go:47-90 | `ExtractSchema` with the `sqlserver` tag |
| `Cli.GetPort` | cmd/cli/main.go:162-180 | An explicit port wins. Otherwise the dialect's default (3306, 5432, 1521, 1433). The result is 0 iff no port is given and the tag is unsupported |
| `Cli.FormatSql` | cmd/cli/main.go:371-394 | The keyword loop and the line loop return `FormattedSql` |
| `Cli.IndentLinesShape` | cmd/cli/main.go:385-392 | The kept lines are never more than the input lines, and each is indented, non-blank text without surrounding space or newline |
| `Cli.FormattedLines` | cmd/cli/main.go:371-394 | The result read back line by line is exactly the kept lines; no blank line appears |
| `Cli.BlankUnbroken` | cmd/cli/main.go:379-382 | Breaking keywords leaves text made only of spaces unchanged |
| `Cli.BlankLinesDropped` | cmd/cli/main.go:387-392 | Lines made only of spaces are all dropped |
| `Cli.BlankSql` | cmd/cli/main.go:371-394 | Blank input displays as the empty string |
| `Cli.CommandWord` | cmd/cli/main.go:264-265 | The command word is no longer than the line |
| `Cli.Argument` | cmd/cli/main.go:264 | An argument exists iff the line has a space, and the line is the word, a space and the argument |
| `Cli.ModeOf` | cmd/cli/main.go:268-285 | A word switches mode iff it is one of the six mode commands; the mode is its upper case without the slash |
| `Cli.ActionOf` | cmd/cli/main.go:267-320 | Each case of the switch holds exactly when its command word is given. The argument-less `/optimize` and `/explain` print usage |
| `Cli.ModeCommandAnyCase` | cmd/cli/main.go:264-285 | A mode command is recognised whatever its letter case and whatever follows it |
| `Cli.Repl.constructor` | cmd/cli/main.go:200 | The loop starts with the given query type |
| `Cli.Repl.HandleCommand` | cmd/cli/main.go:263-322 | Returns the command's action. A mode command sets the current type to its mode; every other command leaves it unchanged |

## Left out

- Network and process I/O is not part of this model: the HTTP calls to Ollama and Groq
  (`generate`, `groq.go`), connecting to databases, `ExecuteQuery`, `Explain`, the HTTP
  server, static files and JSON encoding. Only their inputs and outputs are modelled.
- Timing is not modelled: `AIResponseTime` and `ExecuteTime` are measured durations, left 0.
- `sql.Rows` scanning is not modelled. Each query's answer is a parameter: a `Result` of a
  list of rows. A per-row `Scan` error is folded into that `Result`.
- The CLI's I/O is left out: flag parsing, `main`, `loadSchema`, `runInteractive`,
  `runSingle`, `printSchema` and all printing.
- `Cli.Repl.HandleCommand` calls neither `Optimize` nor `Explain` and prints nothing; it only
  returns the `Action` the command chose.
- `internal/query/generator.go`, `internal/ai/provider.go` and `internal/db/connector.go` are
  pass-through wrappers and factories over the modelled functions and I/O. They are not part
  of this model, and neither is the assembly of `GenerateQuery`, `OptimizeQuery` and
  `ValidateQuery` around the prompt builders and parsers.
- `ParseJSON` and `ToJSON` are JSON (un)marshalling and are left out.
- `Introspection.ListIndexes`: Go's randomised map order is modelled as an arbitrary choice.
  Its contract states only that the result is some listing of the map, because the order is
  unspecified.
- `Introspection.ExtractSchema` reads each table's getters as values (`MapRows`,
  `IndexMapOf`). The row loops are the separate methods `ReadRows` and `FoldIndexes`, proved
  equal to those values. The `*models.Index` pointer sharing inside `indexMap` is a plain
  map update.
- MySqlRows and OracleRows convert index rows to the shared row type before the fold, where
  the Go code reads the flag inline.
- The general regular-expression engine is left out. The parser's fixed patterns are written
  out as scanners over ASCII classes (`\s`, `\w`, `[^)]`). The `(?i)` keyword scanners and
  `EqualFold` also accept the two non-ASCII simple folds of ASCII letters: U+212A KELVIN SIGN
  for `k` and U+017F LATIN SMALL LETTER LONG S for `s`.
- Case folding covers only Go's simple case mapping of the characters that map to or from
  ASCII letters.
- Invalid UTF-8 is not represented: strings are sequences of code points.
- nil and empty slices are not told apart, since the difference only shows in JSON output.
- `fmt.Sscanf("%d")` is modelled for an optional sign and decimal digits. Out of the 64-bit
  range, the score reads as 0 (rejected).
- `formatSchema` and `GenerateDDL` are split into helper methods, one per inner loop. The
  concatenation order is unchanged.
