/** The prompts read back: the response formats the prompts of internal/ai/ollama.go ask
    for, filled with their own placeholders, read through the response parsers. */
module PromptReadBack {
  import opened Wrappers
  import opened GoStrings
  import opened Models
  import opened IssueFormat
  import opened AiPrompt
  import opened AiResponse

  /** The query prompt ends with its response format, and `parseQueryResponse` reads that
      format back as its placeholders: each of the three headers opens its section. */
  lemma QueryPromptFormat(req: QueryRequest)
    ensures HasSuffix(BuildQueryPrompt(req), ResponseSection(QueryPlaceholder, ExplanationPlaceholder))
    ensures QueryAnswer(ResponseFormat(QueryPlaceholder, ExplanationPlaceholder)) == (QueryPlaceholder, ExplanationPlaceholder, [FirstTip, SecondTip])
  {
    SuffixOfAppend(QueryPromptBody(req), ResponseSection(QueryPlaceholder, ExplanationPlaceholder));
    QueryFormatRead();
  }

  lemma QueryFormatRead()
    ensures QueryAnswer(ResponseFormat(QueryPlaceholder, ExplanationPlaceholder)) == (QueryPlaceholder, ExplanationPlaceholder, [FirstTip, SecondTip])
  {
    BracketedPlaceholder("쿼리");
    BracketedPlaceholder("간단한 설명");
    ResponseFormatRead(QueryPlaceholder, ExplanationPlaceholder);
  }

  /** The optimize prompt ends with the same response format, with its own placeholders. */
  lemma OptimizePromptFormat(query: string, schema: Schema)
    ensures HasSuffix(BuildOptimizePrompt(query, schema), ResponseSection(OptimizedPlaceholder, ChangesPlaceholder))
    ensures QueryAnswer(ResponseFormat(OptimizedPlaceholder, ChangesPlaceholder))
         == (OptimizedPlaceholder, ChangesPlaceholder, [FirstTip, SecondTip])
  {
    SuffixOfAppend(OptimizePromptIntro + query + QuerySchemaHeading + SchemaText(schema),
      ResponseSection(OptimizedPlaceholder, ChangesPlaceholder));
    OptimizeFormatRead();
  }

  lemma OptimizeFormatRead()
    ensures QueryAnswer(ResponseFormat(OptimizedPlaceholder, ChangesPlaceholder))
         == (OptimizedPlaceholder, ChangesPlaceholder, [FirstTip, SecondTip])
  {
    BracketedPlaceholder("최적화된 쿼리");
    BracketedPlaceholder("변경 사항 설명");
    ResponseFormatRead(OptimizedPlaceholder, ChangesPlaceholder);
  }

  lemma SuffixOfAppend(a: string, b: string)
    ensures HasSuffix(a + b, b)
  {
    assert (a + b)[|a|..] == b;
  }

  /** A reply that fills the response format with placeholders is read as those placeholders. */
  lemma ResponseFormatRead(query: string, explanation: string)
    requires Placeholder(query) && Placeholder(explanation)
    ensures QueryAnswer(ResponseFormat(query, explanation)) == (query, explanation, [FirstTip, SecondTip])
  {
    FormatSplits(query, explanation);
    FormatRun(query, explanation);
    CleanPlaceholder(query);
  }

  lemma FormatSplits(query: string, explanation: string)
    requires Placeholder(query) && Placeholder(explanation)
    ensures Split(ResponseFormat(query, explanation), '\n') == ResponseFormatLines(query, explanation)
  {
    var lines := ResponseFormatLines(query, explanation);
    assert NoNewlines(lines);
    SplitJoin(lines, '\n');
  }

  lemma FormatRun(query: string, explanation: string)
    requires Placeholder(query) && Placeholder(explanation)
    ensures QueryRun(ResponseFormatLines(query, explanation)) == QueryState(TipsPart, [query], [explanation], [FirstTip, SecondTip])
  {
    assert Trimmed("SQL:") && Trimmed("설명:") && Trimmed("최적화 팁:");
    BracketedPlaceholder("팁1");
    BracketedPlaceholder("팁2");
    FormatLinesRun(ResponseFormatLines(query, explanation), query, explanation, FirstTip, SecondTip);
  }

  /** The run over a reply shaped like the response format: a header line, then its
      placeholder, for each section. */
  lemma FormatLinesRun(lines: seq<string>, query: string, explanation: string, tip1: string, tip2: string)
    requires |lines| == 9 && lines[2] == "" && lines[5] == ""
    requires Trimmed(lines[0]) && QueryHeader(lines[0]) == Some(SqlPart)
    requires Trimmed(lines[3]) && QueryHeader(lines[3]) == Some(ExplainPart)
    requires Trimmed(lines[6]) && QueryHeader(lines[6]) == Some(TipsPart)
    requires Placeholder(query) && Placeholder(explanation) && Placeholder(tip1) && Placeholder(tip2)
    requires lines[1] == query && lines[4] == explanation && lines[7] == "- " + tip1 && lines[8] == "- " + tip2
    ensures QueryRun(lines) == QueryState(TipsPart, [query], [explanation], [tip1, tip2])
  {
    var st0 := QueryState(Preamble, [], [], []);
    assert QueryRun(lines[..0]) == st0 by {
      assert lines[..0] == [];
    }
    SectionRun(lines, 0, st0, SqlPart);
    var st2 := st0.(section := SqlPart, queryLines := [query]);
    SectionRun(lines, 3, st2, ExplainPart);
    var st4 := st2.(section := ExplainPart, explainLines := [explanation]);
    HeaderAt(lines, 6, st4, TipsPart);
    TipsRun(lines, st4.(section := TipsPart), tip1, tip2);
    assert lines[..9] == lines;
  }

  /** A header line, its placeholder and a blank line. */
  lemma SectionRun(lines: seq<string>, i: nat, st: QueryState, section: QuerySection)
    requires i + 3 <= |lines| && QueryRun(lines[..i]) == st && section in {SqlPart, ExplainPart}
    requires Trimmed(lines[i]) && QueryHeader(lines[i]) == Some(section)
    requires Placeholder(lines[i + 1]) && lines[i + 2] == ""
    ensures QueryRun(lines[..i + 3]) == if section == SqlPart then st.(section := section, queryLines := st.queryLines + [lines[i + 1]])
                                        else st.(section := section, explainLines := st.explainLines + [lines[i + 1]])
  {
    HeaderAt(lines, i, st, section);
    PlaceholderAt(lines, i + 1, st.(section := section));
    var after := if section == SqlPart then st.(section := section, queryLines := st.queryLines + [lines[i + 1]])
                 else st.(section := section, explainLines := st.explainLines + [lines[i + 1]]);
    BlankAt(lines, i + 2, after);
  }

  /** The two tip lines that end the response format. */
  lemma TipsRun(lines: seq<string>, st: QueryState, tip1: string, tip2: string)
    requires |lines| == 9 && QueryRun(lines[..7]) == st && st.section == TipsPart
    requires Placeholder(tip1) && Placeholder(tip2) && lines[7] == "- " + tip1 && lines[8] == "- " + tip2
    ensures QueryRun(lines[..9]) == st.(tips := st.tips + [tip1, tip2])
  {
    TipAt(lines, 7, st, tip1);
    TipAt(lines, 8, st.(tips := st.tips + [tip1]), tip2);
    assert st.tips + [tip1] + [tip2] == st.tips + [tip1, tip2];
  }

  lemma HeaderAt(lines: seq<string>, i: nat, st: QueryState, section: QuerySection)
    requires i < |lines| && QueryRun(lines[..i]) == st
    requires Trimmed(lines[i]) && QueryHeader(lines[i]) == Some(section)
    ensures QueryRun(lines[..i + 1]) == st.(section := section)
  {
    QueryRunStep(lines, i);
    TrimmedFixed(lines[i]);
  }

  lemma PlaceholderAt(lines: seq<string>, i: nat, st: QueryState)
    requires i < |lines| && QueryRun(lines[..i]) == st
    requires Placeholder(lines[i]) && (st.section == SqlPart || st.section == ExplainPart)
    ensures QueryRun(lines[..i + 1]) == if st.section == SqlPart then st.(queryLines := st.queryLines + [lines[i]])
                                        else st.(explainLines := st.explainLines + [lines[i]])
  {
    QueryRunStep(lines, i);
    PlaceholderFacts(lines[i]);
    KeptStep(st, lines[i]);
  }

  lemma PlaceholderFacts(text: string)
    requires Placeholder(text)
    ensures TrimSpace(text) == text && QueryHeader(text) == None && KeepsQueryLine(text) && KeepsExplainLine(text)
  {
    TrimmedFixed(text);
    assert !HasPrefix(text, "SQL:") && !HasPrefix(text, "설명:") && !HasPrefix(text, "최적화 팁:") by {
      assert text[0] == '(';
    }
    assert !IsFenceLine(text) by {
      assert text[0] == '(';
    }
  }

  lemma KeptStep(st: QueryState, line: string)
    requires QueryHeader(TrimSpace(line)) == None && KeepsQueryLine(line) && KeepsExplainLine(line) && TrimSpace(line) == line
    requires st.section == SqlPart || st.section == ExplainPart
    ensures QueryStep(st, line) == if st.section == SqlPart then st.(queryLines := st.queryLines + [line])
                                   else st.(explainLines := st.explainLines + [line])
  {
  }

  lemma BlankAt(lines: seq<string>, i: nat, st: QueryState)
    requires i < |lines| && QueryRun(lines[..i]) == st && lines[i] == ""
    ensures QueryRun(lines[..i + 1]) == st
  {
    QueryRunStep(lines, i);
    TrimmedFixed("");
  }

  lemma TipAt(lines: seq<string>, i: nat, st: QueryState, tip: string)
    requires i < |lines| && QueryRun(lines[..i]) == st
    requires Placeholder(tip) && st.section == TipsPart && lines[i] == "- " + tip
    ensures QueryRun(lines[..i + 1]) == st.(tips := st.tips + [tip])
  {
    QueryRunStep(lines, i);
    TipFacts(tip);
    TipStep(st, lines[i]);
  }

  lemma TipFacts(tip: string)
    requires Placeholder(tip)
    ensures QueryHeader(TrimSpace("- " + tip)) == None && KeepsTipLine("- " + tip) && TipOf("- " + tip) == tip
  {
    TipLineTrimmed(tip);
    TipLineNoHeader(tip);
    TipLineText(tip);
  }

  lemma TipLineTrimmed(tip: string)
    requires Placeholder(tip)
    ensures TrimSpace("- " + tip) == "- " + tip
  {
    assert Trimmed("- " + tip);
    TrimmedFixed("- " + tip);
  }

  lemma TipLineNoHeader(tip: string)
    requires Placeholder(tip)
    ensures QueryHeader("- " + tip) == None && IsBullet("- " + tip)
  {
    assert ("- " + tip)[0] == '-';
  }

  lemma TipLineText(tip: string)
    requires Placeholder(tip)
    ensures BulletText("- " + tip) == tip
  {
    var line := "- " + tip;
    assert TrimPrefix(TrimPrefix(line, "-"), "•") == " " + tip by {
      assert HasPrefix(line, "-") && TrimPrefix(line, "-") == " " + tip;
      assert !HasPrefix(" " + tip, "•");
    }
    TrimSpacePadded(" ", tip, "");
    assert " " + tip + "" == " " + tip;
  }

  lemma TipStep(st: QueryState, line: string)
    requires QueryHeader(TrimSpace(line)) == None && KeepsTipLine(line) && st.section == TipsPart
    ensures QueryStep(st, line) == st.(tips := st.tips + [TipOf(line)])
  {
  }

  lemma CleanPlaceholder(text: string)
    requires Placeholder(text)
    ensures CleanQuery(Join([text], "\n")) == text
  {
    TrimmedFixed(text);
    assert !HasPrefix(text, SqlFence) && !HasPrefix(text, Fence) && !HasSuffix(text, Fence) by {
      assert text[0] == '(' && text[|text| - 1] == ')';
    }
  }

  // ---------------------------------------------------------------------------------------
  // The validation format read back

  /** What `parseIssue` makes of a problem line of the format: the type and the message, with
      the location and the suggestion still carrying their labels. */
  function PlaceholderIssue(issueType: string): Issue {
    LabelledIssue(issueType, MessagePlaceholder, LocationPlaceholder, FixPlaceholder)
  }

  function LabelledIssue(issueType: string, message: string, location: string, suggestion: string): Issue {
    Issue(issueType, message, LocationLabel + " " + location, SuggestionLabel + " " + suggestion)
  }

  /** The validation prompt ends with its response format, and `parseValidationResponse`
      reads a reply that repeats the format as follows. It is valid, because the validity
      placeholder holds `true`. The score stays 50, because the score placeholder scans to 0,
      which is rejected. It has the three problem lines, with their labels kept, both index
      placeholders, both suggestion placeholders, and the plan and time placeholders. It has
      no optimized query of its own, because that placeholder holds the "original is optimal"
      remark. */
  lemma ValidatePromptFormat(query: string, schema: Schema)
    ensures HasSuffix(BuildValidatePrompt(query, schema), ValidationFormat() + "\n")
    ensures ValidationOf(ValidationFormat(), query)
         == QueryValidation(true, 50, query, FinalOptimized(query, query),
              [PlaceholderIssue("error"), PlaceholderIssue("warning"), PlaceholderIssue("info")],
              [FirstSuggestionPlaceholder, SecondSuggestionPlaceholder],
              [FirstIndexPlaceholder, SecondIndexPlaceholder],
              PlanPlaceholder, TimePlaceholder, 0)
  {
    SuffixOfAppend(ValidatePromptIntro + query + ValidateSchemaHeading + SchemaText(schema) + ValidateItems,
      ValidationFormat() + "\n");
    ValidationFormatRead(query);
  }

  lemma ValidationFormatRead(query: string)
    ensures ValidationOf(ValidationFormat(), query)
         == QueryValidation(true, 50, query, FinalOptimized(query, query),
              [PlaceholderIssue("error"), PlaceholderIssue("warning"), PlaceholderIssue("info")],
              [FirstSuggestionPlaceholder, SecondSuggestionPlaceholder],
              [FirstIndexPlaceholder, SecondIndexPlaceholder],
              PlanPlaceholder, TimePlaceholder, 0)
  {
    ValidationFormatSplits();
    ValidationFormatRun(query);
  }

  lemma ValidationFormatSplits()
    ensures Split(ValidationFormat(), '\n') == ValidationFormatLines()
  {
    var lines := ValidationFormatLines();
    ScalarPlaceholders();
    IssuePlaceholders();
    IndexPlaceholders();
    BetterQueryPlaceholderFacts();
    PlanPlaceholders();
    SuggestionPlaceholders();
    ValidationFormatText();
    ValidationTextFree(lines, ValidityPlaceholder, ScorePlaceholder,
      MessagePlaceholder, LocationPlaceholder, FixPlaceholder, FirstIndexPlaceholder, SecondIndexPlaceholder,
      BetterQueryPlaceholder, PlanPlaceholder, TimePlaceholder, FirstSuggestionPlaceholder, SecondSuggestionPlaceholder);
    SplitJoin(lines, '\n');
  }

  /** The facts the run needs about the placeholders of the validation format. */
  lemma ScalarPlaceholders()
    ensures Placeholder(ValidityPlaceholder) && Placeholder(ScorePlaceholder)
    ensures ValidityOf(ValidityPlaceholder)
  {
    BracketedPlaceholder("true 또는 false");
    BracketedPlaceholder("0-100 숫자만");
    var lower := ToLower(ValidityPlaceholder);
    assert lower[1..5] == "true";
    ContainsAt(lower, "true", 1);
  }

  lemma IssuePlaceholders()
    ensures Placeholder(MessagePlaceholder) && '|' !in MessagePlaceholder && '[' !in MessagePlaceholder
    ensures Placeholder(LocationPlaceholder) && '|' !in LocationPlaceholder && '[' !in LocationPlaceholder
    ensures Placeholder(FixPlaceholder) && '|' !in FixPlaceholder && '[' !in FixPlaceholder
  {
    BracketedPlaceholder("문제 설명");
    BracketedPlaceholder("위치");
    BracketedPlaceholder("해결방안");
  }

  lemma IndexPlaceholders()
    ensures Placeholder(FirstIndexPlaceholder) && Placeholder(SecondIndexPlaceholder)
  {
    BracketedPlaceholder("사용 가능한 인덱스1");
    BracketedPlaceholder("사용 가능한 인덱스2");
  }

  lemma BetterQueryPlaceholderFacts()
    ensures Placeholder(BetterQueryPlaceholder) && Contains(BetterQueryPlaceholder, "원본 쿼리가 최적")
  {
    BracketedPlaceholder("더 나은 쿼리가 있으면 작성, 없으면 \"원본 쿼리가 최적입니다\"");
    assert BetterQueryPlaceholder[23..32] == "원본 쿼리가 최적";
    ContainsAt(BetterQueryPlaceholder, "원본 쿼리가 최적", 23);
  }

  lemma PlanPlaceholders()
    ensures Placeholder(PlanPlaceholder) && Placeholder(TimePlaceholder)
  {
    BracketedPlaceholder("예상 실행 계획 설명");
    BracketedPlaceholder("빠름/보통/느림");
  }

  lemma SuggestionPlaceholders()
    ensures Placeholder(FirstSuggestionPlaceholder) && Placeholder(SecondSuggestionPlaceholder)
  {
    BracketedPlaceholder("제안1");
    BracketedPlaceholder("제안2");
  }

  /** The run over the format's lines: the format filled with its own placeholders. */
  lemma ValidationFormatRun(query: string)
    ensures ValidationRun(ValidationFormatLines(), query)
         == ValidationState(SuggestionsPart, InitialValidation(query).(
              issues := [PlaceholderIssue("error"), PlaceholderIssue("warning"), PlaceholderIssue("info")],
              suggestions := [FirstSuggestionPlaceholder, SecondSuggestionPlaceholder],
              indexUsage := [FirstIndexPlaceholder, SecondIndexPlaceholder],
              executionPlan := PlanPlaceholder,
              estimatedTime := TimePlaceholder))
  {
    var lines := ValidationFormatLines();
    ScalarPlaceholders();
    IssuePlaceholders();
    IndexPlaceholders();
    BetterQueryPlaceholderFacts();
    PlanPlaceholders();
    SuggestionPlaceholders();
    ValidationFormatText();
    assert ValidationRun(lines[..0], query) == ValidationState(NoList, InitialValidation(query)) by {
      assert lines[..0] == [];
    }
    ValidationTextRun(lines, 0, query, ValidityPlaceholder, ScorePlaceholder,
      MessagePlaceholder, LocationPlaceholder, FixPlaceholder, FirstIndexPlaceholder, SecondIndexPlaceholder,
      BetterQueryPlaceholder, PlanPlaceholder, TimePlaceholder, FirstSuggestionPlaceholder, SecondSuggestionPlaceholder);
    assert lines[..23] == lines;
  }

  /** The text of the format's lines, placeholder by placeholder. */
  lemma FormatFrontText()
    ensures ValidationFormatLines()[0] == "유효성: " + ValidityPlaceholder
    ensures ValidationFormatLines()[1] == "점수: " + ScorePlaceholder
    ensures ValidationFormatLines()[2] == "" && ValidationFormatLines()[3] == "문제점:"
    ensures ValidationFormatLines()[7] == "" && ValidationFormatLines()[8] == "인덱스 활용:"
    ensures ValidationFormatLines()[9] == "- " + FirstIndexPlaceholder
    ensures ValidationFormatLines()[10] == "- " + SecondIndexPlaceholder
    ensures ValidationFormatLines()[11] == ""
  {
  }

  lemma FormatIssueText()
    ensures ValidationFormatLines()[4] == IssueLine("error", MessagePlaceholder, LocationPlaceholder, FixPlaceholder)
    ensures ValidationFormatLines()[5] == IssueLine("warning", MessagePlaceholder, LocationPlaceholder, FixPlaceholder)
    ensures ValidationFormatLines()[6] == IssueLine("info", MessagePlaceholder, LocationPlaceholder, FixPlaceholder)
  {
  }

  lemma FormatBackText()
    ensures |ValidationFormatLines()| == 23
    ensures ValidationFormatLines()[12] == "최적화된 쿼리:" && ValidationFormatLines()[13] == BetterQueryPlaceholder
    ensures ValidationFormatLines()[14] == "" && ValidationFormatLines()[15] == "실행 계획:"
    ensures ValidationFormatLines()[16] == PlanPlaceholder && ValidationFormatLines()[17] == ""
    ensures ValidationFormatLines()[18] == "예상 시간: " + TimePlaceholder && ValidationFormatLines()[19] == ""
    ensures ValidationFormatLines()[20] == "개선 제안:"
    ensures ValidationFormatLines()[21] == "- " + FirstSuggestionPlaceholder
    ensures ValidationFormatLines()[22] == "- " + SecondSuggestionPlaceholder
  {
  }

  /** Lines `b` to `b + 22` hold the validation format's text with the given placeholders. */
  predicate ValidationText(lines: seq<string>, b: nat, validity: string, score: string,
                           message: string, location: string, fix: string, index1: string, index2: string,
                           better: string, plan: string, time: string, suggestion1: string, suggestion2: string)
  {
    b + 23 <= |lines|
    && lines[b] == "유효성: " + validity && lines[b + 1] == "점수: " + score
    && lines[b + 2] == "" && lines[b + 3] == "문제점:"
    && lines[b + 4] == IssueLine("error", message, location, fix)
    && lines[b + 5] == IssueLine("warning", message, location, fix)
    && lines[b + 6] == IssueLine("info", message, location, fix)
    && lines[b + 7] == "" && lines[b + 8] == "인덱스 활용:"
    && lines[b + 9] == "- " + index1 && lines[b + 10] == "- " + index2 && lines[b + 11] == ""
    && lines[b + 12] == "최적화된 쿼리:" && lines[b + 13] == better && lines[b + 14] == ""
    && lines[b + 15] == "실행 계획:" && lines[b + 16] == plan && lines[b + 17] == ""
    && lines[b + 18] == "예상 시간: " + time && lines[b + 19] == ""
    && lines[b + 20] == "개선 제안:" && lines[b + 21] == "- " + suggestion1 && lines[b + 22] == "- " + suggestion2
  }

  /** The format's own lines are its text with its own placeholders. */
  lemma ValidationFormatText()
    ensures ValidationText(ValidationFormatLines(), 0, ValidityPlaceholder, ScorePlaceholder,
              MessagePlaceholder, LocationPlaceholder, FixPlaceholder, FirstIndexPlaceholder, SecondIndexPlaceholder,
              BetterQueryPlaceholder, PlanPlaceholder, TimePlaceholder, FirstSuggestionPlaceholder, SecondSuggestionPlaceholder)
  {
    FormatFrontText();
    FormatIssueText();
    FormatBackText();
  }

  /** No line of the format's text breaks, when no placeholder does. */
  lemma ValidationTextFree(lines: seq<string>, validity: string, score: string,
                           message: string, location: string, fix: string, index1: string, index2: string,
                           better: string, plan: string, time: string, suggestion1: string, suggestion2: string)
    requires ValidationText(lines, 0, validity, score, message, location, fix, index1, index2,
                            better, plan, time, suggestion1, suggestion2) && |lines| == 23
    requires Placeholder(validity) && Placeholder(score)
    requires Placeholder(message) && Placeholder(location) && Placeholder(fix)
    requires Placeholder(index1) && Placeholder(index2) && Placeholder(better)
    requires Placeholder(plan) && Placeholder(time) && Placeholder(suggestion1) && Placeholder(suggestion2)
    ensures NoNewlines(lines)
  {
    IssueLineFree("error", message, location, fix);
    IssueLineFree("warning", message, location, fix);
    IssueLineFree("info", message, location, fix);
  }

  lemma IssueLineFree(issueType: string, message: string, location: string, fix: string)
    requires '\n' !in issueType && '\n' !in message && '\n' !in location && '\n' !in fix
    ensures '\n' !in IssueLine(issueType, message, location, fix)
  {
  }

  /** The run over twenty-three lines, from line `b` on, that hold the validation format's
      text with any placeholders of the same shape, starting from the state before any line. */
  lemma ValidationTextRun(lines: seq<string>, b: nat, query: string, validity: string, score: string,
                          message: string, location: string, fix: string, index1: string, index2: string,
                          better: string, plan: string, time: string, suggestion1: string, suggestion2: string)
    requires ValidationText(lines, b, validity, score, message, location, fix, index1, index2,
                            better, plan, time, suggestion1, suggestion2)
    requires ValidationRun(lines[..b], query) == ValidationState(NoList, InitialValidation(query))
    requires Placeholder(validity) && ValidityOf(validity) && Placeholder(score)
    requires Placeholder(message) && '|' !in message && '[' !in message
    requires Placeholder(location) && '|' !in location && '[' !in location
    requires Placeholder(fix) && '|' !in fix && '[' !in fix
    requires Placeholder(index1) && Placeholder(index2)
    requires Placeholder(better) && Contains(better, "원본 쿼리가 최적")
    requires Placeholder(plan) && Placeholder(time) && Placeholder(suggestion1) && Placeholder(suggestion2)
    ensures ValidationRun(lines[..b + 23], query)
         == ValidationState(SuggestionsPart, InitialValidation(query).(
              issues := [LabelledIssue("error", message, location, fix),
                         LabelledIssue("warning", message, location, fix),
                         LabelledIssue("info", message, location, fix)],
              suggestions := [suggestion1, suggestion2],
              indexUsage := [index1, index2],
              executionPlan := plan,
              estimatedTime := time))
  {
    FrontText(lines, b, validity, score, message, location, fix, index1, index2);
    BackText(lines, b, better, plan, time, suggestion1, suggestion2);
    ValidationLinesRun(lines, b, query, validity, score,
      LabelledIssue("error", message, location, fix), LabelledIssue("warning", message, location, fix),
      LabelledIssue("info", message, location, fix), index1, index2, plan, time, suggestion1, suggestion2);
  }

  /** How the loop reads the first twelve lines of the format's text. */
  lemma FrontText(lines: seq<string>, b: nat, validity: string, score: string,
                  message: string, location: string, fix: string, index1: string, index2: string)
    requires b + 12 <= |lines|
    requires Placeholder(validity) && Placeholder(score)
    requires Placeholder(message) && '|' !in message && '[' !in message
    requires Placeholder(location) && '|' !in location && '[' !in location
    requires Placeholder(fix) && '|' !in fix && '[' !in fix
    requires Placeholder(index1) && Placeholder(index2)
    requires lines[b] == "유효성: " + validity && lines[b + 1] == "점수: " + score && lines[b + 3] == "문제점:"
    requires lines[b + 4] == IssueLine("error", message, location, fix)
    requires lines[b + 5] == IssueLine("warning", message, location, fix)
    requires lines[b + 6] == IssueLine("info", message, location, fix)
    requires lines[b + 8] == "인덱스 활용:" && lines[b + 9] == "- " + index1 && lines[b + 10] == "- " + index2
    ensures ReadsAs(lines[b], ValidityLine(validity))
    ensures ReadsAs(lines[b + 1], ScoreLine(score)) && ScoreOf(score) == None
    ensures ReadsAs(lines[b + 3], OpensSection(IssuesPart))
    ensures IssueBody(lines[b + 4], LabelledIssue("error", message, location, fix))
    ensures IssueBody(lines[b + 5], LabelledIssue("warning", message, location, fix))
    ensures IssueBody(lines[b + 6], LabelledIssue("info", message, location, fix))
    ensures ReadsAs(lines[b + 8], OpensSection(IndexesPart))
    ensures IndexBody(lines[b + 9], index1) && IndexBody(lines[b + 10], index2)
  {
    ValidityLineKind(validity);
    ScoreLineKind(score);
    IssuesHeaderLine();
    IssueLineFacts("error", message, location, fix);
    IssueLineFacts("warning", message, location, fix);
    IssueLineFacts("info", message, location, fix);
    IndexesHeaderLine();
    BulletKind(index1);
    BulletKind(index2);
  }

  /** How the loop reads the last eleven lines of the format's text. */
  lemma BackText(lines: seq<string>, b: nat, better: string, plan: string, time: string,
                 suggestion1: string, suggestion2: string)
    requires b + 23 <= |lines|
    requires Placeholder(better) && Contains(better, "원본 쿼리가 최적")
    requires Placeholder(plan) && Placeholder(time) && Placeholder(suggestion1) && Placeholder(suggestion2)
    requires lines[b + 12] == "최적화된 쿼리:" && lines[b + 13] == better
    requires lines[b + 15] == "실행 계획:" && lines[b + 16] == plan && lines[b + 18] == "예상 시간: " + time
    requires lines[b + 20] == "개선 제안:" && lines[b + 21] == "- " + suggestion1 && lines[b + 22] == "- " + suggestion2
    ensures ReadsAs(lines[b + 12], OpensSection(OptimizedPart)) && SkippedBody(lines[b + 13])
    ensures ReadsAs(lines[b + 15], OpensSection(PlanPart)) && PlanBody(lines[b + 16], plan)
    ensures ReadsAs(lines[b + 18], TimeLine(time))
    ensures ReadsAs(lines[b + 20], OpensSection(SuggestionsPart))
    ensures SuggestionBody(lines[b + 21], suggestion1) && SuggestionBody(lines[b + 22], suggestion2)
  {
    OptimizedHeaderLine();
    SkippedKind(better);
    PlanHeaderLine();
    PlaceholderKind(plan);
    TimeLineKind(time);
    SuggestionsHeaderLine();
    BulletKind(suggestion1);
    BulletKind(suggestion2);
  }

  // How the loop reads a line, as facts about the line alone

  /** The kind `ClassifyLine` gives the trimmed line. */
  predicate ReadsAs(line: string, kind: ValidationLine) {
    ClassifyLine(TrimSpace(line)) == kind
  }

  /** A body line the problem section takes as `issue`. */
  predicate IssueBody(line: string, issue: Issue) {
    ReadsAs(line, BodyLine) && IssueItem(line) == Some(issue)
  }

  /** A body line the index-usage section takes as `item`. */
  predicate IndexBody(line: string, item: string) {
    ReadsAs(line, BodyLine) && IndexItem(line) == Some(item)
  }

  /** A body line the suggestion section takes as `item`. */
  predicate SuggestionBody(line: string, item: string) {
    ReadsAs(line, BodyLine) && SuggestionItem(line) == Some(item)
  }

  /** A body line the plan section takes as `text`. */
  predicate PlanBody(line: string, text: string) {
    ReadsAs(line, BodyLine) && PlanItem(line) == Some(text)
  }

  /** A body line the optimized-query section skips. */
  predicate SkippedBody(line: string) {
    ReadsAs(line, BodyLine) && OptimizedItem(line) == None
  }

  /** The run over twenty-three lines, from line `b` on, that read as the validation
      format's do, starting from the state before any line: six runs of four or three lines. */
  lemma ValidationLinesRun(lines: seq<string>, b: nat, query: string, validity: string, score: string,
                           e: Issue, w: Issue, n: Issue, index1: string, index2: string,
                           plan: string, time: string, suggestion1: string, suggestion2: string)
    requires b + 23 <= |lines| && ValidationRun(lines[..b], query) == ValidationState(NoList, InitialValidation(query))
    requires ReadsAs(lines[b], ValidityLine(validity)) && ValidityOf(validity)
    requires ReadsAs(lines[b + 1], ScoreLine(score)) && ScoreOf(score) == None
    requires lines[b + 2] == "" && ReadsAs(lines[b + 3], OpensSection(IssuesPart))
    requires IssueBody(lines[b + 4], e) && IssueBody(lines[b + 5], w) && IssueBody(lines[b + 6], n) && lines[b + 7] == ""
    requires ReadsAs(lines[b + 8], OpensSection(IndexesPart))
    requires IndexBody(lines[b + 9], index1) && IndexBody(lines[b + 10], index2) && lines[b + 11] == ""
    requires ReadsAs(lines[b + 12], OpensSection(OptimizedPart)) && SkippedBody(lines[b + 13]) && lines[b + 14] == ""
    requires ReadsAs(lines[b + 15], OpensSection(PlanPart)) && PlanBody(lines[b + 16], plan) && lines[b + 17] == ""
    requires ReadsAs(lines[b + 18], TimeLine(time)) && lines[b + 19] == ""
    requires ReadsAs(lines[b + 20], OpensSection(SuggestionsPart))
    requires SuggestionBody(lines[b + 21], suggestion1) && SuggestionBody(lines[b + 22], suggestion2)
    ensures ValidationRun(lines[..b + 23], query)
         == ValidationState(SuggestionsPart, InitialValidation(query).(
              issues := [e, w, n],
              suggestions := [suggestion1, suggestion2],
              indexUsage := [index1, index2],
              executionPlan := plan,
              estimatedTime := time))
  {
    var s0 := ValidationState(NoList, InitialValidation(query));
    ScalarsRun(lines, b, query, s0, validity, score);
    var s4 := s0.(section := IssuesPart);
    IssuesRun(lines, b + 4, query, s4, e, w, n);
    var s8 := WithIssue(WithIssue(WithIssue(s4, e), w), n);
    IndexesRun(lines, b + 8, query, s8, index1, index2);
    var s12 := WithIndex(WithIndex(s8.(section := IndexesPart), index1), index2);
    OptimizedRun(lines, b + 12, query, s12);
    var s16 := s12.(section := OptimizedPart).(section := PlanPart);
    PlanRun(lines, b + 16, query, s16, plan, time);
    var s20 := WithTime(WithPlan(s16, plan), time);
    SuggestionsRun(lines, b + 20, query, s20, suggestion1, suggestion2);
    FormatState(query, e, w, n, index1, index2, plan, time, suggestion1, suggestion2);
  }

  /** The state the six runs leave, written out. */
  lemma FormatState(query: string, e: Issue, w: Issue, n: Issue, index1: string, index2: string,
                    plan: string, time: string, suggestion1: string, suggestion2: string)
    ensures var s8 := WithIssue(WithIssue(WithIssue(ValidationState(IssuesPart, InitialValidation(query)), e), w), n);
      var s16 := WithIndex(WithIndex(s8.(section := IndexesPart), index1), index2).(section := OptimizedPart).(section := PlanPart);
      WithSuggestion(WithSuggestion(WithTime(WithPlan(s16, plan), time).(section := SuggestionsPart), suggestion1), suggestion2)
      == ValidationState(SuggestionsPart, InitialValidation(query).(
           issues := [e, w, n],
           suggestions := [suggestion1, suggestion2],
           indexUsage := [index1, index2],
           executionPlan := plan,
           estimatedTime := time))
  {
    assert [] + [e] + [w] + [n] == [e, w, n];
    assert [] + [index1] + [index2] == [index1, index2];
    assert [] + [suggestion1] + [suggestion2] == [suggestion1, suggestion2];
  }

  /** The state after a problem line, an index-usage item, a suggestion, a plan line and the
      time line. */
  function WithIssue(st: ValidationState, issue: Issue): ValidationState {
    st.(v := st.v.(issues := st.v.issues + [issue]))
  }

  function WithIndex(st: ValidationState, item: string): ValidationState {
    st.(v := st.v.(indexUsage := st.v.indexUsage + [item]))
  }

  function WithSuggestion(st: ValidationState, item: string): ValidationState {
    st.(v := st.v.(suggestions := st.v.suggestions + [item]))
  }

  function WithPlan(st: ValidationState, text: string): ValidationState {
    st.(v := st.v.(executionPlan := ExtendPlan(st.v.executionPlan, text)))
  }

  function WithTime(st: ValidationState, time: string): ValidationState {
    st.(v := st.v.(estimatedTime := time))
  }

  /** The validity and score lines, a blank line and the problem header. */
  lemma ScalarsRun(lines: seq<string>, i: nat, query: string, st: ValidationState, validity: string, score: string)
    requires i + 4 <= |lines| && ValidationRun(lines[..i], query) == st && st.v.isValid
    requires ReadsAs(lines[i], ValidityLine(validity)) && ValidityOf(validity)
    requires ReadsAs(lines[i + 1], ScoreLine(score)) && ScoreOf(score) == None
    requires lines[i + 2] == "" && ReadsAs(lines[i + 3], OpensSection(IssuesPart))
    ensures ValidationRun(lines[..i + 4], query) == st.(section := IssuesPart)
  {
    ValidityAt(st, lines[i], validity, query);
    ScoreAt(st, lines[i + 1], score, query);
    BlankStep(st, query);
    SectionAt(st, lines[i + 3], IssuesPart, query);
    RunFour(lines, i, query, st, st, st, st, st.(section := IssuesPart));
  }

  /** Three problem lines and a blank line. */
  lemma IssuesRun(lines: seq<string>, i: nat, query: string, st: ValidationState, e: Issue, w: Issue, n: Issue)
    requires i + 4 <= |lines| && ValidationRun(lines[..i], query) == st && st.section == IssuesPart
    requires IssueBody(lines[i], e) && IssueBody(lines[i + 1], w) && IssueBody(lines[i + 2], n) && lines[i + 3] == ""
    ensures ValidationRun(lines[..i + 4], query) == WithIssue(WithIssue(WithIssue(st, e), w), n)
  {
    var s1 := WithIssue(st, e);
    var s2 := WithIssue(s1, w);
    var s3 := WithIssue(s2, n);
    IssueAt(st, lines[i], e, query);
    IssueAt(s1, lines[i + 1], w, query);
    IssueAt(s2, lines[i + 2], n, query);
    BlankStep(s3, query);
    RunFour(lines, i, query, st, s1, s2, s3, s3);
  }

  /** The index-usage header, two items and a blank line. */
  lemma IndexesRun(lines: seq<string>, i: nat, query: string, st: ValidationState, first: string, second: string)
    requires i + 4 <= |lines| && ValidationRun(lines[..i], query) == st
    requires ReadsAs(lines[i], OpensSection(IndexesPart))
    requires IndexBody(lines[i + 1], first) && IndexBody(lines[i + 2], second) && lines[i + 3] == ""
    ensures ValidationRun(lines[..i + 4], query) == WithIndex(WithIndex(st.(section := IndexesPart), first), second)
  {
    var s1 := st.(section := IndexesPart);
    var s2 := WithIndex(s1, first);
    var s3 := WithIndex(s2, second);
    SectionAt(st, lines[i], IndexesPart, query);
    IndexAt(s1, lines[i + 1], first, query);
    IndexAt(s2, lines[i + 2], second, query);
    BlankStep(s3, query);
    RunFour(lines, i, query, st, s1, s2, s3, s3);
  }

  /** The optimized-query header, a skipped line, a blank line and the plan header. */
  lemma OptimizedRun(lines: seq<string>, i: nat, query: string, st: ValidationState)
    requires i + 4 <= |lines| && ValidationRun(lines[..i], query) == st
    requires ReadsAs(lines[i], OpensSection(OptimizedPart)) && SkippedBody(lines[i + 1]) && lines[i + 2] == ""
    requires ReadsAs(lines[i + 3], OpensSection(PlanPart))
    ensures ValidationRun(lines[..i + 4], query) == st.(section := OptimizedPart).(section := PlanPart)
  {
    var s1 := st.(section := OptimizedPart);
    SectionAt(st, lines[i], OptimizedPart, query);
    SkippedAt(s1, lines[i + 1], query);
    BlankStep(s1, query);
    SectionAt(s1, lines[i + 3], PlanPart, query);
    RunFour(lines, i, query, st, s1, s1, s1, s1.(section := PlanPart));
  }

  /** A plan line, a blank line, the time line and a blank line: the time line leaves the
      plan section open. */
  lemma PlanRun(lines: seq<string>, i: nat, query: string, st: ValidationState, plan: string, time: string)
    requires i + 4 <= |lines| && ValidationRun(lines[..i], query) == st && st.section == PlanPart
    requires PlanBody(lines[i], plan) && lines[i + 1] == "" && ReadsAs(lines[i + 2], TimeLine(time)) && lines[i + 3] == ""
    ensures ValidationRun(lines[..i + 4], query) == WithTime(WithPlan(st, plan), time)
  {
    var s1 := WithPlan(st, plan);
    var s3 := WithTime(s1, time);
    PlanAt(st, lines[i], plan, query);
    BlankStep(s1, query);
    TimeAt(s1, lines[i + 2], time, query);
    BlankStep(s3, query);
    RunFour(lines, i, query, st, s1, s1, s3, s3);
  }

  /** The suggestion header and two items. */
  lemma SuggestionsRun(lines: seq<string>, i: nat, query: string, st: ValidationState, first: string, second: string)
    requires i + 3 <= |lines| && ValidationRun(lines[..i], query) == st
    requires ReadsAs(lines[i], OpensSection(SuggestionsPart))
    requires SuggestionBody(lines[i + 1], first) && SuggestionBody(lines[i + 2], second)
    ensures ValidationRun(lines[..i + 3], query) == WithSuggestion(WithSuggestion(st.(section := SuggestionsPart), first), second)
  {
    var s1 := st.(section := SuggestionsPart);
    var s2 := WithSuggestion(s1, first);
    SectionAt(st, lines[i], SuggestionsPart, query);
    SuggestionAt(s1, lines[i + 1], first, query);
    SuggestionAt(s2, lines[i + 2], second, query);
    RunThree(lines, i, query, st, s1, s2, WithSuggestion(s2, second));
  }

  /** Runs of four and of three lines, each going from one given state to the next. */
  lemma RunFour(lines: seq<string>, i: nat, query: string,
                s0: ValidationState, s1: ValidationState, s2: ValidationState, s3: ValidationState, s4: ValidationState)
    requires i + 4 <= |lines| && ValidationRun(lines[..i], query) == s0
    requires ValidationStep(s0, lines[i], query) == s1 && ValidationStep(s1, lines[i + 1], query) == s2
    requires ValidationStep(s2, lines[i + 2], query) == s3 && ValidationStep(s3, lines[i + 3], query) == s4
    ensures ValidationRun(lines[..i + 4], query) == s4
  {
    ValidationRunStep(lines, i, query);
    ValidationRunStep(lines, i + 1, query);
    ValidationRunStep(lines, i + 2, query);
    ValidationRunStep(lines, i + 3, query);
  }

  lemma RunThree(lines: seq<string>, i: nat, query: string,
                 s0: ValidationState, s1: ValidationState, s2: ValidationState, s3: ValidationState)
    requires i + 3 <= |lines| && ValidationRun(lines[..i], query) == s0
    requires ValidationStep(s0, lines[i], query) == s1 && ValidationStep(s1, lines[i + 1], query) == s2
    requires ValidationStep(s2, lines[i + 2], query) == s3
    ensures ValidationRun(lines[..i + 3], query) == s3
  {
    ValidationRunStep(lines, i, query);
    ValidationRunStep(lines, i + 1, query);
    ValidationRunStep(lines, i + 2, query);
  }

  /** Each kind of line, read in a given state. */
  lemma ValidityAt(st: ValidationState, line: string, x: string, query: string)
    requires ReadsAs(line, ValidityLine(x)) && ValidityOf(x) && st.v.isValid
    ensures ValidationStep(st, line, query) == st
  {
  }

  lemma ScoreAt(st: ValidationState, line: string, x: string, query: string)
    requires ReadsAs(line, ScoreLine(x)) && ScoreOf(x) == None
    ensures ValidationStep(st, line, query) == st
  {
  }

  lemma TimeAt(st: ValidationState, line: string, x: string, query: string)
    requires ReadsAs(line, TimeLine(x))
    ensures ValidationStep(st, line, query) == st.(v := st.v.(estimatedTime := x))
  {
  }

  lemma SectionAt(st: ValidationState, line: string, section: ValidationSection, query: string)
    requires ReadsAs(line, OpensSection(section))
    ensures ValidationStep(st, line, query) == st.(section := section)
  {
  }

  lemma IssueAt(st: ValidationState, line: string, issue: Issue, query: string)
    requires st.section == IssuesPart && IssueBody(line, issue)
    ensures ValidationStep(st, line, query) == WithIssue(st, issue)
  {
    BodyAt(st, line, query);
    IssueBodyStep(st.v, line, issue, query);
  }

  lemma IndexAt(st: ValidationState, line: string, item: string, query: string)
    requires st.section == IndexesPart && IndexBody(line, item)
    ensures ValidationStep(st, line, query) == WithIndex(st, item)
  {
    BodyAt(st, line, query);
    IndexBodyStep(st.v, line, item, query);
  }

  lemma SuggestionAt(st: ValidationState, line: string, item: string, query: string)
    requires st.section == SuggestionsPart && SuggestionBody(line, item)
    ensures ValidationStep(st, line, query) == WithSuggestion(st, item)
  {
    BodyAt(st, line, query);
    SuggestionBodyStep(st.v, line, item, query);
  }

  lemma PlanAt(st: ValidationState, line: string, text: string, query: string)
    requires st.section == PlanPart && PlanBody(line, text)
    ensures ValidationStep(st, line, query) == WithPlan(st, text)
  {
    BodyAt(st, line, query);
    PlanBodyStep(st.v, line, text, query);
  }

  lemma SkippedAt(st: ValidationState, line: string, query: string)
    requires st.section == OptimizedPart && SkippedBody(line)
    ensures ValidationStep(st, line, query) == st
  {
    BodyAt(st, line, query);
    SkippedBodyStep(st.v, line, query);
  }

  /** What each list section makes of a body line it takes. */
  lemma IssueBodyStep(v: QueryValidation, line: string, issue: Issue, query: string)
    requires IssueItem(line) == Some(issue)
    ensures BodyStep(IssuesPart, v, line, query) == v.(issues := v.issues + [issue])
  {
  }

  lemma IndexBodyStep(v: QueryValidation, line: string, item: string, query: string)
    requires IndexItem(line) == Some(item)
    ensures BodyStep(IndexesPart, v, line, query) == v.(indexUsage := v.indexUsage + [item])
  {
  }

  lemma SuggestionBodyStep(v: QueryValidation, line: string, item: string, query: string)
    requires SuggestionItem(line) == Some(item)
    ensures BodyStep(SuggestionsPart, v, line, query) == v.(suggestions := v.suggestions + [item])
  {
  }

  lemma PlanBodyStep(v: QueryValidation, line: string, text: string, query: string)
    requires PlanItem(line) == Some(text)
    ensures BodyStep(PlanPart, v, line, query) == v.(executionPlan := ExtendPlan(v.executionPlan, text))
  {
  }

  lemma SkippedBodyStep(v: QueryValidation, line: string, query: string)
    requires OptimizedItem(line) == None
    ensures BodyStep(OptimizedPart, v, line, query) == v
  {
  }

  /** A body line goes to the section in force. */
  lemma BodyAt(st: ValidationState, line: string, query: string)
    requires ReadsAs(line, BodyLine)
    ensures ValidationStep(st, line, query) == st.(v := BodyStep(st.section, st.v, line, query))
  {
  }

  /** A blank line changes nothing. */
  lemma BlankStep(st: ValidationState, query: string)
    ensures ValidationStep(st, "", query) == st
  {
    TrimmedFixed("");
    assert ClassifyLine("") == BodyLine;
    BlankBody(st.section, st.v, query);
  }

  lemma BlankBody(section: ValidationSection, v: QueryValidation, query: string)
    ensures BodyStep(section, v, "", query) == v
  {
    TrimmedFixed("");
    assert v.issues + [] == v.issues && v.indexUsage + [] == v.indexUsage && v.suggestions + [] == v.suggestions;
  }

  // How the loop reads each kind of line of the format

  /** How `ClassifyLine` reads a line by the header it starts with: the headers' first
      characters differ, so the earlier tests fail on the first character. */
  lemma ValidityHeader(s: string)
    requires HasPrefix(s, "유효성:")
    ensures ClassifyLine(s) == ValidityLine(TrimSpace(TrimPrefix(s, "유효성:")))
  {
  }

  lemma ScoreHeader(s: string)
    requires HasPrefix(s, "점수:")
    ensures ClassifyLine(s) == ScoreLine(TrimSpace(TrimPrefix(s, "점수:")))
  {
    assert s[0] == '점';
  }

  lemma IssuesHeader(s: string)
    requires HasPrefix(s, "문제점:")
    ensures ClassifyLine(s) == OpensSection(IssuesPart)
  {
    assert s[0] == '문';
  }

  lemma IndexesHeader(s: string)
    requires HasPrefix(s, "인덱스 활용:")
    ensures ClassifyLine(s) == OpensSection(IndexesPart)
  {
    assert s[0] == '인';
  }

  lemma OptimizedHeader(s: string)
    requires HasPrefix(s, "최적화된 쿼리:")
    ensures ClassifyLine(s) == OpensSection(OptimizedPart)
  {
    assert s[0] == '최';
  }

  lemma PlanHeader(s: string)
    requires HasPrefix(s, "실행 계획:")
    ensures ClassifyLine(s) == OpensSection(PlanPart)
  {
    assert s[0] == '실';
  }

  lemma TimeHeader(s: string)
    requires HasPrefix(s, "예상 시간:")
    ensures ClassifyLine(s) == TimeLine(TrimSpace(TrimPrefix(s, "예상 시간:")))
  {
    assert s[0] == '예';
  }

  lemma SuggestionsHeader(s: string)
    requires HasPrefix(s, "개선 제안:")
    ensures ClassifyLine(s) == OpensSection(SuggestionsPart)
  {
    assert s[0] == '개';
  }

  /** A line starting with none of the headers' first characters is a body line. */
  lemma BodyByFirstChar(s: string)
    requires |s| > 0
    requires s[0] != '유' && s[0] != '점' && s[0] != '문' && s[0] != '인'
    requires s[0] != '최' && s[0] != '실' && s[0] != '예' && s[0] != '개'
    ensures ClassifyLine(s) == BodyLine
  {
  }

  /** Each section header of the format, alone on its line, opens its section. */
  lemma IssuesHeaderLine()
    ensures ReadsAs("문제점:", OpensSection(IssuesPart))
  {
    TrimmedFixed("문제점:");
    IssuesHeader("문제점:");
  }

  lemma IndexesHeaderLine()
    ensures ReadsAs("인덱스 활용:", OpensSection(IndexesPart))
  {
    TrimmedFixed("인덱스 활용:");
    IndexesHeader("인덱스 활용:");
  }

  lemma OptimizedHeaderLine()
    ensures ReadsAs("최적화된 쿼리:", OpensSection(OptimizedPart))
  {
    TrimmedFixed("최적화된 쿼리:");
    OptimizedHeader("최적화된 쿼리:");
  }

  lemma PlanHeaderLine()
    ensures ReadsAs("실행 계획:", OpensSection(PlanPart))
  {
    TrimmedFixed("실행 계획:");
    PlanHeader("실행 계획:");
  }

  lemma SuggestionsHeaderLine()
    ensures ReadsAs("개선 제안:", OpensSection(SuggestionsPart))
  {
    TrimmedFixed("개선 제안:");
    SuggestionsHeader("개선 제안:");
  }

  lemma ValidityLineKind(x: string)
    requires Placeholder(x)
    ensures ReadsAs("유효성: " + x, ValidityLine(x))
  {
    assert "유효성: " + x == "유효성:" + " " + x;
    LabelledLine("유효성:", x);
    ValidityHeader("유효성: " + x);
  }

  /** A score line holding a placeholder: the placeholder starts with `(`, so it scans to
      0, and 0 is not a score. */
  lemma ScoreLineKind(x: string)
    requires Placeholder(x)
    ensures ReadsAs("점수: " + x, ScoreLine(x)) && ScoreOf(x) == None
  {
    assert "점수: " + x == "점수:" + " " + x;
    LabelledLine("점수:", x);
    ScoreHeader("점수: " + x);
    PlaceholderScore(x);
  }

  lemma PlaceholderScore(x: string)
    requires Placeholder(x)
    ensures ScoreOf(x) == None
  {
    assert !HasSuffix(x, "점");
  }

  lemma TimeLineKind(x: string)
    requires Placeholder(x)
    ensures ReadsAs("예상 시간: " + x, TimeLine(x))
  {
    assert "예상 시간: " + x == "예상 시간:" + " " + x;
    LabelledLine("예상 시간:", x);
    TimeHeader("예상 시간: " + x);
  }

  /** A header, a space and a placeholder: the line is trimmed, starts with the header, and
      what follows the header trims to the placeholder. */
  lemma LabelledLine(heading: string, x: string)
    requires |heading| > 0 && !IsSpace(heading[0]) && Placeholder(x)
    ensures Trimmed(heading + " " + x) && TrimSpace(heading + " " + x) == heading + " " + x
    ensures HasPrefix(heading + " " + x, heading) && TrimPrefix(heading + " " + x, heading) == " " + x
    ensures TrimSpace(" " + x) == x
  {
    var line := heading + " " + x;
    assert line[0] == heading[0] && line[|line| - 1] == x[|x| - 1];
    TrimmedFixed(line);
    assert line[..|heading|] == heading && line[|heading|..] == " " + x;
    TrimSpacePadded(" ", x, "");
    assert " " + x + "" == " " + x;
  }

  /** A placeholder alone on its line is a trimmed body line. */
  lemma PlaceholderBody(text: string)
    requires Placeholder(text)
    ensures TrimSpace(text) == text && ClassifyLine(text) == BodyLine && text != ""
  {
    TrimmedFixed(text);
    BodyByFirstChar(text);
  }

  /** The plan section takes a placeholder line as it stands. */
  lemma PlaceholderKind(x: string)
    requires Placeholder(x)
    ensures PlanBody(x, x)
  {
    PlaceholderBody(x);
  }

  /** The optimized-query section skips a line holding the "original is optimal" remark. */
  lemma SkippedKind(x: string)
    requires Placeholder(x) && Contains(x, "원본 쿼리가 최적")
    ensures SkippedBody(x)
  {
    PlaceholderBody(x);
  }

  /** A bullet holding a placeholder is taken as the placeholder by both list sections. */
  lemma BulletKind(x: string)
    requires Placeholder(x)
    ensures IndexBody("- " + x, x) && SuggestionBody("- " + x, x)
  {
    TipLineTrimmed(x);
    BulletBody(x);
    BulletItems(x);
  }

  lemma BulletBody(x: string)
    requires Placeholder(x)
    ensures ClassifyLine("- " + x) == BodyLine
  {
    assert ("- " + x)[0] == '-';
    BodyByFirstChar("- " + x);
  }

  lemma BulletItems(x: string)
    requires Placeholder(x)
    ensures IndexItem("- " + x) == Some(x) && SuggestionItem("- " + x) == Some(x)
  {
    TipLineTrimmed(x);
    TipLineNoHeader(x);
    TipLineText(x);
    assert TakesIndexItem(x) by {
      assert x[0] == '(';
    }
  }

  /** A problem line of the format, filled with placeholders, is taken as its issue. */
  lemma IssueLineFacts(issueType: string, message: string, location: string, fix: string)
    requires IsIssueType(issueType)
    requires Placeholder(message) && '|' !in message && '[' !in message
    requires Placeholder(location) && '|' !in location && '[' !in location
    requires Placeholder(fix) && '|' !in fix && '[' !in fix
    ensures IssueBody(IssueLine(issueType, message, location, fix), LabelledIssue(issueType, message, location, fix))
  {
    var line := IssueLine(issueType, message, location, fix);
    IssueLineBody(issueType, message, location, fix);
    IssueLineBullet(issueType, message, location, fix);
    ParseIssueLine(issueType, message, location, fix);
    IssueItemOf(line, LabelledIssue(issueType, message, location, fix));
  }

  lemma IssueLineBody(issueType: string, message: string, location: string, fix: string)
    requires Placeholder(fix)
    ensures var line := IssueLine(issueType, message, location, fix);
      TrimSpace(line) == line && ClassifyLine(line) == BodyLine
  {
    var line := IssueLine(issueType, message, location, fix);
    assert line[0] == '-' && line[1] == ' ' && line[|line| - 1] == fix[|fix| - 1];
    TrimmedFixed(line);
    BodyByFirstChar(line);
  }

  lemma IssueLineBullet(issueType: string, message: string, location: string, fix: string)
    ensures IsBullet(IssueLine(issueType, message, location, fix))
  {
    assert IssueLine(issueType, message, location, fix)[..1] == "-";
  }

  lemma IssueItemOf(line: string, issue: Issue)
    requires TrimSpace(line) == line && IsBullet(line) && ParseIssue(line) == issue && issue.message != ""
    ensures IssueItem(line) == Some(issue)
  {
  }
}
