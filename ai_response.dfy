/** The extractors of internal/ai/ollama.go that turn a language model's free-text answer
    into records: `parseIssue`, `parseQueryResponse` and `parseValidationResponse`. Each is
    total: any text gives a record. */
module AiResponse {
  import opened Wrappers
  import opened GoStrings
  import opened Models
  import opened IssueFormat

  /** The fence lines a model wraps code in. */
  const SqlFence := "```sql"
  const Fence := "```"

  /** A list line: one starting with `-` or `•`. */
  predicate IsBullet(trimmed: string) {
    HasPrefix(trimmed, "-") || HasPrefix(trimmed, "•")
  }

  /** A list item: one leading `-`, then one leading `•`, removed, and the rest trimmed. */
  function BulletText(trimmed: string): (item: string)
    ensures Trimmed(item)
    ensures |item| <= |trimmed|
  {
    TrimSpace(TrimPrefix(TrimPrefix(trimmed, "-"), "•"))
  }

  /** Every character of a list item comes from its line. */
  lemma BulletTextChars(trimmed: string, c: char)
    requires c in BulletText(trimmed)
    ensures c in trimmed
  {
    var once := TrimPrefix(trimmed, "-");
    var twice := TrimPrefix(once, "•");
    TrimSpaceChars(twice);
    assert c in twice;
    assert c in once by {
      if HasPrefix(once, "•") {
        assert once == "•" + twice;
      }
    }
    if HasPrefix(trimmed, "-") {
      assert trimmed == "-" + once;
    }
  }

  // ---------------------------------------------------------------------------------------
  // parseIssue

  /** The three issue types, in the order their tags are looked for. */
  predicate IsIssueType(t: string) {
    t == "error" || t == "warning" || t == "info"
  }

  /** The type a line's tags give, and the line with that tag's first occurrence removed. */
  function IssueTag(line: string): (tagged: (string, string))
    ensures IsIssueType(tagged.0)
    ensures tagged.0 == "error" <==> Contains(line, "[error]")
    ensures tagged.0 == "warning" <==> !Contains(line, "[error]") && Contains(line, "[warning]")
  {
    if Contains(line, "[error]") then ("error", ReplaceFirst(line, "[error]", ""))
    else if Contains(line, "[warning]") then ("warning", ReplaceFirst(line, "[warning]", ""))
    else if Contains(line, "[info]") then ("info", ReplaceFirst(line, "[info]", ""))
    else ("info", line)
  }

  /** `parseIssue`: the list marker is dropped, the type tag read, and the rest split at `|`
      into message, location and suggestion. */
  function ParseIssue(line: string): (issue: Issue)
    ensures IsIssueType(issue.issueType)
    ensures Trimmed(issue.message) && Trimmed(issue.location) && Trimmed(issue.suggestion)
    ensures '|' !in issue.message && '|' !in issue.location && '|' !in issue.suggestion
  {
    var tagged := IssueTag(BulletText(line));
    SplitParts(tagged.1, '|');
    IssueOfParts(tagged.0, Split(tagged.1, '|'))
  }


  /** Parts 0 to 2 of the split, each trimmed; a `위치:` or `해결:` label is removed only
      when the part starts with it, before trimming. Missing parts leave the field empty. */
  function IssueOfParts(issueType: string, parts: seq<string>): (issue: Issue)
    requires |parts| >= 1
    requires forall i :: 0 <= i < |parts| ==> '|' !in parts[i]
    ensures issue.issueType == issueType
    ensures Trimmed(issue.message) && Trimmed(issue.location) && Trimmed(issue.suggestion)
    ensures '|' !in issue.message && '|' !in issue.location && '|' !in issue.suggestion
  {
    TrimSpaceChars(parts[0]);
    var message := TrimSpace(parts[0]);
    if |parts| == 1 then Issue(issueType, message, "", "")
    else
      TrimSpaceChars(TrimPrefix(parts[1], LocationLabel));
      var location := TrimSpace(TrimPrefix(parts[1], LocationLabel));
      if |parts| == 2 then Issue(issueType, message, location, "")
      else
        TrimSpaceChars(TrimPrefix(parts[2], SuggestionLabel));
        Issue(issueType, message, location, TrimSpace(TrimPrefix(parts[2], SuggestionLabel)))
  }

  /** Reading back a line written in the prompt's own format gives the type and the message,
      but the location and suggestion keep their labels: the space after each `|` stops the
      label from being removed. */
  lemma ParseIssueLine(issueType: string, message: string, location: string, suggestion: string)
    requires IsIssueType(issueType)
    requires message != "" && Trimmed(message) && '|' !in message && '[' !in message
    requires location != "" && Trimmed(location) && '|' !in location && '[' !in location
    requires suggestion != "" && Trimmed(suggestion) && '|' !in suggestion && '[' !in suggestion
    ensures ParseIssue(IssueLine(issueType, message, location, suggestion))
         == Issue(issueType, message, LocationLabel + " " + location, SuggestionLabel + " " + suggestion)
  {
    var fields := IssueFields(message, location, suggestion);
    var body := "[" + issueType + "]" + fields;
    assert '[' !in fields by {
      assert '[' !in LocationLabel + SuggestionLabel;
    }
    assert Trimmed(body) by {
      assert body[0] == '[' && body[|body| - 1] == suggestion[|suggestion| - 1];
    }
    MarkerDropped(body);
    TagRead(issueType, fields);
    FieldsSplit(message, location, suggestion);
    PartsRead(issueType, message, location, suggestion);
  }

  lemma PartsRead(issueType: string, message: string, location: string, suggestion: string)
    requires message != "" && Trimmed(message) && '|' !in message
    requires location != "" && Trimmed(location) && '|' !in location
    requires suggestion != "" && Trimmed(suggestion) && '|' !in suggestion
    ensures IssueOfParts(issueType, [" " + message + " ", " " + LocationLabel + " " + location + " ", " " + SuggestionLabel + " " + suggestion])
         == Issue(issueType, message, LocationLabel + " " + location, SuggestionLabel + " " + suggestion)
  {
    var parts := [" " + message + " ", " " + LocationLabel + " " + location + " ", " " + SuggestionLabel + " " + suggestion];
    TrimSpacePadded(" ", message, " ");
    assert TrimSpace(parts[0]) == message;
    LabelKept(LocationLabel, location, " ");
    assert TrimSpace(TrimPrefix(parts[1], LocationLabel)) == LocationLabel + " " + location;
    LabelKept(SuggestionLabel, suggestion, "");
    assert parts[2] == " " + SuggestionLabel + " " + suggestion + "";
    assert TrimSpace(TrimPrefix(parts[2], SuggestionLabel)) == SuggestionLabel + " " + suggestion;
  }

  lemma MarkerDropped(body: string)
    requires |body| > 0 && body[0] == '[' && Trimmed(body)
    ensures BulletText("- " + body) == body
  {
    var line := "- " + body;
    assert line[..1] == "-" && line[1..] == " " + body;
    assert !HasPrefix(" " + body, "•");
    TrimSpacePadded(" ", body, "");
    assert " " + body + "" == " " + body;
  }

  /** A tag that can only sit at the start is contained exactly when it is a prefix. */
  lemma ContainsOnlyAtStart(s: string, t: string)
    requires |t| > 0 && |s| > 0 && t[0] !in s[1..]
    ensures Contains(s, t) <==> HasPrefix(s, t)
  {
    NotContainsWithoutFirst(s[1..], t);
  }

  lemma TagRead(issueType: string, fields: string)
    requires IsIssueType(issueType) && '[' !in fields
    ensures IssueTag("[" + issueType + "]" + fields) == (issueType, fields)
  {
    var s := "[" + issueType + "]" + fields;
    assert s[1..] == issueType + "]" + fields;
    assert '[' !in s[1..];
    ContainsOnlyAtStart(s, "[error]");
    assert s[1] == issueType[0];
    if issueType == "error" {
      assert s[..7] == "[error]" && s[7..] == fields;
      assert HasPrefix(s, "[error]");
      assert ReplaceFirst(s, "[error]", "") == fields;
    } else {
      ContainsOnlyAtStart(s, "[warning]");
      if issueType == "warning" {
        assert s[..9] == "[warning]" && s[9..] == fields;
        assert HasPrefix(s, "[warning]") && !HasPrefix(s, "[error]");
        assert ReplaceFirst(s, "[warning]", "") == fields;
      } else {
        ContainsOnlyAtStart(s, "[info]");
        assert s[..6] == "[info]" && s[6..] == fields;
        assert HasPrefix(s, "[info]") && !HasPrefix(s, "[error]") && !HasPrefix(s, "[warning]");
        assert ReplaceFirst(s, "[info]", "") == fields;
      }
    }
  }

  lemma FieldsSplit(message: string, location: string, suggestion: string)
    requires '|' !in message && '|' !in location && '|' !in suggestion
    ensures Split(IssueFields(message, location, suggestion), '|')
         == [" " + message + " ", " " + LocationLabel + " " + location + " ", " " + SuggestionLabel + " " + suggestion]
  {
    var a := " " + message + " ";
    var b := " " + LocationLabel + " " + location + " ";
    var c := " " + SuggestionLabel + " " + suggestion;
    assert '|' !in LocationLabel + SuggestionLabel;
    SplitAround(a, '|', b + ['|'] + c);
    SplitAround(b, '|', c);
    SplitWithout(a, '|');
    SplitWithout(b, '|');
    SplitWithout(c, '|');
  }

  /** A part ` <name> <text><post>` keeps its label name: it starts with a space. */
  lemma LabelKept(name: string, text: string, post: string)
    requires |name| > 0 && !IsSpace(name[0])
    requires text != "" && Trimmed(text)
    requires forall k :: 0 <= k < |post| ==> IsSpace(post[k])
    ensures TrimSpace(TrimPrefix(" " + name + " " + text + post, name)) == name + " " + text
  {
    var kept := name + " " + text;
    assert kept[0] == name[0] && kept[|kept| - 1] == text[|text| - 1];
    assert !HasPrefix(" " + name + " " + text + post, name);
    TrimSpacePadded(" ", kept, post);
    assert " " + kept + post == " " + name + " " + text + post;
  }
  // ---------------------------------------------------------------------------------------
  // parseQueryResponse

  /** Where `parseQueryResponse` is: before any header, or in one of the three sections. */
  datatype QuerySection = Preamble | SqlPart | ExplainPart | TipsPart

  /** The section a trimmed line opens, headers tested in this order; the rest of a header
      line is dropped. */
  function QueryHeader(trimmed: string): Option<QuerySection> {
    if HasPrefix(trimmed, "SQL:") then Some(SqlPart)
    else if HasPrefix(trimmed, "설명:") then Some(ExplainPart)
    else if HasPrefix(trimmed, "최적화 팁:") then Some(TipsPart)
    else None
  }

  predicate IsFenceLine(trimmed: string) {
    trimmed == SqlFence || trimmed == Fence
  }

  /** What the three sections make of a line read while they are in force. */
  predicate KeepsQueryLine(line: string) {
    TrimSpace(line) != "" && !IsFenceLine(TrimSpace(line))
  }

  predicate KeepsExplainLine(line: string) {
    TrimSpace(line) != ""
  }

  predicate KeepsTipLine(line: string) {
    IsBullet(TrimSpace(line))
  }

  function RawLine(line: string): string {
    line
  }

  function TipOf(line: string): string {
    BulletText(TrimSpace(line))
  }

  /** The loop variables of `parseQueryResponse`. */
  datatype QueryState = QueryState(
    section: QuerySection,
    queryLines: seq<string>,
    explainLines: seq<string>,
    tips: seq<string>)

  /** One iteration of the loop: SQL lines are kept untrimmed, explanation lines trimmed,
      and list lines of the tips section become tips. */
  function QueryStep(st: QueryState, line: string): QueryState {
    match QueryHeader(TrimSpace(line))
    case Some(s) => st.(section := s)
    case None =>
      match st.section
      case Preamble => st
      case SqlPart =>
        if KeepsQueryLine(line) then st.(queryLines := st.queryLines + [RawLine(line)]) else st
      case ExplainPart =>
        if KeepsExplainLine(line) then st.(explainLines := st.explainLines + [TrimSpace(line)]) else st
      case TipsPart =>
        if KeepsTipLine(line) then st.(tips := st.tips + [TipOf(line)]) else st
  }

  /** The loop variables after reading `lines`. */
  function QueryRun(lines: seq<string>): QueryState
    decreases |lines|
  {
    if |lines| == 0 then QueryState(Preamble, [], [], [])
    else QueryStep(QueryRun(lines[..|lines| - 1]), lines[|lines| - 1])
  }

  lemma QueryRunStep(lines: seq<string>, i: nat)
    requires i < |lines|
    ensures QueryRun(lines[..i + 1]) == QueryStep(QueryRun(lines[..i]), lines[i])
  {
    assert lines[..i + 1][..i] == lines[..i];
  }

  /** The section in force after `lines`: the one the last header line opened. */
  function SectionAfter(lines: seq<string>): QuerySection
    decreases |lines|
  {
    if |lines| == 0 then Preamble
    else
      match QueryHeader(TrimSpace(lines[|lines| - 1]))
      case Some(s) => s
      case None => SectionAfter(lines[..|lines| - 1])
  }

  /** What section `sec` takes from `lines`, in line order: `item(l)` for each line `l` that
      is not a header, is read while `sec` is in force, and is accepted by `keep`. */
  function Gathered(lines: seq<string>, sec: QuerySection, keep: string -> bool, item: string -> string): (items: seq<string>)
    ensures |items| <= |lines|
    decreases |lines|
  {
    if |lines| == 0 then []
    else
      var init := lines[..|lines| - 1];
      var line := lines[|lines| - 1];
      Gathered(init, sec, keep, item)
      + (if QueryHeader(TrimSpace(line)).None? && SectionAfter(init) == sec && keep(line) then [item(line)] else [])
  }

  /** The loop keeps each section's lines apart: the section in force is the last header's,
      the SQL lines are the raw kept lines read under `SQL:`, the explanation lines the
      trimmed non-empty lines read under `설명:`, and the tips the list items read under
      `최적화 팁:`; header lines and lines before the first header contribute nothing. */
  lemma {:induction false} QueryRunGathers(lines: seq<string>)
    ensures QueryRun(lines) == QueryState(
      SectionAfter(lines),
      Gathered(lines, SqlPart, KeepsQueryLine, RawLine),
      Gathered(lines, ExplainPart, KeepsExplainLine, TrimSpace),
      Gathered(lines, TipsPart, KeepsTipLine, TipOf))
    decreases |lines|
  {
    if |lines| > 0 {
      QueryRunGathers(lines[..|lines| - 1]);
    }
  }

  /** Text before the first header is ignored. */
  lemma {:induction false} PreambleIgnored(preamble: seq<string>, rest: seq<string>)
    requires forall i :: 0 <= i < |preamble| ==> QueryHeader(TrimSpace(preamble[i])).None?
    ensures QueryRun(preamble + rest) == QueryRun(rest)
    decreases |rest|
  {
    if |rest| == 0 {
      assert preamble + rest == preamble;
      PreambleEmpty(preamble);
    } else {
      var init := rest[..|rest| - 1];
      PreambleIgnored(preamble, init);
      assert (preamble + rest)[..|preamble + rest| - 1] == preamble + init;
    }
  }

  lemma {:induction false} PreambleEmpty(preamble: seq<string>)
    requires forall i :: 0 <= i < |preamble| ==> QueryHeader(TrimSpace(preamble[i])).None?
    ensures QueryRun(preamble) == QueryState(Preamble, [], [], [])
    decreases |preamble|
  {
    if |preamble| > 0 {
      PreambleEmpty(preamble[..|preamble| - 1]);
    }
  }

  /** A character absent from every item is absent from what a section gathers. */
  lemma {:induction false} GatheredExcludes(lines: seq<string>, sec: QuerySection, keep: string -> bool, item: string -> string, c: char)
    requires forall i :: 0 <= i < |lines| ==> c !in item(lines[i])
    ensures forall k :: 0 <= k < |Gathered(lines, sec, keep, item)| ==> c !in Gathered(lines, sec, keep, item)[k]
    decreases |lines|
  {
    if |lines| > 0 {
      GatheredExcludes(lines[..|lines| - 1], sec, keep, item, c);
    }
  }

  /** The query is trimmed, the explanation is one line, and every tip is a trimmed single
      line. */
  lemma QueryAnswerShape(response: string)
    ensures Trimmed(QueryAnswer(response).0)
    ensures '\n' !in QueryAnswer(response).1
    ensures forall k :: 0 <= k < |QueryAnswer(response).2| ==>
      Trimmed(QueryAnswer(response).2[k]) && '\n' !in QueryAnswer(response).2[k]
  {
    var lines := Split(response, '\n');
    SplitParts(response, '\n');
    QueryRunGathers(lines);
    forall i | 0 <= i < |lines| ensures '\n' !in TrimSpace(lines[i]) && '\n' !in TipOf(lines[i]) {
      TrimSpaceChars(lines[i]);
      if '\n' in TipOf(lines[i]) {
        BulletTextChars(TrimSpace(lines[i]), '\n');
      }
    }
    GatheredExcludes(lines, ExplainPart, KeepsExplainLine, TrimSpace, '\n');
    GatheredExcludes(lines, TipsPart, KeepsTipLine, TipOf, '\n');
    JoinExcludes(QueryRun(lines).explainLines, " ", '\n');
    TipsTrimmed(lines);
  }

  /** Every tip is trimmed. */
  lemma {:induction false} TipsTrimmed(lines: seq<string>)
    ensures forall k :: 0 <= k < |QueryRun(lines).tips| ==> Trimmed(QueryRun(lines).tips[k])
    decreases |lines|
  {
    if |lines| > 0 {
      TipsTrimmed(lines[..|lines| - 1]);
    }
  }

  /** The joined SQL lines, trimmed, with one leading `SqlFence`, then one leading `Fence`,
      then one trailing `Fence` removed, and trimmed again. */
  function CleanQuery(joined: string): (query: string)
    ensures Trimmed(query)
  {
    TrimSpace(TrimSuffix(TrimPrefix(TrimPrefix(TrimSpace(joined), SqlFence), Fence), Fence))
  }

  /** `parseQueryResponse`: the query, the explanation and the tips. */
  function QueryAnswer(response: string): (string, string, seq<string>) {
    var st := QueryRun(Split(response, '\n'));
    (CleanQuery(Join(st.queryLines, "\n")), Join(st.explainLines, " "), st.tips)
  }

  /** `parseQueryResponse` as the loop over the response's lines it is. */
  method ParseQueryResponse(response: string) returns (query: string, explanation: string, tips: seq<string>)
    ensures (query, explanation, tips) == QueryAnswer(response)
  {
    var lines := Split(response, '\n');
    var section := Preamble;
    var queryLines: seq<string> := [];
    var explainLines: seq<string> := [];
    tips := [];
    var i := 0;
    while i < |lines|
      invariant 0 <= i <= |lines|
      invariant QueryState(section, queryLines, explainLines, tips) == QueryRun(lines[..i])
    {
      var line := lines[i];
      var trimmed := TrimSpace(line);
      QueryRunStep(lines, i);
      i := i + 1;
      if HasPrefix(trimmed, "SQL:") {
        section := SqlPart;
        continue;
      } else if HasPrefix(trimmed, "설명:") {
        section := ExplainPart;
        continue;
      } else if HasPrefix(trimmed, "최적화 팁:") {
        section := TipsPart;
        continue;
      }
      match section {
        case SqlPart =>
          if trimmed != "" && trimmed != SqlFence && trimmed != Fence {
            queryLines := queryLines + [line];
          }
        case ExplainPart =>
          if trimmed != "" {
            explainLines := explainLines + [trimmed];
          }
        case TipsPart =>
          if HasPrefix(trimmed, "-") || HasPrefix(trimmed, "•") {
            var tip := TrimPrefix(trimmed, "-");
            tip := TrimPrefix(tip, "•");
            tips := tips + [TrimSpace(tip)];
          }
        case Preamble =>
      }
    }
    assert lines[..|lines|] == lines;
    query := TrimSpace(Join(queryLines, "\n"));
    explanation := Join(explainLines, " ");
    query := TrimPrefix(query, SqlFence);
    query := TrimPrefix(query, Fence);
    query := TrimSuffix(query, Fence);
    query := TrimSpace(query);
  }
  // ---------------------------------------------------------------------------------------
  // parseValidationResponse

  /** The list sections of `parseValidationResponse`, and the state before any of them. */
  datatype ValidationSection = NoList | IssuesPart | IndexesPart | OptimizedPart | PlanPart | SuggestionsPart

  /** What a trimmed line is to `parseValidationResponse`: one of the three single-line
      headers with its value, a header opening a list section, or a body line. */
  datatype ValidationLine =
    | ValidityLine(validity: string)
    | ScoreLine(scoreText: string)
    | OpensSection(opens: ValidationSection)
    | TimeLine(time: string)
    | BodyLine

  /** Headers are tested in this order; a single-line header's value is the rest of the line,
      trimmed. */
  function ClassifyLine(trimmed: string): ValidationLine {
    if HasPrefix(trimmed, "유효성:") then ValidityLine(TrimSpace(TrimPrefix(trimmed, "유효성:")))
    else if HasPrefix(trimmed, "점수:") then ScoreLine(TrimSpace(TrimPrefix(trimmed, "점수:")))
    else if HasPrefix(trimmed, "문제점:") then OpensSection(IssuesPart)
    else if HasPrefix(trimmed, "인덱스 활용:") then OpensSection(IndexesPart)
    else if HasPrefix(trimmed, "최적화된 쿼리:") then OpensSection(OptimizedPart)
    else if HasPrefix(trimmed, "실행 계획:") then OpensSection(PlanPart)
    else if HasPrefix(trimmed, "예상 시간:") then TimeLine(TrimSpace(TrimPrefix(trimmed, "예상 시간:")))
    else if HasPrefix(trimmed, "개선 제안:") then OpensSection(SuggestionsPart)
    else BodyLine
  }

  /** A validity value means valid when, lower-cased, it holds `true`, or when it holds `유효`. */
  predicate ValidityOf(value: string) {
    Contains(ToLower(value), "true") || Contains(value, "유효")
  }

  /** "유효하지 않음" ("not valid") holds `유효` and so reads as valid. */
  lemma NotValidInKoreanReadsValid()
    ensures ValidityOf("유효하지 않음")
  {
    assert HasPrefix("유효하지 않음", "유효");
  }

  lemma FalseReadsInvalid()
    ensures !ValidityOf("false") && !ValidityOf("FALSE")
  {
    assert forall k :: 0 <= k < 5 ==> ToLower("false")[k] != 't' && ToLower("FALSE")[k] != 't';
    NotContainsWithoutFirst(ToLower("false"), "true");
    NotContainsWithoutFirst(ToLower("FALSE"), "true");
    NotContainsWithoutFirst("false", "유효");
    NotContainsWithoutFirst("FALSE", "유효");
  }

  /** A score value with one trailing `점` removed is read as an integer; only 1 to 100 is
      taken. */
  function ScoreOf(value: string): (score: Option<int>)
    ensures score.Some? ==> 1 <= score.value <= 100
  {
    var n := ScanInt(TrimSuffix(value, "점"));
    if 0 < n <= 100 then Some(n) else None
  }

  /** A line of the optimized-query section that is taken: non-empty, not the "original is
      optimal" remark, and not a fence. */
  predicate TakesOptimizedLine(trimmed: string) {
    trimmed != "" && !Contains(trimmed, "원본 쿼리가 최적") && !IsFenceLine(trimmed)
  }

  /** The optimized query grows by a line; while it still equals the original query it is
      replaced instead. */
  function ExtendOptimized(current: string, original: string, trimmed: string): string {
    if current == original then trimmed else current + "\n" + trimmed
  }

  /** The plan grows by a line, separated by one space. */
  function ExtendPlan(plan: string, trimmed: string): string {
    if plan == "" then trimmed else plan + " " + trimmed
  }

  /** An index-usage entry is kept unless it is empty or `없음` ("none"). */
  predicate TakesIndexItem(item: string) {
    item != "" && item != "없음"
  }

  /** The value an item gives, as a list of zero or one elements. */
  function Taken<T>(item: Option<T>): (taken: seq<T>)
    ensures |taken| <= 1
  {
    match item
    case Some(value) => [value]
    case None => []
  }

  /** The values the list sections take from a body line. */
  function IssueItem(line: string): Option<Issue> {
    var trimmed := TrimSpace(line);
    if IsBullet(trimmed) && ParseIssue(trimmed).message != "" then Some(ParseIssue(trimmed)) else None
  }

  function IndexItem(line: string): Option<string> {
    var trimmed := TrimSpace(line);
    if IsBullet(trimmed) && TakesIndexItem(BulletText(trimmed)) then Some(BulletText(trimmed)) else None
  }

  function SuggestionItem(line: string): Option<string> {
    var trimmed := TrimSpace(line);
    if IsBullet(trimmed) && BulletText(trimmed) != "" then Some(BulletText(trimmed)) else None
  }

  function PlanItem(line: string): Option<string> {
    var trimmed := TrimSpace(line);
    if trimmed != "" then Some(trimmed) else None
  }

  function OptimizedItem(line: string): Option<string> {
    var trimmed := TrimSpace(line);
    if TakesOptimizedLine(trimmed) then Some(trimmed) else None
  }

  /** The record a body line changes, given the section in force. */
  function BodyStep(section: ValidationSection, v: QueryValidation, line: string, original: string): QueryValidation {
    match section
    case NoList => v
    case IssuesPart => v.(issues := v.issues + Taken(IssueItem(line)))
    case IndexesPart => v.(indexUsage := v.indexUsage + Taken(IndexItem(line)))
    case OptimizedPart =>
      (match OptimizedItem(line)
       case Some(trimmed) => v.(optimizedQuery := ExtendOptimized(v.optimizedQuery, original, trimmed))
       case None => v)
    case PlanPart =>
      (match PlanItem(line)
       case Some(trimmed) => v.(executionPlan := ExtendPlan(v.executionPlan, trimmed))
       case None => v)
    case SuggestionsPart => v.(suggestions := v.suggestions + Taken(SuggestionItem(line)))
  }

  /** The loop state of `parseValidationResponse`: the section in force and the record. */
  datatype ValidationState = ValidationState(section: ValidationSection, v: QueryValidation)

  /** One iteration of the loop: single-line headers set their field and leave the section
      alone, section headers switch it, body lines go to the section in force. */
  function ValidationStep(st: ValidationState, line: string, original: string): ValidationState {
    ApplyLine(st, ClassifyLine(TrimSpace(line)), line, original)
  }

  /** The iteration for a line of the given kind. */
  function ApplyLine(st: ValidationState, kind: ValidationLine, line: string, original: string): ValidationState {
    match kind
    case ValidityLine(value) => st.(v := st.v.(isValid := ValidityOf(value)))
    case ScoreLine(value) =>
      (match ScoreOf(value)
       case Some(score) => st.(v := st.v.(score := score))
       case None => st)
    case OpensSection(section) => st.(section := section)
    case TimeLine(value) => st.(v := st.v.(estimatedTime := value))
    case BodyLine => st.(v := BodyStep(st.section, st.v, line, original))
  }

  /** The record before any line is read: valid, score 50, the original query as the
      optimized one, and every list empty. */
  function InitialValidation(original: string): QueryValidation {
    QueryValidation(true, 50, original, original, [], [], [], "", "", 0)
  }

  function ValidationRun(lines: seq<string>, original: string): ValidationState
    decreases |lines|
  {
    if |lines| == 0 then ValidationState(NoList, InitialValidation(original))
    else ValidationStep(ValidationRun(lines[..|lines| - 1], original), lines[|lines| - 1], original)
  }

  lemma ValidationRunStep(lines: seq<string>, i: nat, original: string)
    requires i < |lines|
    ensures ValidationRun(lines[..i + 1], original) == ValidationStep(ValidationRun(lines[..i], original), lines[i], original)
  {
    assert lines[..i + 1][..i] == lines[..i];
  }

  /** The optimized query after the loop: one leading `SqlFence` and one trailing `Fence`
      removed, trimmed, and the original query when nothing is left. */
  function FinalOptimized(text: string, original: string): (query: string)
    ensures query == "" ==> original == ""
  {
    var cleaned := TrimSpace(TrimSuffix(TrimPrefix(text, SqlFence), Fence));
    if cleaned == "" then original else cleaned
  }

  /** `parseValidationResponse`. */
  function ValidationOf(response: string, original: string): QueryValidation {
    var v := ValidationRun(Split(response, '\n'), original).v;
    v.(optimizedQuery := FinalOptimized(v.optimizedQuery, original))
  }

  /** The list section in force after `lines`: the one the last section header opened;
      single-line headers do not count. */
  function OpenedAfter(lines: seq<string>): ValidationSection
    decreases |lines|
  {
    if |lines| == 0 then NoList
    else
      match ClassifyLine(TrimSpace(lines[|lines| - 1]))
      case OpensSection(section) => section
      case _ => OpenedAfter(lines[..|lines| - 1])
  }

  /** What the last line `pick` reads gives, or `default` when no line is read by it. */
  function Latest<T>(lines: seq<string>, pick: string -> Option<T>, default: T): T
    decreases |lines|
  {
    if |lines| == 0 then default
    else
      match pick(lines[|lines| - 1])
      case Some(value) => value
      case None => Latest(lines[..|lines| - 1], pick, default)
  }

  /** What the single-line headers give: the validity, an accepted score, the time. */
  function PickValidity(kind: ValidationLine): Option<bool> {
    match kind
    case ValidityLine(value) => Some(ValidityOf(value))
    case _ => None
  }

  function PickScore(kind: ValidationLine): Option<int> {
    match kind
    case ScoreLine(value) => ScoreOf(value)
    case _ => None
  }

  function PickTime(kind: ValidationLine): Option<string> {
    match kind
    case TimeLine(value) => Some(value)
    case _ => None
  }

  function ValidityPick(line: string): Option<bool> {
    PickValidity(ClassifyLine(TrimSpace(line)))
  }

  function ScorePick(line: string): Option<int> {
    PickScore(ClassifyLine(TrimSpace(line)))
  }

  function TimePick(line: string): Option<string> {
    PickTime(ClassifyLine(TrimSpace(line)))
  }

  /** What the list section `sec` takes from `lines`, in line order: `item(l)` for each body
      line `l` read while `sec` is in force for which `item` gives a value. */
  function Collected<T>(lines: seq<string>, sec: ValidationSection, item: string -> Option<T>): (items: seq<T>)
    ensures |items| <= |lines|
    decreases |lines|
  {
    if |lines| == 0 then []
    else
      var init := lines[..|lines| - 1];
      var line := lines[|lines| - 1];
      Collected(init, sec, item)
      + (if ClassifyLine(TrimSpace(line)).BodyLine? && OpenedAfter(init) == sec then Taken(item(line)) else [])
  }

  /** The plan built from its lines one by one. */
  function PlanText(items: seq<string>): string
    decreases |items|
  {
    if |items| == 0 then "" else ExtendPlan(PlanText(items[..|items| - 1]), items[|items| - 1])
  }

  /** The optimized query built from its lines one by one, starting from the original. */
  function OptimizedText(original: string, items: seq<string>): string
    decreases |items|
  {
    if |items| == 0 then original
    else ExtendOptimized(OptimizedText(original, items[..|items| - 1]), original, items[|items| - 1])
  }

  /** The section in force ignores the single-line headers. */
  lemma {:induction false} RunSection(lines: seq<string>, original: string)
    ensures ValidationRun(lines, original).section == OpenedAfter(lines)
    decreases |lines|
  {
    if |lines| > 0 {
      RunSection(lines[..|lines| - 1], original);
    }
  }

  /** The single-line headers are honoured in any section, the last of each kind wins, and
      the defaults stand when there is none. */
  lemma {:induction false} RunScalars(lines: seq<string>, original: string)
    ensures ValidationRun(lines, original).v.isValid == Latest(lines, ValidityPick, true)
    ensures ValidationRun(lines, original).v.score == Latest(lines, ScorePick, 50)
    ensures ValidationRun(lines, original).v.estimatedTime == Latest(lines, TimePick, "")
    ensures ValidationRun(lines, original).v.originalQuery == original
    ensures ValidationRun(lines, original).v.aiResponseTime == 0
    decreases |lines|
  {
    if |lines| > 0 {
      RunScalars(lines[..|lines| - 1], original);
      StepScalars(ValidationRun(lines[..|lines| - 1], original), ClassifyLine(TrimSpace(lines[|lines| - 1])), lines[|lines| - 1], original);
    }
  }

  lemma StepScalars(st: ValidationState, kind: ValidationLine, line: string, original: string)
    ensures ApplyLine(st, kind, line, original).v.isValid
         == (match PickValidity(kind) case Some(valid) => valid case None => st.v.isValid)
    ensures ApplyLine(st, kind, line, original).v.score
         == (match PickScore(kind) case Some(score) => score case None => st.v.score)
    ensures ApplyLine(st, kind, line, original).v.estimatedTime
         == (match PickTime(kind) case Some(time) => time case None => st.v.estimatedTime)
    ensures ApplyLine(st, kind, line, original).v.originalQuery == st.v.originalQuery
    ensures ApplyLine(st, kind, line, original).v.aiResponseTime == st.v.aiResponseTime
  {
    match kind
    case ValidityLine(value) =>
    case ScoreLine(value) =>
    case OpensSection(section) =>
    case TimeLine(value) =>
    case BodyLine =>
  }

  /** Each list field holds what its section collects, in line order. */
  lemma {:induction false} RunLists(lines: seq<string>, original: string)
    ensures ValidationRun(lines, original).v.issues == Collected(lines, IssuesPart, IssueItem)
    ensures ValidationRun(lines, original).v.indexUsage == Collected(lines, IndexesPart, IndexItem)
    ensures ValidationRun(lines, original).v.suggestions == Collected(lines, SuggestionsPart, SuggestionItem)
    decreases |lines|
  {
    if |lines| > 0 {
      RunLists(lines[..|lines| - 1], original);
      RunSection(lines[..|lines| - 1], original);
      StepIssues(ValidationRun(lines[..|lines| - 1], original), ClassifyLine(TrimSpace(lines[|lines| - 1])), lines[|lines| - 1], original);
      StepIndexUsage(ValidationRun(lines[..|lines| - 1], original), ClassifyLine(TrimSpace(lines[|lines| - 1])), lines[|lines| - 1], original);
      StepSuggestions(ValidationRun(lines[..|lines| - 1], original), ClassifyLine(TrimSpace(lines[|lines| - 1])), lines[|lines| - 1], original);
    }
  }

  lemma StepIssues(st: ValidationState, kind: ValidationLine, line: string, original: string)
    ensures ApplyLine(st, kind, line, original).v.issues == st.v.issues
      + (if kind.BodyLine? && st.section == IssuesPart then Taken(IssueItem(line)) else [])
  {
    match kind
    case ValidityLine(value) =>
    case ScoreLine(value) =>
    case OpensSection(section) =>
    case TimeLine(value) =>
    case BodyLine =>
  }

  lemma StepIndexUsage(st: ValidationState, kind: ValidationLine, line: string, original: string)
    ensures ApplyLine(st, kind, line, original).v.indexUsage == st.v.indexUsage
      + (if kind.BodyLine? && st.section == IndexesPart then Taken(IndexItem(line)) else [])
  {
    match kind
    case ValidityLine(value) =>
    case ScoreLine(value) =>
    case OpensSection(section) =>
    case TimeLine(value) =>
    case BodyLine =>
  }

  lemma StepSuggestions(st: ValidationState, kind: ValidationLine, line: string, original: string)
    ensures ApplyLine(st, kind, line, original).v.suggestions == st.v.suggestions
      + (if kind.BodyLine? && st.section == SuggestionsPart then Taken(SuggestionItem(line)) else [])
  {
    assert st.v.suggestions + [] == st.v.suggestions;
    match kind
    case ValidityLine(value) =>
    case ScoreLine(value) =>
    case OpensSection(section) =>
    case TimeLine(value) =>
    case BodyLine =>
      BodySuggestions(st.section, st.v, line, original);
  }

  lemma BodySuggestions(section: ValidationSection, v: QueryValidation, line: string, original: string)
    ensures BodyStep(section, v, line, original).suggestions
         == v.suggestions + (if section == SuggestionsPart then Taken(SuggestionItem(line)) else [])
  {
    assert v.suggestions + [] == v.suggestions;
    match section
    case NoList =>
    case IssuesPart =>
    case IndexesPart =>
    case OptimizedPart =>
    case PlanPart =>
    case SuggestionsPart =>
  }

  lemma StepTexts(st: ValidationState, kind: ValidationLine, line: string, original: string)
    ensures ApplyLine(st, kind, line, original).v.executionPlan
         == if kind.BodyLine? && st.section == PlanPart && PlanItem(line).Some?
            then ExtendPlan(st.v.executionPlan, PlanItem(line).value) else st.v.executionPlan
    ensures ApplyLine(st, kind, line, original).v.optimizedQuery
         == if kind.BodyLine? && st.section == OptimizedPart && OptimizedItem(line).Some?
            then ExtendOptimized(st.v.optimizedQuery, original, OptimizedItem(line).value) else st.v.optimizedQuery
  {
    match kind
    case ValidityLine(value) =>
    case ScoreLine(value) =>
    case OpensSection(section) =>
    case TimeLine(value) =>
    case BodyLine =>
  }

  /** The plan is built from what its section collects. */
  lemma {:induction false} RunPlan(lines: seq<string>, original: string)
    ensures ValidationRun(lines, original).v.executionPlan == PlanText(Collected(lines, PlanPart, PlanItem))
    decreases |lines|
  {
    if |lines| > 0 {
      var init := lines[..|lines| - 1];
      var line := lines[|lines| - 1];
      var st := ValidationRun(init, original);
      RunPlan(init, original);
      RunSection(init, original);
      StepTexts(st, ClassifyLine(TrimSpace(line)), line, original);
      assert ValidationRun(lines, original) == ValidationStep(st, line, original);
      var items := Collected(init, PlanPart, PlanItem);
      if ClassifyLine(TrimSpace(line)).BodyLine? && OpenedAfter(init) == PlanPart {
        assert Collected(lines, PlanPart, PlanItem) == items + Taken(PlanItem(line));
        PlanTextAppend(items, PlanItem(line));
      } else {
        assert Collected(lines, PlanPart, PlanItem) == items + [];
        assert items + [] == items;
      }
    }
  }

  /** The optimized query is built from what its section collects. */
  lemma {:induction false} RunOptimized(lines: seq<string>, original: string)
    ensures ValidationRun(lines, original).v.optimizedQuery
         == OptimizedText(original, Collected(lines, OptimizedPart, OptimizedItem))
    decreases |lines|
  {
    if |lines| > 0 {
      var init := lines[..|lines| - 1];
      var line := lines[|lines| - 1];
      var st := ValidationRun(init, original);
      RunOptimized(init, original);
      RunSection(init, original);
      StepTexts(st, ClassifyLine(TrimSpace(line)), line, original);
      assert ValidationRun(lines, original) == ValidationStep(st, line, original);
      var items := Collected(init, OptimizedPart, OptimizedItem);
      if ClassifyLine(TrimSpace(line)).BodyLine? && OpenedAfter(init) == OptimizedPart {
        assert Collected(lines, OptimizedPart, OptimizedItem) == items + Taken(OptimizedItem(line));
        OptimizedTextAppend(original, items, OptimizedItem(line));
      } else {
        assert Collected(lines, OptimizedPart, OptimizedItem) == items + [];
        assert items + [] == items;
      }
    }
  }

  lemma PlanTextAppend(items: seq<string>, item: Option<string>)
    ensures PlanText(items + Taken(item))
         == match item case Some(line) => ExtendPlan(PlanText(items), line) case None => PlanText(items)
  {
    match item
    case Some(line) => assert (items + [line])[..|items|] == items;
    case None => assert items + [] == items;
  }

  lemma OptimizedTextAppend(original: string, items: seq<string>, item: Option<string>)
    ensures OptimizedText(original, items + Taken(item))
         == match item
            case Some(line) => ExtendOptimized(OptimizedText(original, items), original, line)
            case None => OptimizedText(original, items)
  {
    match item
    case Some(line) => assert (items + [line])[..|items|] == items;
    case None => assert items + [] == items;
  }

  /** `parseValidationResponse` field by field: the last validity, score and time line
      win over the defaults, each list holds what its section collects in line order, the
      plan and the optimized query are built from their sections' lines, and the original
      query is kept. */
  lemma ValidationOfFields(response: string, original: string)
    ensures var lines := Split(response, '\n');
      ValidationOf(response, original) == QueryValidation(
        Latest(lines, ValidityPick, true),
        Latest(lines, ScorePick, 50),
        original,
        FinalOptimized(OptimizedText(original, Collected(lines, OptimizedPart, OptimizedItem)), original),
        Collected(lines, IssuesPart, IssueItem),
        Collected(lines, SuggestionsPart, SuggestionItem),
        Collected(lines, IndexesPart, IndexItem),
        PlanText(Collected(lines, PlanPart, PlanItem)),
        Latest(lines, TimePick, ""),
        0)
  {
    var lines := Split(response, '\n');
    RunScalars(lines, original);
    RunLists(lines, original);
    RunPlan(lines, original);
    RunOptimized(lines, original);
  }

  /** The score stays within 1 to 100 whatever the response says. */
  lemma ScoreBounded(response: string, original: string)
    ensures 1 <= ValidationOf(response, original).score <= 100
  {
    var lines := Split(response, '\n');
    RunScalars(lines, original);
    LatestScoreBounded(lines);
  }

  lemma {:induction false} LatestScoreBounded(lines: seq<string>)
    ensures 1 <= Latest(lines, ScorePick, 50) <= 100
    decreases |lines|
  {
    if |lines| > 0 {
      LatestScoreBounded(lines[..|lines| - 1]);
    }
  }

  /** A property every item a section can take has holds of everything it collects. */
  lemma {:induction false} CollectedAll<T>(lines: seq<string>, sec: ValidationSection, item: string -> Option<T>, p: T -> bool)
    requires forall line :: item(line).Some? ==> p(item(line).value)
    ensures forall k :: 0 <= k < |Collected(lines, sec, item)| ==> p(Collected(lines, sec, item)[k])
    decreases |lines|
  {
    if |lines| > 0 {
      CollectedAll(lines[..|lines| - 1], sec, item, p);
    }
  }

  predicate KeptIssue(issue: Issue) {
    issue.message != "" && IsIssueType(issue.issueType)
  }

  predicate KeptIndexItem(item: string) {
    TakesIndexItem(item) && Trimmed(item)
  }

  predicate KeptSuggestion(item: string) {
    item != "" && Trimmed(item)
  }

  /** Every issue kept has a message and one of the three types; no index-usage entry is
      empty or `없음`; no suggestion is empty; all entries are trimmed. */
  lemma ListsClean(response: string, original: string)
    ensures forall k :: 0 <= k < |ValidationOf(response, original).issues| ==>
      KeptIssue(ValidationOf(response, original).issues[k])
    ensures forall k :: 0 <= k < |ValidationOf(response, original).indexUsage| ==>
      KeptIndexItem(ValidationOf(response, original).indexUsage[k])
    ensures forall k :: 0 <= k < |ValidationOf(response, original).suggestions| ==>
      KeptSuggestion(ValidationOf(response, original).suggestions[k])
  {
    var lines := Split(response, '\n');
    RunLists(lines, original);
    CollectedAll(lines, IssuesPart, IssueItem, KeptIssue);
    CollectedAll(lines, IndexesPart, IndexItem, KeptIndexItem);
    CollectedAll(lines, SuggestionsPart, SuggestionItem, KeptSuggestion);
  }

  /** The plan is its non-empty lines joined by single spaces. */
  lemma {:induction false} PlanJoined(items: seq<string>)
    requires forall k :: 0 <= k < |items| ==> items[k] != ""
    ensures PlanText(items) == Join(items, " ")
    decreases |items|
  {
    if |items| > 1 {
      var init := items[..|items| - 1];
      PlanJoined(init);
      JoinAppend(init, items[|items| - 1], " ");
      assert init + [items[|items| - 1]] == items;
      assert init[0] != "";
      JoinNonEmpty(init, " ");
    }
  }

  lemma {:induction false} JoinNonEmpty(parts: seq<string>, sep: string)
    requires |parts| > 0 && parts[0] != ""
    ensures Join(parts, sep) != ""
  {
    if |parts| > 1 {
      assert |Join(parts, sep)| >= |parts[0]|;
    }
  }

  lemma PlanItemsNonEmpty(lines: seq<string>)
    ensures forall k :: 0 <= k < |Collected(lines, PlanPart, PlanItem)| ==> Collected(lines, PlanPart, PlanItem)[k] != ""
  {
    CollectedAll(lines, PlanPart, PlanItem, (item: string) => item != "");
  }

  /** The execution plan is the plan section's trimmed non-empty lines joined by single
      spaces. */
  lemma PlanIsJoin(response: string, original: string)
    ensures ValidationOf(response, original).executionPlan
         == Join(Collected(Split(response, '\n'), PlanPart, PlanItem), " ")
  {
    var lines := Split(response, '\n');
    RunPlan(lines, original);
    PlanItemsNonEmpty(lines);
    PlanJoined(Collected(lines, PlanPart, PlanItem));
  }

  /** For a one-line original query that no taken line repeats, the optimized query is the
      taken lines joined by newlines. */
  lemma {:induction false} OptimizedJoined(original: string, items: seq<string>)
    requires '\n' !in original
    requires |items| > 0
    requires forall k :: 0 <= k < |items| ==> items[k] != original
    ensures OptimizedText(original, items) == Join(items, "\n")
    decreases |items|
  {
    var init := items[..|items| - 1];
    var last := items[|items| - 1];
    if |items| > 1 {
      OptimizedJoined(original, init);
      JoinAppend(init, last, "\n");
      assert init + [last] == items;
      assert OptimizedText(original, init) != original by {
        if |init| > 1 {
          var head := init[..|init| - 1];
          JoinAppend(head, init[|init| - 1], "\n");
          assert head + [init[|init| - 1]] == init;
          var joined := Join(head, "\n");
          assert (joined + "\n" + init[|init| - 1])[|joined|] == '\n';
        }
      }
    }
  }

  /** As written, a taken line that equals the original query does not start the optimized
      query: the next line replaces it. */
  lemma OptimizedRestarts(original: string, next: string)
    ensures OptimizedText(original, [original, next]) == next
  {
    assert [original, next][..1] == [original];
    assert [original][..0] == [];
    assert OptimizedText(original, []) == original;
    assert OptimizedText(original, [original]) == original;
  }

  /** `parseValidationResponse` as the loop that updates the record field by field. */
  method ParseValidationResponse(response: string, original: string) returns (validation: QueryValidation)
    ensures validation == ValidationOf(response, original)
  {
    validation := QueryValidation(true, 50, original, original, [], [], [], "", "", 0);
    var lines := Split(response, '\n');
    var section := NoList;
    var i := 0;
    while i < |lines|
      invariant 0 <= i <= |lines|
      invariant ValidationState(section, validation) == ValidationRun(lines[..i], original)
    {
      ValidationRunStep(lines, i, original);
      section, validation := ReadLine(section, validation, lines[i], original);
      i := i + 1;
    }
    assert lines[..|lines|] == lines;
    validation := validation.(optimizedQuery := TrimPrefix(validation.optimizedQuery, SqlFence));
    validation := validation.(optimizedQuery := TrimSuffix(validation.optimizedQuery, Fence));
    validation := validation.(optimizedQuery := TrimSpace(validation.optimizedQuery));
    if validation.optimizedQuery == "" {
      validation := validation.(optimizedQuery := original);
    }
  }

  /** One iteration of the loop. */
  method ReadLine(section: ValidationSection, validation: QueryValidation, line: string, original: string)
    returns (section': ValidationSection, validation': QueryValidation)
    ensures ValidationState(section', validation') == ValidationStep(ValidationState(section, validation), line, original)
  {
    section', validation' := section, validation;
    var trimmed := TrimSpace(line);
    assert ValidationStep(ValidationState(section, validation), line, original)
      == ApplyLine(ValidationState(section, validation), ClassifyLine(trimmed), line, original);
    if HasPrefix(trimmed, "유효성:") {
      var value := TrimSpace(TrimPrefix(trimmed, "유효성:"));
      assert ClassifyLine(trimmed) == ValidityLine(value);
      validation' := validation.(isValid := Contains(ToLower(value), "true") || Contains(value, "유효"));
      return;
    }
    if HasPrefix(trimmed, "점수:") {
      var scoreText := TrimSpace(TrimPrefix(trimmed, "점수:"));
      scoreText := TrimSuffix(scoreText, "점");
      var score := ScanInt(scoreText);
      assert ClassifyLine(trimmed) == ScoreLine(TrimSpace(TrimPrefix(trimmed, "점수:")));
      if score > 0 && score <= 100 {
        validation' := validation.(score := score);
      }
      return;
    }
    if HasPrefix(trimmed, "문제점:") {
      assert ClassifyLine(trimmed) == OpensSection(IssuesPart);
      section' := IssuesPart;
      return;
    }
    if HasPrefix(trimmed, "인덱스 활용:") {
      assert ClassifyLine(trimmed) == OpensSection(IndexesPart);
      section' := IndexesPart;
      return;
    }
    section', validation' := ReadLaterLine(section, validation, line, original);
  }

  /** The rest of the iteration, for a line none of the first four headers starts. */
  method ReadLaterLine(section: ValidationSection, validation: QueryValidation, line: string, original: string)
    returns (section': ValidationSection, validation': QueryValidation)
    requires var trimmed := TrimSpace(line);
      !HasPrefix(trimmed, "유효성:") && !HasPrefix(trimmed, "점수:")
      && !HasPrefix(trimmed, "문제점:") && !HasPrefix(trimmed, "인덱스 활용:")
    ensures ValidationState(section', validation') == ValidationStep(ValidationState(section, validation), line, original)
  {
    section', validation' := section, validation;
    var trimmed := TrimSpace(line);
    assert ValidationStep(ValidationState(section, validation), line, original)
      == ApplyLine(ValidationState(section, validation), ClassifyLine(trimmed), line, original);
    if HasPrefix(trimmed, "최적화된 쿼리:") {
      assert ClassifyLine(trimmed) == OpensSection(OptimizedPart);
      section' := OptimizedPart;
      return;
    }
    if HasPrefix(trimmed, "실행 계획:") {
      assert ClassifyLine(trimmed) == OpensSection(PlanPart);
      section' := PlanPart;
      return;
    }
    if HasPrefix(trimmed, "예상 시간:") {
      assert ClassifyLine(trimmed) == TimeLine(TrimSpace(TrimPrefix(trimmed, "예상 시간:")));
      validation' := validation.(estimatedTime := TrimSpace(TrimPrefix(trimmed, "예상 시간:")));
      return;
    }
    if HasPrefix(trimmed, "개선 제안:") {
      assert ClassifyLine(trimmed) == OpensSection(SuggestionsPart);
      section' := SuggestionsPart;
      return;
    }
    assert ClassifyLine(trimmed) == BodyLine;
    validation' := ReadBodyLine(section, validation, line, original);
  }

  /** The `switch section` of the loop, one method per case. */
  method ReadBodyLine(section: ValidationSection, v: QueryValidation, line: string, original: string) returns (validation: QueryValidation)
    ensures validation == BodyStep(section, v, line, original)
  {
    var trimmed := TrimSpace(line);
    match section {
      case IssuesPart => validation := ReadIssue(v, line, trimmed);
      case IndexesPart => validation := ReadIndexUsage(v, line, trimmed);
      case OptimizedPart => validation := ReadOptimized(v, line, trimmed, original);
      case PlanPart => validation := ReadPlan(v, line, trimmed);
      case SuggestionsPart => validation := ReadSuggestion(v, line, trimmed);
      case NoList => validation := v;
    }
  }

  method ReadIssue(v: QueryValidation, line: string, trimmed: string) returns (validation: QueryValidation)
    requires trimmed == TrimSpace(line)
    ensures validation == v.(issues := v.issues + Taken(IssueItem(line)))
  {
    validation := v;
    if HasPrefix(trimmed, "-") || HasPrefix(trimmed, "•") {
      var issue := ParseIssue(trimmed);
      if issue.message != "" {
        assert IssueItem(line) == Some(issue);
        assert Taken(IssueItem(line)) == [issue];
        validation := validation.(issues := validation.issues + [issue]);
      } else {
        assert IssueItem(line) == None;
        assert v.issues + Taken(IssueItem(line)) == v.issues;
      }
    } else {
      assert IssueItem(line) == None;
      assert v.issues + Taken(IssueItem(line)) == v.issues;
    }
  }

  method ReadIndexUsage(v: QueryValidation, line: string, trimmed: string) returns (validation: QueryValidation)
    requires trimmed == TrimSpace(line)
    ensures validation == v.(indexUsage := v.indexUsage + Taken(IndexItem(line)))
  {
    validation := v;
    if HasPrefix(trimmed, "-") || HasPrefix(trimmed, "•") {
      var idx := TrimPrefix(trimmed, "-");
      idx := TrimPrefix(idx, "•");
      idx := TrimSpace(idx);
      assert idx == BulletText(trimmed);
      if idx != "" && idx != "없음" {
        assert IndexItem(line) == Some(idx);
        assert Taken(IndexItem(line)) == [idx];
        validation := validation.(indexUsage := validation.indexUsage + [idx]);
      } else {
        assert IndexItem(line) == None;
        assert v.indexUsage + Taken(IndexItem(line)) == v.indexUsage;
      }
    } else {
      assert IndexItem(line) == None;
      assert v.indexUsage + Taken(IndexItem(line)) == v.indexUsage;
    }
  }

  method ReadOptimized(v: QueryValidation, line: string, trimmed: string, original: string) returns (validation: QueryValidation)
    requires trimmed == TrimSpace(line)
    ensures validation == match OptimizedItem(line)
      case Some(trimmed) => v.(optimizedQuery := ExtendOptimized(v.optimizedQuery, original, trimmed))
      case None => v
  {
    validation := v;
    if trimmed != "" && !Contains(trimmed, "원본 쿼리가 최적") {
      if trimmed != SqlFence && trimmed != Fence {
        if validation.optimizedQuery == original {
          validation := validation.(optimizedQuery := trimmed);
        } else {
          validation := validation.(optimizedQuery := validation.optimizedQuery + "\n" + trimmed);
        }
      }
    }
  }

  method ReadPlan(v: QueryValidation, line: string, trimmed: string) returns (validation: QueryValidation)
    requires trimmed == TrimSpace(line)
    ensures validation == match PlanItem(line)
      case Some(trimmed) => v.(executionPlan := ExtendPlan(v.executionPlan, trimmed))
      case None => v
  {
    validation := v;
    if trimmed != "" {
      if validation.executionPlan == "" {
        validation := validation.(executionPlan := trimmed);
      } else {
        validation := validation.(executionPlan := validation.executionPlan + " " + trimmed);
      }
    }
  }

  method ReadSuggestion(v: QueryValidation, line: string, trimmed: string) returns (validation: QueryValidation)
    requires trimmed == TrimSpace(line)
    ensures validation == v.(suggestions := v.suggestions + Taken(SuggestionItem(line)))
  {
    validation := v;
    if HasPrefix(trimmed, "-") || HasPrefix(trimmed, "•") {
      var sug := TrimPrefix(trimmed, "-");
      sug := TrimPrefix(sug, "•");
      sug := TrimSpace(sug);
      assert SuggestionItem(line) == if sug != "" then Some(sug) else None;
      if sug != "" {
        validation := validation.(suggestions := validation.suggestions + [sug]);
      }
    }
  }
}
