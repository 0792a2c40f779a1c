/** The pure parts of the command-line tool (cmd/cli/main.go): the default port of each
    dialect, the SQL line-breaker used to display generated queries, and the mode switch of
    the interactive loop. */
module Cli {
  import opened Wrappers
  import opened GoStrings
  import opened Models

  // ---------------------------------------------------------------------------------------
  // getPort

  /** `getPort`, with the `--port` and `--type` flags as parameters: an explicit non-zero port
      wins, otherwise the dialect's standard port, and 0 for an unknown dialect. */
  function GetPort(port: int, dbType: string): (p: int)
    ensures port != 0 ==> p == port
    ensures port == 0 && dbType == MySQL ==> p == 3306
    ensures port == 0 && dbType == PostgreSQL ==> p == 5432
    ensures port == 0 && dbType == Oracle ==> p == 1521
    ensures port == 0 && dbType == SQLServer ==> p == 1433
    ensures p == 0 <==> port == 0 && !IsSupported(dbType)
  {
    if port != 0 then port
    else if dbType == "mysql" then 3306
    else if dbType == "postgresql" then 5432
    else if dbType == "oracle" then 1521
    else if dbType == "sqlserver" then 1433
    else 0
  }

  // ---------------------------------------------------------------------------------------
  // formatSQL

  /** The keywords `formatSQL` starts a new line before, in the order it handles them. */
  const Keywords: seq<string> := [
    "SELECT", "FROM", "WHERE", "JOIN", "LEFT JOIN", "RIGHT JOIN",
    "INNER JOIN", "ORDER BY", "GROUP BY", "HAVING", "LIMIT", "OFFSET",
    "INSERT INTO", "VALUES", "UPDATE", "SET", "DELETE FROM",
    "CREATE TABLE", "ALTER TABLE", "DROP TABLE", "CREATE INDEX"]

  /** The indentation of every displayed line. */
  const Indent := "   "

  /** One iteration of the keyword loop: the space before each upper-case, then each
      lower-case, occurrence of the keyword between spaces becomes a line break. */
  function BreakKeyword(s: string, kw: string): string {
    var upper := ReplaceAll(s, " " + kw + " ", "\n" + kw + " ");
    var lower := ToLower(kw);
    ReplaceAll(upper, " " + lower + " ", "\n" + lower + " ")
  }

  /** The text after the keyword loop has handled `kws`. */
  function BreakKeywords(s: string, kws: seq<string>): string
    decreases |kws|
  {
    if |kws| == 0 then s else BreakKeyword(BreakKeywords(s, kws[..|kws| - 1]), kws[|kws| - 1])
  }

  /** The line loop: each line trimmed, blank ones dropped, the others indented. */
  function IndentLines(lines: seq<string>): seq<string>
    decreases |lines|
  {
    if |lines| == 0 then []
    else
      var line := TrimSpace(lines[|lines| - 1]);
      IndentLines(lines[..|lines| - 1]) + (if line != "" then [Indent + line] else [])
  }

  /** What `formatSQL` returns. */
  function FormattedSql(sql: string): string {
    Join(IndentLines(Split(BreakKeywords(sql, Keywords), '\n')), "\n")
  }

  /** `formatSQL`. */
  method FormatSql(sql: string) returns (text: string)
    ensures text == FormattedSql(sql)
  {
    var formatted := sql;
    var i := 0;
    while i < |Keywords|
      invariant 0 <= i <= |Keywords|
      invariant formatted == BreakKeywords(sql, Keywords[..i])
    {
      var kw := Keywords[i];
      formatted := ReplaceAll(formatted, " " + kw + " ", "\n" + kw + " ");
      formatted := ReplaceAll(formatted, " " + ToLower(kw) + " ", "\n" + ToLower(kw) + " ");
      assert Keywords[..i + 1][..i] == Keywords[..i];
      i := i + 1;
    }
    assert Keywords[..i] == Keywords;
    var lines := Split(formatted, '\n');
    var result: seq<string> := [];
    var j := 0;
    while j < |lines|
      invariant 0 <= j <= |lines|
      invariant result == IndentLines(lines[..j])
    {
      var line := TrimSpace(lines[j]);
      if line != "" {
        result := result + [Indent + line];
      }
      assert lines[..j + 1][..j] == lines[..j];
      j := j + 1;
    }
    assert lines[..j] == lines;
    text := Join(result, "\n");
  }

  /** A displayed line: the indentation, then non-blank text with no surrounding space. */
  predicate IsDisplayLine(line: string) {
    |line| > |Indent| && line[..|Indent|] == Indent && Trimmed(line[|Indent|..])
  }

  /** Every line the loop keeps is a display line without a line break, and it keeps at
      most as many lines as it reads. */
  lemma {:induction false} IndentLinesShape(lines: seq<string>)
    requires forall k :: 0 <= k < |lines| ==> '\n' !in lines[k]
    ensures |IndentLines(lines)| <= |lines|
    ensures forall k :: 0 <= k < |IndentLines(lines)| ==> IsDisplayLine(IndentLines(lines)[k]) && '\n' !in IndentLines(lines)[k]
    decreases |lines|
  {
    if |lines| > 0 {
      var init := lines[..|lines| - 1];
      IndentLinesShape(init);
      var line := TrimSpace(lines[|lines| - 1]);
      TrimSpaceChars(lines[|lines| - 1]);
      if line != "" {
        var shown := Indent + line;
        assert shown[..|Indent|] == Indent && shown[|Indent|..] == line;
        assert '\n' !in shown;
      }
    }
  }

  /** The result read back line by line is exactly the kept lines: no blank line appears,
      and every line is indented by three spaces. */
  lemma FormattedLines(sql: string)
    ensures var kept := IndentLines(Split(BreakKeywords(sql, Keywords), '\n'));
      (|kept| == 0 ==> FormattedSql(sql) == "")
      && (|kept| > 0 ==> Split(FormattedSql(sql), '\n') == kept)
    ensures FormattedSql(sql) != "" ==>
      forall k :: 0 <= k < |Split(FormattedSql(sql), '\n')| ==> IsDisplayLine(Split(FormattedSql(sql), '\n')[k])
  {
    var lines := Split(BreakKeywords(sql, Keywords), '\n');
    SplitParts(BreakKeywords(sql, Keywords), '\n');
    IndentLinesShape(lines);
    var kept := IndentLines(lines);
    if |kept| > 0 {
      SplitJoin(kept, '\n');
    }
  }

  /** A string lacks every string holding a character it lacks. */
  lemma NotContainsWithout(s: string, t: string, k: nat)
    requires k < |t| && t[k] !in s
    ensures !Contains(s, t)
  {
    ContainsIff(s, t);
    forall i | 0 <= i <= |s| - |t| ensures !HasPrefix(s[i..], t) {
      assert s[i..][..|t|][k] == s[i + k];
    }
  }

  /** A keyword whose first letter is an upper-case ASCII letter. */
  predicate IsKeyword(kw: string) {
    |kw| > 0 && 'A' <= kw[0] <= 'Z'
  }

  /** Breaking keywords leaves text made only of spaces unchanged. */
  lemma {:induction false} BlankUnbroken(s: string, kws: seq<string>)
    requires forall i :: 0 <= i < |s| ==> IsSpace(s[i])
    requires forall k :: 0 <= k < |kws| ==> IsKeyword(kws[k])
    ensures BreakKeywords(s, kws) == s
    decreases |kws|
  {
    if |kws| > 0 {
      BlankUnbroken(s, kws[..|kws| - 1]);
      var kw := kws[|kws| - 1];
      var lower := ToLower(kw);
      assert (" " + kw + " ")[1] == kw[0];
      NotContainsWithout(s, " " + kw + " ", 1);
      ReplaceAllAbsent(s, " " + kw + " ", "\n" + kw + " ");
      assert (" " + lower + " ")[1] == lower[0];
      NotContainsWithout(s, " " + lower + " ", 1);
      ReplaceAllAbsent(s, " " + lower + " ", "\n" + lower + " ");
    }
  }

  /** Every line of text made only of spaces trims to nothing. */
  lemma {:induction false} BlankLinesDropped(lines: seq<string>)
    requires forall k :: 0 <= k < |lines| ==> forall i :: 0 <= i < |lines[k]| ==> IsSpace(lines[k][i])
    ensures IndentLines(lines) == []
    decreases |lines|
  {
    if |lines| > 0 {
      BlankLinesDropped(lines[..|lines| - 1]);
      TrimSpaceEmpty(lines[|lines| - 1]);
    }
  }

  /** Blank input displays as the empty string. */
  lemma BlankSql(sql: string)
    requires forall i :: 0 <= i < |sql| ==> IsSpace(sql[i])
    ensures FormattedSql(sql) == ""
  {
    BlankUnbroken(sql, Keywords);
    var lines := Split(sql, '\n');
    forall k, i | 0 <= k < |lines| && 0 <= i < |lines[k]| ensures IsSpace(lines[k][i]) {
      assert lines[k][i] in lines[k];
      SplitChars(sql, '\n', k, lines[k][i]);
    }
    BlankLinesDropped(lines);
  }

  // ---------------------------------------------------------------------------------------
  // handleCommand

  /** The command words that switch the query mode. */
  const ModeCommands: seq<string> := ["/select", "/insert", "/update", "/delete", "/alter", "/create"]

  /** What a command line asks for, apart from printing. */
  datatype Action =
    | SwitchMode(mode: string)
    | Optimize(query: string)
    | Explain(query: string)
    | Usage(command: string)
    | ShowSchema
    | Unknown(command: string)

  /** `strings.ToLower(parts[0])` of `strings.SplitN(cmd, " ", 2)`. */
  function CommandWord(cmd: string): (word: string)
    ensures |word| <= |cmd|
  {
    ToLower(FirstField(cmd, ' '))
  }

  /** `parts[1]` of `strings.SplitN(cmd, " ", 2)`, present when the line has a space. */
  function Argument(cmd: string): (arg: Option<string>)
    ensures arg.None? <==> ' ' !in cmd
    ensures arg.Some? ==> cmd == FirstField(cmd, ' ') + " " + arg.value
  {
    var head := FirstField(cmd, ' ');
    if |head| == |cmd| then
      assert head == cmd;
      None
    else
      var arg := cmd[|head| + 1..];
      assert cmd[|head|] == ' ' && cmd[|head|] in cmd;
      assert cmd == head + " " + arg by {
        assert cmd == cmd[..|head|] + [cmd[|head|]] + cmd[|head| + 1..];
      }
      Some(arg)
  }

  /** The mode a command word switches to: its upper case, without the slash. */
  function ModeOf(word: string): (mode: Option<string>)
    ensures mode.Some? <==> word in ModeCommands
    ensures mode.Some? ==> |word| > 1 && mode.value == ToUpper(word[1..])
  {
    ModeNamesUpper();
    if word == "/select" then Some("SELECT")
    else if word == "/insert" then Some("INSERT")
    else if word == "/update" then Some("UPDATE")
    else if word == "/delete" then Some("DELETE")
    else if word == "/alter" then Some("ALTER")
    else if word == "/create" then Some("CREATE")
    else None
  }

  /** Each mode name the `switch` assigns is the upper case of its command word. */
  lemma ModeNamesUpper()
    ensures ToUpper("select") == "SELECT" && ToUpper("insert") == "INSERT"
    ensures ToUpper("update") == "UPDATE" && ToUpper("delete") == "DELETE"
    ensures ToUpper("alter") == "ALTER" && ToUpper("create") == "CREATE"
  {
    assert ToUpper("select") == "SELECT";
    assert ToUpper("insert") == "INSERT";
    assert ToUpper("update") == "UPDATE";
    assert ToUpper("delete") == "DELETE";
    assert ToUpper("alter") == "ALTER";
    assert ToUpper("create") == "CREATE";
  }

  /** The `switch` of `handleCommand`. */
  function ActionOf(cmd: string): (a: Action)
    ensures a.SwitchMode? <==> CommandWord(cmd) in ModeCommands
    ensures a.SwitchMode? ==> Some(a.mode) == ModeOf(CommandWord(cmd))
    ensures (a.Optimize? || a.Explain?) ==> Argument(cmd) == Some(a.query)
    ensures a.Usage? <==> CommandWord(cmd) in ["/optimize", "/explain"] && Argument(cmd).None?
    ensures a.ShowSchema? <==> CommandWord(cmd) == "/schema"
    ensures a.Unknown? <==> CommandWord(cmd) !in ModeCommands + ["/optimize", "/explain", "/schema"]
  {
    var word := CommandWord(cmd);
    match ModeOf(word)
    case Some(mode) => SwitchMode(mode)
    case None =>
      if word == "/optimize" || word == "/explain" then
        match Argument(cmd)
        case None => Usage(word)
        case Some(query) => if word == "/optimize" then Optimize(query) else Explain(query)
      else if word == "/schema" then ShowSchema
      else Unknown(word)
  }

  /** A mode command is recognised whatever its letter case and whatever follows it. */
  lemma ModeCommandAnyCase(word: string, rest: string)
    requires ' ' !in word && ToLower(word) in ModeCommands
    requires rest == "" || rest[0] == ' '
    ensures ActionOf(word + rest) == SwitchMode(ToUpper(ToLower(word)[1..]))
  {
    FirstFieldPrefix(word, rest);
  }

  lemma {:induction false} FirstFieldPrefix(word: string, rest: string)
    requires ' ' !in word
    requires rest == "" || rest[0] == ' '
    ensures FirstField(word + rest, ' ') == word
    decreases |word|
  {
    if |word| > 0 {
      FirstFieldPrefix(word[1..], rest);
      assert (word + rest)[1..] == word[1..] + rest;
    } else {
      assert word + rest == rest;
    }
  }

  /** The interactive loop's state: the query type of the next prompt. */
  class Repl {
    var currentType: string

    constructor(queryType: string)
      ensures currentType == queryType
    {
      currentType := queryType;
    }

    /** `handleCommand`: a mode command sets the query type, every other command leaves
        it as it was. */
    method HandleCommand(cmd: string) returns (action: Action)
      modifies this
      ensures action == ActionOf(cmd)
      ensures action.SwitchMode? ==> currentType == action.mode
      ensures !action.SwitchMode? ==> currentType == old(currentType)
    {
      var command := ToLower(FirstField(cmd, ' '));
      if command == "/select" {
        currentType := "SELECT";
      } else if command == "/insert" {
        currentType := "INSERT";
      } else if command == "/update" {
        currentType := "UPDATE";
      } else if command == "/delete" {
        currentType := "DELETE";
      } else if command == "/alter" {
        currentType := "ALTER";
      } else if command == "/create" {
        currentType := "CREATE";
      }
      action := ActionOf(cmd);
    }
  }
}
