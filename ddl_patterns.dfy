/** The fixed regular expressions of internal/schema/parser.go, each written out as a scanner.
    Every optional quote, greedy run and lazy run in these patterns admits only one way to
    match at a given start (the piece after it cannot match the characters the alternative
    would leave), so a greedy left-to-right scan finds exactly RE2's leftmost-first match.
    Optional groups are tried with and then without the group, as RE2 prefers. */
module DdlPatterns {
  import opened Wrappers
  import opened ReScan

  // ---------------------------------------------------------------------------------------
  // FindAllStringSubmatch

  /** `at` is a pattern anchored at a position: every match it finds at `p` ends after `p`. */
  ghost predicate Advances<M>(at: nat -> Option<M>, endOf: M -> nat) {
    forall p: nat :: at(p).Some? ==> p < endOf(at(p).value)
  }

  /** `FindAllStringSubmatch` of the anchored pattern `at` from `from`: the match at the leftmost
      position that starts one, then the matches after its end. */
  function FindAll<M>(s: string, from: nat, at: nat -> Option<M>, endOf: M -> nat): (ms: seq<M>)
    requires Advances(at, endOf)
    decreases |s| - from
  {
    if from >= |s| then []
    else
      var m := at(from);
      (if m.Some? then [m.value] else []) + FindAll(s, if m.Some? then endOf(m.value) else from + 1, at, endOf)
  }

  /** No position matches: nothing is found. */
  lemma {:induction false} FindAllNone<M>(s: string, from: nat, at: nat -> Option<M>, endOf: M -> nat)
    requires Advances(at, endOf)
    requires forall p :: from <= p < |s| ==> at(p).None?
    ensures FindAll(s, from, at, endOf) == []
    decreases |s| - from
  {
    if from < |s| {
      FindAllNone(s, from + 1, at, endOf);
    }
  }

  /** The first match found is the one at the leftmost position that starts a match, and the
      search resumes where that match ends. */
  lemma {:induction false} FindAllLeftmost<M>(s: string, from: nat, at: nat -> Option<M>, endOf: M -> nat, p: nat)
    requires Advances(at, endOf)
    requires from <= p < |s| && at(p).Some?
    requires forall q :: from <= q < p ==> at(q).None?
    ensures FindAll(s, from, at, endOf) == [at(p).value] + FindAll(s, endOf(at(p).value), at, endOf)
    decreases p - from
  {
    if from < p {
      FindAllLeftmost(s, from + 1, at, endOf, p);
    }
  }

  /** Every match found satisfies what every anchored match satisfies. */
  lemma {:induction false} FindAllEach<M>(s: string, from: nat, at: nat -> Option<M>, endOf: M -> nat, good: M -> bool)
    requires Advances(at, endOf)
    requires forall p: nat :: at(p).Some? ==> good(at(p).value)
    ensures forall k :: 0 <= k < |FindAll(s, from, at, endOf)| ==> good(FindAll(s, from, at, endOf)[k])
    decreases |s| - from
  {
    if from < |s| {
      var m := at(from);
      FindAllEach(s, if m.Some? then endOf(m.value) else from + 1, at, endOf, good);
    }
  }

  // ---------------------------------------------------------------------------------------
  // (?i)CREATE\s+TABLE\s+(?:IF\s+NOT\s+EXISTS\s+)?[q]?(\w+)[q]?\s*\(([\s\S]*?)\)

  /** A CREATE TABLE match: the table name, the body up to the first `)`, and where the
      match ends. */
  datatype TableMatch = TableMatch(name: string, body: string, end: nat)

  /** The optional group `IF\s+NOT\s+EXISTS\s+` at `i`. */
  function IfNotExistsEnd(s: string, i: nat): (r: Option<nat>)
    requires i <= |s|
    ensures r.Some? ==> i < r.value <= |s|
  {
    if !KeywordAt(s, i, "IF") then None else
    var a := SpacesEnd(s, i + 2);
    if a == i + 2 || !KeywordAt(s, a, "NOT") then None else
    var b := SpacesEnd(s, a + 3);
    if b == a + 3 || !KeywordAt(s, b, "EXISTS") then None else
    var c := SpacesEnd(s, b + 6);
    if c == b + 6 then None else Some(c)
  }

  /** The part of the table pattern after the optional group: name, `(`, lazy body, `)`. */
  function TableTail(s: string, i: nat): (r: Option<TableMatch>)
    requires i <= |s|
    ensures r.Some? ==> i < r.value.end <= |s| && s[r.value.end - 1] == ')'
    ensures r.Some? ==> r.value.name != [] && ')' !in r.value.body
  {
    var q := QuoteOpenEnd(s, i);
    var w := WordEnd(s, q, true);
    if w == q then None else
    var sp := SpacesEnd(s, QuoteCloseEnd(s, w));
    if !CharAt(s, sp, '(') then None else
    var close := UntilChar(s, sp + 1, ')');
    if close == |s| then None else
    UntilCharAbsent(s, sp + 1, ')');
    Some(TableMatch(s[q..w], s[sp + 1..close], close + 1))
  }

  /** `CREATE\s+TABLE\s+` at `p`. */
  function TableHead(s: string, p: nat): (r: Option<nat>)
    ensures r.Some? ==> p < r.value <= |s|
  {
    if !KeywordAt(s, p, "CREATE") then None else
    var a := SpacesEnd(s, p + 6);
    if a == p + 6 || !KeywordAt(s, a, "TABLE") then None else
    var b := SpacesEnd(s, a + 5);
    if b == a + 5 then None else Some(b)
  }

  /** The table pattern anchored at `p`, preferring the match with the IF NOT EXISTS group. */
  function TableAt(s: string, p: nat): (r: Option<TableMatch>)
    ensures r.Some? ==> p < r.value.end <= |s| && s[r.value.end - 1] == ')'
    ensures r.Some? ==> r.value.name != [] && ')' !in r.value.body
  {
    match TableHead(s, p)
    case None => None
    case Some(head) => PreferGroup(s, head, IfNotExistsEnd(s, head))
  }

  /** The tail after the optional group when the group matched and the tail matches after
      it, else the tail right after the head. */
  function PreferGroup(s: string, head: nat, group: Option<nat>): (r: Option<TableMatch>)
    requires head <= |s| && (group.Some? ==> head < group.value <= |s|)
    ensures r.Some? ==> head < r.value.end <= |s| && s[r.value.end - 1] == ')'
    ensures r.Some? ==> r.value.name != [] && ')' !in r.value.body
  {
    var withGroup := if group.Some? then TableTail(s, group.value) else None;
    if withGroup.Some? then withGroup else TableTail(s, head)
  }

  /** `FindAllStringSubmatch` of the table pattern from position `from`: the leftmost match,
      then the matches after its end. */
  function TablesFrom(s: string, from: nat): (ms: seq<TableMatch>) {
    FindAll(s, from, (p: nat) => TableAt(s, p), (m: TableMatch) => m.end)
  }


  // ---------------------------------------------------------------------------------------
  // ^\s*[q]?(\w+)[q]?\s+(\w+(?:\([^)]+\))?)\s*(.*)$

  /** A column clause match: name, type and the remainder of the line. */
  datatype ColumnMatch = ColumnMatch(name: string, columnType: string, rest: string)

  /** The optional type arguments `(?:\([^)]+\))?` after a type name ending at `t`. */
  function TypeArgsEnd(l: string, t: nat): (g: nat)
    requires t <= |l|
    ensures t <= g <= |l|
    ensures g != t ==> l[g - 1] == ')'
  {
    if CharAt(l, t, '(') then
      var e := UntilChar(l, t + 1, ')');
      if t + 1 < e < |l| then e + 1 else t
    else t
  }

  /** The column pattern (case-sensitive, anchored at both ends; `.` stops at a newline). */
  function MatchColumn(l: string): (r: Option<ColumnMatch>)
    ensures r.Some? ==> r.value.name != [] && r.value.columnType != []
    ensures r.Some? ==> '\n' !in r.value.rest
    ensures r.Some? && ')' !in l ==> forall k :: 0 <= k < |r.value.columnType| ==> IsWordChar(r.value.columnType[k], false)
  {
    var q := QuoteOpenEnd(l, SpacesEnd(l, 0));
    var w := WordEnd(l, q, false);
    if w == q then None else
    var q2 := QuoteCloseEnd(l, w);
    var sp := SpacesEnd(l, q2);
    if sp == q2 then None else
    var t := WordEnd(l, sp, false);
    if t == sp then None else
    var g := TypeArgsEnd(l, t);
    var r := SpacesEnd(l, g);
    if '\n' in l[r..] then None else
    assert g != t ==> l[g - 1] in l;
    WordEndChars(l, sp, false);
    Some(ColumnMatch(l[q..w], l[sp..g], l[r..]))
  }

  // ---------------------------------------------------------------------------------------
  // (?i)DEFAULT\s+([^\s,]+)   and   (?i)COMMENT\s+'([^']*)'

  predicate IsDefaultChar(c: char) {
    !IsReSpace(c) && c != ','
  }

  /** The default pattern anchored at `p`: its captured value. */
  function DefaultAt(s: string, p: nat): (r: Option<string>)
    ensures r.Some? ==> r.value != [] && forall k :: 0 <= k < |r.value| ==> IsDefaultChar(r.value[k])
  {
    if !KeywordAt(s, p, "DEFAULT") then None else
    var a := SpacesEnd(s, p + 7);
    if a == p + 7 then None else
    var v := RunEnd(s, a, IsDefaultChar);
    if v == a then None else Some(s[a..v])
  }

  /** The default value is the whole run of value characters after the keyword. */
  lemma DefaultAtMaximal(s: string, p: nat)
    ensures DefaultAt(s, p).Some? ==> MaximalDefault(s, p, DefaultAt(s, p).value)
  {
    if DefaultAt(s, p).Some? {
      var a := SpacesEnd(s, p + 7);
      var v := RunEnd(s, a, IsDefaultChar);
      assert s[a..v] <= s[a..];
    }
  }

  /** The value sits after the keyword at `p` and the run of value characters ends with it:
      the string ends there or a space or comma follows. */
  ghost predicate MaximalDefault(s: string, p: nat, value: string) {
    exists a :: p + 7 < a <= |s| && value <= s[a..]
                && (a + |value| == |s| || !IsDefaultChar(s[a + |value|]))
  }

  /** `FindStringSubmatch` of the default pattern: the leftmost match at or after `from`. */
  function FirstDefault(s: string, from: nat): (r: Option<string>)
    ensures r.Some? ==> r.value != [] && forall k :: 0 <= k < |r.value| ==> IsDefaultChar(r.value[k])
    decreases |s| - from
  {
    if from >= |s| then None
    else if DefaultAt(s, from).Some? then DefaultAt(s, from)
    else FirstDefault(s, from + 1)
  }

  /** The comment pattern anchored at `p`: the text between the quotes. */
  function CommentAt(s: string, p: nat): (r: Option<string>)
    ensures r.Some? ==> '\'' !in r.value
  {
    if !KeywordAt(s, p, "COMMENT") then None else
    var a := SpacesEnd(s, p + 7);
    if a == p + 7 || !CharAt(s, a, '\'') then None else
    var e := UntilChar(s, a + 1, '\'');
    if e == |s| then None else
    UntilCharAbsent(s, a + 1, '\'');
    Some(s[a + 1..e])
  }

  function FirstComment(s: string, from: nat): (r: Option<string>)
    ensures r.Some? ==> '\'' !in r.value
    decreases |s| - from
  {
    if from >= |s| then None
    else if CommentAt(s, from).Some? then CommentAt(s, from)
    else FirstComment(s, from + 1)
  }

  // ---------------------------------------------------------------------------------------
  // (?i)PRIMARY\s+KEY\s*\(([^)]+)\)

  /** The primary-key pattern anchored at `p`: the text between the parentheses. */
  function PrimaryKeyAt(s: string, p: nat): (r: Option<string>)
    ensures r.Some? ==> r.value != [] && ')' !in r.value
    ensures ')' !in s ==> r.None?
  {
    if !KeywordAt(s, p, "PRIMARY") then None else
    var a := SpacesEnd(s, p + 7);
    if a == p + 7 || !KeywordAt(s, a, "KEY") then None else
    var b := SpacesEnd(s, a + 3);
    if !CharAt(s, b, '(') then None else
    var e := UntilChar(s, b + 1, ')');
    if e == b + 1 || e == |s| then None else
    UntilCharAbsent(s, b + 1, ')');
    assert s[e] in s;
    Some(s[b + 1..e])
  }

  function FirstPrimaryKey(s: string, from: nat): (r: Option<string>)
    ensures r.Some? ==> r.value != [] && ')' !in r.value
    ensures ')' !in s ==> r.None?
    decreases |s| - from
  {
    if from >= |s| then None
    else if PrimaryKeyAt(s, from).Some? then PrimaryKeyAt(s, from)
    else FirstPrimaryKey(s, from + 1)
  }

  // ---------------------------------------------------------------------------------------
  // (?i)(?:CONSTRAINT\s+(\w+)\s+)?FOREIGN\s+KEY\s*\([q]?(\w+)[q]?\)\s*REFERENCES\s+
  //     [q]?(\w+)[q]?\s*\([q]?(\w+)[q]?\)

  /** A foreign-key match; `constraintName` is empty when the optional group did not take part. */
  datatype FkMatch = FkMatch(constraintName: string, column: string, refTable: string, refColumn: string, end: nat)

  /** The optional group `CONSTRAINT\s+(\w+)\s+` at `p`: the name and where the group ends. */
  function ConstraintGroup(s: string, p: nat): (r: Option<(string, nat)>)
    ensures r.Some? ==> r.value.0 != [] && p < r.value.1 <= |s|
  {
    if !KeywordAt(s, p, "CONSTRAINT") then None else
    var a := SpacesEnd(s, p + 10);
    if a == p + 10 then None else
    var w := WordEnd(s, a, true);
    if w == a then None else
    var b := SpacesEnd(s, w);
    if b == w then None else Some((s[a..w], b))
  }

  /** `[q]?(\w+)[q]?` at `i`: the word and where the optional closing quote ends. */
  function QuotedWord(s: string, i: nat): (r: Option<(string, nat)>)
    requires i <= |s|
    ensures r.Some? ==> r.value.0 != [] && i < r.value.1 <= |s|
  {
    var q := QuoteOpenEnd(s, i);
    var w := WordEnd(s, q, true);
    if w == q then None else Some((s[q..w], QuoteCloseEnd(s, w)))
  }

  /** `FOREIGN\s+KEY\s*\([q]?(\w+)[q]?\)` at `i`: the column and where the `)` ends. */
  function FkColumnPart(s: string, i: nat): (r: Option<(string, nat)>)
    ensures r.Some? ==> r.value.0 != [] && i < r.value.1 <= |s|
  {
    if !KeywordAt(s, i, "FOREIGN") then None else
    var a := SpacesEnd(s, i + 7);
    if a == i + 7 || !KeywordAt(s, a, "KEY") then None else
    var b := SpacesEnd(s, a + 3);
    if !CharAt(s, b, '(') then None else
    var column := QuotedWord(s, b + 1);
    if column.None? || !CharAt(s, column.value.1, ')') then None else
    Some((column.value.0, column.value.1 + 1))
  }

  /** `\s*REFERENCES\s+` at `i`: where the referenced table name may start. */
  function ReferencesEnd(s: string, i: nat): (e: Option<nat>)
    requires i <= |s|
    ensures e.Some? ==> i < e.value <= |s|
  {
    var d := SpacesEnd(s, i);
    if !KeywordAt(s, d, "REFERENCES") then None else
    var e := SpacesEnd(s, d + 10);
    if e == d + 10 then None else Some(e)
  }

  /** `\s*REFERENCES\s+[q]?(\w+)[q]?\s*\([q]?(\w+)[q]?\)` at `i`: the referenced table and
      column, and where the final `)` ends. */
  function FkReferencePart(s: string, i: nat): (r: Option<(string, string, nat)>)
    requires i <= |s|
    ensures r.Some? ==> r.value.0 != [] && r.value.1 != [] && i < r.value.2 <= |s| && s[r.value.2 - 1] == ')'
  {
    var e := ReferencesEnd(s, i);
    if e.None? then None else
    var refTable := QuotedWord(s, e.value);
    if refTable.None? then None else
    var refColumn := ParenWord(s, refTable.value.1);
    if refColumn.None? then None else
    Some((refTable.value.0, refColumn.value.0, refColumn.value.1))
  }

  /** `\s*\([q]?(\w+)[q]?\)` at `i`: the word and where the `)` ends. */
  function ParenWord(s: string, i: nat): (r: Option<(string, nat)>)
    requires i <= |s|
    ensures r.Some? ==> r.value.0 != [] && i < r.value.1 <= |s| && s[r.value.1 - 1] == ')'
  {
    var f := SpacesEnd(s, i);
    if !CharAt(s, f, '(') then None else
    var w := QuotedWord(s, f + 1);
    if w.None? || !CharAt(s, w.value.1, ')') then None else
    Some((w.value.0, w.value.1 + 1))
  }

  /** The foreign-key pattern after its optional group, at `i`. */
  function FkTail(s: string, i: nat, name: string): (r: Option<FkMatch>)
    ensures r.Some? ==> i < r.value.end <= |s| && s[r.value.end - 1] == ')'
    ensures r.Some? ==> r.value.constraintName == name && r.value.column != [] && r.value.refTable != [] && r.value.refColumn != []
  {
    var column := FkColumnPart(s, i);
    if column.None? then None else
    var refs := FkReferencePart(s, column.value.1);
    if refs.None? then None else
    Some(FkMatch(name, column.value.0, refs.value.0, refs.value.1, refs.value.2))
  }

  /** The foreign-key pattern anchored at `p`, preferring the match with the CONSTRAINT group. */
  function FkAt(s: string, p: nat): (r: Option<FkMatch>)
    ensures ClosesAfter(s, p, r)
    ensures ')' !in s ==> r.None?
  {
    var r := PreferConstraint(s, p, ConstraintGroup(s, p));
    assert r.Some? ==> s[r.value.end - 1] in s;
    r
  }

  /** A match, when there is one, ends after `p`, inside `s` and just after a `)`. */
  predicate ClosesAfter(s: string, p: nat, r: Option<FkMatch>) {
    r.Some? ==> p < r.value.end <= |s| && s[r.value.end - 1] == ')'
  }

  /** The tail after the CONSTRAINT group, named after it, when the group matched and the
      tail matches after it, else the unnamed tail at `p`. */
  function PreferConstraint(s: string, p: nat, group: Option<(string, nat)>): (r: Option<FkMatch>)
    requires group.Some? ==> p < group.value.1 <= |s|
    ensures ClosesAfter(s, p, r)
  {
    var withGroup := if group.Some? then FkTail(s, group.value.1, group.value.0) else None;
    assert ClosesAfter(s, p, withGroup);
    var plain := FkTail(s, p, "");
    assert ClosesAfter(s, p, plain);
    if withGroup.Some? then withGroup else plain
  }

  /** `FindAllStringSubmatch` of the foreign-key pattern from `from`. */
  function FksFrom(s: string, from: nat): (ms: seq<FkMatch>) {
    FindAll(s, from, (p: nat) => FkAt(s, p), (m: FkMatch) => m.end)
  }


  // ---------------------------------------------------------------------------------------
  // (?i)CREATE\s+(UNIQUE\s+)?INDEX\s+[q]?(\w+)[q]?\s+ON\s+[q]?(\w+)[q]?\s*\(([^)]+)\)

  /** A CREATE INDEX match: group 1 (empty when absent), index name, table name, the column
      list text and where the match ends. */
  datatype IndexMatch = IndexMatch(uniqueGroup: string, name: string, table: string, columnList: string, end: nat)

  /** The index pattern after its optional UNIQUE group, at `i`. */
  function IndexTail(s: string, i: nat, uniqueGroup: string): (r: Option<IndexMatch>)
    ensures r.Some? ==> i < r.value.end <= |s|
    ensures r.Some? ==> r.value.uniqueGroup == uniqueGroup && r.value.name != [] && r.value.table != []
    ensures r.Some? ==> r.value.columnList != [] && ')' !in r.value.columnList
  {
    if !KeywordAt(s, i, "INDEX") then None else
    var a := SpacesEnd(s, i + 5);
    if a == i + 5 then None else
    var name := QuotedWord(s, a);
    if name.None? then None else
    var on := IndexOnPart(s, name.value.1);
    if on.None? then None else
    Some(IndexMatch(uniqueGroup, name.value.0, on.value.0, on.value.1, on.value.2))
  }

  /** `\s+ON\s+[q]?(\w+)[q]?\s*\(([^)]+)\)` at `i`: the table name, the column list text and
      where the final `)` ends. */
  function IndexOnPart(s: string, i: nat): (r: Option<(string, string, nat)>)
    requires i <= |s|
    ensures r.Some? ==> r.value.0 != [] && r.value.1 != [] && ')' !in r.value.1 && i < r.value.2 <= |s|
  {
    var b := SpacesEnd(s, i);
    if b == i || !KeywordAt(s, b, "ON") then None else
    var c := SpacesEnd(s, b + 2);
    if c == b + 2 then None else
    var table := QuotedWord(s, c);
    if table.None? then None else
    var d := SpacesEnd(s, table.value.1);
    if !CharAt(s, d, '(') then None else
    var e := UntilChar(s, d + 1, ')');
    if e == d + 1 || e == |s| then None else
    UntilCharAbsent(s, d + 1, ')');
    Some((table.value.0, s[d + 1..e], e + 1))
  }

  /** The index pattern anchored at `p`, preferring the match with the UNIQUE group. */
  function IndexAt(s: string, p: nat): (r: Option<IndexMatch>)
    ensures r.Some? ==> p < r.value.end <= |s|
    ensures r.Some? ==> r.value.name != [] && r.value.table != []
    ensures r.Some? ==> r.value.columnList != [] && ')' !in r.value.columnList
    ensures r.Some? ==> r.value.uniqueGroup == [] || FoldMatch(r.value.uniqueGroup[0], 'U')
  {
    if !KeywordAt(s, p, "CREATE") then None else
    var a := SpacesEnd(s, p + 6);
    if a == p + 6 then None else
    var u := if KeywordAt(s, a, "UNIQUE") then SpacesEnd(s, a + 6) else a;
    var withGroup := if u > a + 6 then IndexTail(s, u, s[a..u]) else None;
    if withGroup.Some? then withGroup else IndexTail(s, a, "")
  }

  /** `FindAllStringSubmatch` of the index pattern from `from`. */
  function IndexesFrom(s: string, from: nat): (ms: seq<IndexMatch>) {
    FindAll(s, from, (p: nat) => IndexAt(s, p), (m: IndexMatch) => m.end)
  }

}
