/** The pieces of RE2 syntax that the fixed patterns of the DDL parser are built from, each
    as a deterministic scanner over a string: a function from a position to the position
    after the piece (or to no position when the piece cannot match there). */
module ReScan {

  /** RE2's `\s`: tab, newline, form feed, carriage return and space (ASCII only). */
  predicate IsReSpace(c: char) {
    c == '\t' || c == '\n' || c == '\U{000C}' || c == '\r' || c == ' '
  }

  /** RE2's `\w` is `[0-9A-Za-z_]`. Under `(?i)` Go closes the class under simple case
      folding, which adds KELVIN SIGN (folds with `k`) and LATIN SMALL LETTER LONG S
      (folds with `s`). */
  predicate IsWordChar(c: char, fold: bool) {
    ('0' <= c <= '9') || ('A' <= c <= 'Z') || ('a' <= c <= 'z') || c == '_'
    || (fold && (c == '\U{212A}' || c == '\U{017F}'))
  }

  /** The opening quote class ``[`"'\[]`` of the parser's patterns. */
  predicate IsQuoteOpen(c: char) {
    c == '`' || c == '"' || c == '\'' || c == '['
  }

  /** The closing quote class ``[`"'\]]`` of the parser's patterns. */
  predicate IsQuoteClose(c: char) {
    c == '`' || c == '"' || c == '\'' || c == ']'
  }

  /** Whether `c` matches the pattern character `k` under `(?i)`, for a pattern written
      in upper-case ASCII: the letter's case-fold orbit, exact otherwise. */
  predicate FoldMatch(c: char, k: char) {
    c == k
    || ('A' <= k <= 'Z' && c == (k as int + 32) as char)
    || (k == 'K' && c == '\U{212A}')
    || (k == 'S' && c == '\U{017F}')
  }

  /** The literal `kw` matches, case-insensitively, at position `i` of `s`. */
  predicate KeywordAt(s: string, i: nat, kw: string)
    ensures KeywordAt(s, i, kw) ==> i + |kw| <= |s|
    decreases |kw|
  {
    if |kw| == 0 then i <= |s|
    else i < |s| && FoldMatch(s[i], kw[0]) && KeywordAt(s, i + 1, kw[1..])
  }

  /** End of the longest run of characters satisfying `p` that starts at `i`: the greedy
      `[class]*`. */
  function RunEnd(s: string, i: nat, p: char -> bool): (j: nat)
    requires i <= |s|
    ensures i <= j <= |s|
    ensures forall k :: i <= k < j ==> p(s[k])
    ensures j == |s| || !p(s[j])
    decreases |s| - i
  {
    if i < |s| && p(s[i]) then RunEnd(s, i + 1, p) else i
  }

  /** Greedy `\s*` from `i`. */
  function SpacesEnd(s: string, i: nat): (j: nat)
    requires i <= |s|
    ensures i <= j <= |s|
    decreases |s| - i
  {
    if i < |s| && IsReSpace(s[i]) then SpacesEnd(s, i + 1) else i
  }

  /** Greedy `\w*` from `i`. */
  function WordEnd(s: string, i: nat, fold: bool): (j: nat)
    requires i <= |s|
    ensures i <= j <= |s|
    decreases |s| - i
  {
    if i < |s| && IsWordChar(s[i], fold) then WordEnd(s, i + 1, fold) else i
  }

  /** The first index at or after `i` that holds `c`, or `|s|`: the lazy `[^c]*` before a `c`. */
  function UntilChar(s: string, i: nat, c: char): (j: nat)
    requires i <= |s|
    ensures i <= j <= |s|
    ensures j == |s| || s[j] == c
    decreases |s| - i
  {
    if i < |s| && s[i] != c then UntilChar(s, i + 1, c) else i
  }

  /** The optional opening quote ``[`"'\[]?``. Taking the quote is forced: none of the
      pieces that follow it in the patterns matches a quote character. */
  function QuoteOpenEnd(s: string, i: nat): (j: nat)
    requires i <= |s|
    ensures j <= |s|
    ensures if i < |s| && IsQuoteOpen(s[i]) then j == i + 1 else j == i
  {
    if i < |s| && IsQuoteOpen(s[i]) then i + 1 else i
  }

  /** The optional closing quote ``[`"'\]]?``. */
  function QuoteCloseEnd(s: string, i: nat): (j: nat)
    requires i <= |s|
    ensures j <= |s|
    ensures if i < |s| && IsQuoteClose(s[i]) then j == i + 1 else j == i
  {
    if i < |s| && IsQuoteClose(s[i]) then i + 1 else i
  }

  /** The character `c` stands at position `i`. */
  predicate CharAt(s: string, i: nat, c: char) {
    i < |s| && s[i] == c
  }

  /** A run of a class excluding ')' holds no ')'. */
  lemma {:induction false} UntilCharAbsent(s: string, i: nat, c: char)
    requires i <= |s|
    ensures c !in s[i..UntilChar(s, i, c)]
    decreases |s| - i
  {
    if i < |s| && s[i] != c {
      UntilCharAbsent(s, i + 1, c);
      assert s[i..UntilChar(s, i, c)] == [s[i]] + s[i + 1..UntilChar(s, i + 1, c)];
    }
  }

  /** Every character of a greedy `\w*` run is a word character. */
  lemma {:induction false} WordEndChars(s: string, i: nat, fold: bool)
    requires i <= |s|
    ensures forall k :: i <= k < WordEnd(s, i, fold) ==> IsWordChar(s[k], fold)
    decreases |s| - i
  {
    if i < |s| && IsWordChar(s[i], fold) {
      WordEndChars(s, i + 1, fold);
    }
  }
}
