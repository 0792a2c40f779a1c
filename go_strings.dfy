/** The parts of Go's `strings`, `unicode` and `fmt` packages that the core relies on,
    over strings as sequences of Unicode scalar values. */
module GoStrings {

  /** `unicode.IsSpace`: the Latin-1 spaces plus the Unicode White_Space characters. */
  predicate IsSpace(c: char) {
    c == ' ' || c == '\t' || c == '\n' || c == '\U{000B}' || c == '\U{000C}' || c == '\r'
    || c == '\U{0085}' || c == '\U{00A0}' || c == '\U{1680}'
    || ('\U{2000}' <= c <= '\U{200A}')
    || c == '\U{2028}' || c == '\U{2029}' || c == '\U{202F}' || c == '\U{205F}' || c == '\U{3000}'
  }

  /** A string that `strings.TrimSpace` leaves unchanged. */
  predicate Trimmed(s: string) {
    s == [] || (!IsSpace(s[0]) && !IsSpace(s[|s| - 1]))
  }

  /** The end of the run of characters satisfying `f` that starts at `i`. */
  function SpanEnd(s: string, i: nat, f: char -> bool): (j: nat)
    requires i <= |s|
    ensures i <= j <= |s|
    ensures j == |s| || !f(s[j])
    decreases |s| - i
  {
    if i < |s| && f(s[i]) then SpanEnd(s, i + 1, f) else i
  }

  /** The start of the run of characters satisfying `f` that ends at `j`, going no lower than `lo`. */
  function SpanStart(s: string, j: nat, lo: nat, f: char -> bool): (i: nat)
    requires lo <= j <= |s|
    ensures lo <= i <= j
    ensures i == lo || !f(s[i - 1])
    decreases j
  {
    if j > lo && f(s[j - 1]) then SpanStart(s, j - 1, lo, f) else j
  }

  lemma {:induction false} SpanEndAll(s: string, i: nat, f: char -> bool)
    requires i <= |s|
    ensures forall k :: i <= k < SpanEnd(s, i, f) ==> f(s[k])
    decreases |s| - i
  {
    if i < |s| && f(s[i]) {
      SpanEndAll(s, i + 1, f);
    }
  }

  /** A run going down from `j` stops above `lo` once it meets a character failing `f`. */
  lemma {:induction false} SpanStartAbove(s: string, j: nat, lo: nat, f: char -> bool)
    requires lo < j <= |s| && !f(s[lo])
    ensures SpanStart(s, j, lo, f) > lo
    decreases j
  {
    if j - 1 > lo && f(s[j - 1]) {
      SpanStartAbove(s, j - 1, lo, f);
    }
  }

  /** `strings.TrimFunc(s, f)`; `strings.Trim(s, cutset)` is this with `f` the membership
      test of `cutset`. */
  function TrimFunc(s: string, f: char -> bool): (r: string)
    ensures |r| <= |s|
    ensures r == [] || (!f(r[0]) && !f(r[|r| - 1]))
  {
    var l := SpanEnd(s, 0, f);
    var u := SpanStart(s, |s|, l, f);
    if l == u then [] else
    SpanStartAbove(s, |s|, l, f);
    s[l..u]
  }

  /** `strings.TrimSpace`: `strings.TrimFunc` with `unicode.IsSpace`. */
  function TrimSpace(s: string): (r: string)
    ensures Trimmed(r)
    ensures |r| <= |s|
  {
    TrimFunc(s, IsSpace)
  }

  /** Every character `strings.TrimSpace` keeps comes from its argument. */
  lemma TrimSpaceChars(s: string)
    ensures forall c :: c in TrimSpace(s) ==> c in s
  {
    var l := SpanEnd(s, 0, IsSpace);
    var u := SpanStart(s, |s|, l, IsSpace);
    forall c | c in TrimSpace(s) ensures c in s {
      var k :| 0 <= k < |TrimSpace(s)| && TrimSpace(s)[k] == c;
      assert s[l + k] == c;
    }
  }

  lemma TrimmedFixed(s: string)
    requires Trimmed(s)
    ensures TrimSpace(s) == s
  {
    if |s| > 0 {
      assert SpanEnd(s, 0, IsSpace) == 0;
      assert SpanStart(s, |s|, 0, IsSpace) == |s|;
      assert s[0..|s|] == s;
    }
  }

  /** A string of spaces only trims to the empty string, and only such a string does. */
  lemma TrimSpaceEmpty(s: string)
    ensures TrimSpace(s) == "" <==> forall i :: 0 <= i < |s| ==> IsSpace(s[i])
  {
    var l := SpanEnd(s, 0, IsSpace);
    SpanEndAll(s, 0, IsSpace);
    if l < |s| {
      SpanStartAbove(s, |s|, l, IsSpace);
    }
  }

  /** A run that provably stops at `j` ends there. */
  lemma {:induction false} SpanEndTo(s: string, i: nat, j: nat, f: char -> bool)
    requires i <= j <= |s|
    requires forall k :: i <= k < j ==> f(s[k])
    requires j == |s| || !f(s[j])
    ensures SpanEnd(s, i, f) == j
    decreases j - i
  {
    if i < j {
      SpanEndTo(s, i + 1, j, f);
    }
  }

  /** A run going down from `j` that provably stops at `i` starts there. */
  lemma {:induction false} SpanStartTo(s: string, j: nat, i: nat, lo: nat, f: char -> bool)
    requires lo <= i <= j <= |s|
    requires forall k :: i <= k < j ==> f(s[k])
    requires i == lo || !f(s[i - 1])
    ensures SpanStart(s, j, lo, f) == i
    decreases j
  {
    if i < j {
      SpanStartTo(s, j - 1, i, lo, f);
    }
  }

  /** Trimming removes exactly the white space around a trimmed, non-empty text. */
  lemma TrimSpacePadded(pre: string, x: string, post: string)
    requires forall k :: 0 <= k < |pre| ==> IsSpace(pre[k])
    requires forall k :: 0 <= k < |post| ==> IsSpace(post[k])
    requires x != [] && Trimmed(x)
    ensures TrimSpace(pre + x + post) == x
  {
    var s := pre + x + post;
    assert forall k :: 0 <= k < |pre| ==> s[k] == pre[k];
    assert forall k :: |pre| + |x| <= k < |s| ==> s[k] == post[k - |pre| - |x|];
    assert s[|pre|] == x[0] && s[|pre| + |x| - 1] == x[|x| - 1];
    SpanEndTo(s, 0, |pre|, IsSpace);
    SpanStartTo(s, |s|, |pre| + |x|, |pre|, IsSpace);
    assert s[|pre|..|pre| + |x|] == x;
  }

  /** `strings.HasPrefix`. */
  predicate HasPrefix(s: string, p: string) {
    |p| <= |s| && s[..|p|] == p
  }

  /** `strings.HasSuffix`. */
  predicate HasSuffix(s: string, p: string) {
    |p| <= |s| && s[|s| - |p|..] == p
  }

  /** `strings.TrimPrefix`. */
  function TrimPrefix(s: string, p: string): (r: string)
    ensures HasPrefix(s, p) ==> s == p + r
    ensures !HasPrefix(s, p) ==> r == s
  {
    if HasPrefix(s, p) then s[|p|..] else s
  }

  /** `strings.TrimSuffix`. */
  function TrimSuffix(s: string, p: string): (r: string)
    ensures HasSuffix(s, p) ==> s == r + p
    ensures !HasSuffix(s, p) ==> r == s
  {
    if HasSuffix(s, p) then s[..|s| - |p|] else s
  }

  /** `strings.Contains`: `t` occurs somewhere in `s`. */
  predicate Contains(s: string, t: string)
    decreases |s|
  {
    HasPrefix(s, t) || (|s| > 0 && Contains(s[1..], t))
  }

  /** `Contains` holds exactly when `t` occurs at some index of `s`. */
  lemma {:induction false} ContainsIff(s: string, t: string)
    ensures Contains(s, t) <==> exists i :: 0 <= i <= |s| - |t| && HasPrefix(s[i..], t)
    decreases |s|
  {
    assert s[0..] == s;
    if |s| > 0 {
      ContainsIff(s[1..], t);
      if Contains(s[1..], t) {
        var i :| 0 <= i <= |s[1..]| - |t| && HasPrefix(s[1..][i..], t);
        assert s[1..][i..] == s[i + 1..];
      }
      if exists i :: 0 <= i <= |s| - |t| && HasPrefix(s[i..], t) {
        var i :| 0 <= i <= |s| - |t| && HasPrefix(s[i..], t);
        if i > 0 {
          assert s[1..][i - 1..] == s[i..];
        }
      }
    } else if |t| == 0 {
      assert HasPrefix(s[0..], t);
    } else {
      assert !HasPrefix(s, t);
    }
  }

  lemma ContainsAt(s: string, t: string, i: nat)
    requires i + |t| <= |s| && s[i..i + |t|] == t
    ensures Contains(s, t)
  {
    assert HasPrefix(s[i..], t);
    ContainsIff(s, t);
  }

  /** A string contains every string that occurs in one of its parts. */
  lemma ContainsInSuffix(a: string, b: string, t: string)
    requires Contains(b, t)
    ensures Contains(a + b, t)
  {
    ContainsIff(b, t);
    var i :| 0 <= i <= |b| - |t| && HasPrefix(b[i..], t);
    assert (a + b)[|a| + i..][..|t|] == b[i..][..|t|];
    ContainsAt(a + b, t, |a| + i);
  }

  lemma ContainsInPrefix(a: string, b: string, t: string)
    requires Contains(a, t)
    ensures Contains(a + b, t)
  {
    ContainsIff(a, t);
    var i :| 0 <= i <= |a| - |t| && HasPrefix(a[i..], t);
    assert (a + b)[i..][..|t|] == a[i..][..|t|];
    ContainsAt(a + b, t, i);
  }

  /** A non-empty string cannot occur in a string that lacks its first character. */
  lemma NotContainsWithoutFirst(s: string, t: string)
    requires |t| > 0 && t[0] !in s
    ensures !Contains(s, t)
  {
    ContainsIff(s, t);
    forall i | 0 <= i <= |s| - |t| ensures !HasPrefix(s[i..], t) {
      assert s[i..][..|t|][0] == s[i];
      assert s[i] in s;
    }
  }

  /** Splitting on a separator character, as `strings.Split(s, string(c))`. */
  function Split(s: string, c: char): (parts: seq<string>)
    ensures |parts| >= 1
    decreases |s|
  {
    if |s| == 0 then [""]
    else
      var rest := Split(s[1..], c);
      if s[0] == c then [""] + rest
      else [[s[0]] + rest[0]] + rest[1..]
  }

  /** The text before the first `c`, or all of `s` when there is none. */
  function FirstField(s: string, c: char): (r: string)
    ensures |r| <= |s| && r == s[..|r|] && c !in r
    ensures |r| == |s| || s[|r|] == c
    decreases |s|
  {
    if |s| == 0 || s[0] == c then "" else [s[0]] + FirstField(s[1..], c)
  }

  /** `strings.Split(s, string(c))[0]` is the text before the first `c`. */
  lemma {:induction false} SplitFirstField(s: string, c: char)
    ensures Split(s, c)[0] == FirstField(s, c)
    decreases |s|
  {
    if |s| > 0 && s[0] != c {
      SplitFirstField(s[1..], c);
    }
  }

  /** No part of a split holds the separator. */
  lemma {:induction false} SplitParts(s: string, c: char)
    ensures forall i :: 0 <= i < |Split(s, c)| ==> c !in Split(s, c)[i]
    decreases |s|
  {
    if |s| > 0 {
      SplitParts(s[1..], c);
    }
  }

  /** Every character of a part of a split is a character of the string split. */
  lemma {:induction false} SplitChars(s: string, c: char, i: nat, d: char)
    requires i < |Split(s, c)| && d in Split(s, c)[i]
    ensures d in s
    decreases |s|
  {
    if |s| > 0 {
      var rest := Split(s[1..], c);
      if s[0] == c {
        SplitChars(s[1..], c, i - 1, d);
      } else if i == 0 {
        if d != s[0] {
          assert d in rest[0];
          SplitChars(s[1..], c, 0, d);
        }
      } else {
        SplitChars(s[1..], c, i, d);
      }
    }
  }

  /** `strings.Join`. */
  function Join(parts: seq<string>, sep: string): string
    decreases |parts|
  {
    if |parts| == 0 then ""
    else if |parts| == 1 then parts[0]
    else parts[0] + sep + Join(parts[1..], sep)
  }

  lemma SplitWithout(s: string, c: char)
    requires c !in s
    ensures Split(s, c) == [s]
    decreases |s|
  {
    if |s| > 0 {
      SplitWithout(s[1..], c);
      assert [s[0]] + s[1..] == s;
    }
  }

  /** Joining one more part adds the separator and the part. */
  lemma {:induction false} JoinAppend(parts: seq<string>, x: string, sep: string)
    requires |parts| > 0
    ensures Join(parts + [x], sep) == Join(parts, sep) + sep + x
    decreases |parts|
  {
    if |parts| > 1 {
      JoinAppend(parts[1..], x, sep);
      assert (parts + [x])[1..] == parts[1..] + [x];
    } else {
      assert (parts + [x])[1..] == [x];
    }
  }

  /** A character found in no part and not in the separator is not in the join. */
  lemma {:induction false} JoinExcludes(parts: seq<string>, sep: string, c: char)
    requires c !in sep
    requires forall i :: 0 <= i < |parts| ==> c !in parts[i]
    ensures c !in Join(parts, sep)
    decreases |parts|
  {
    if |parts| > 1 {
      JoinExcludes(parts[1..], sep, c);
    }
  }

  /** Splitting distributes over a separator occurrence. */
  lemma {:induction false} SplitAround(a: string, c: char, b: string)
    ensures Split(a + [c] + b, c) == Split(a, c) + Split(b, c)
    decreases |a|
  {
    var s := a + [c] + b;
    if |a| == 0 {
      assert s == [c] + b && s[1..] == b;
    } else {
      assert s[0] == a[0] && s[1..] == a[1..] + [c] + b;
      SplitAround(a[1..], c, b);
      var tail := Split(a[1..], c);
      var rest := Split(s[1..], c);
      assert rest == tail + Split(b, c);
      if a[0] != c {
        assert rest[0] == tail[0];
        assert rest[1..] == tail[1..] + Split(b, c);
        assert Split(s, c) == [[a[0]] + rest[0]] + rest[1..];
        assert Split(a, c) == [[a[0]] + tail[0]] + tail[1..];
      }
    }
  }

  /** Joining the parts of a split gives the string back. */
  lemma {:induction false} JoinSplit(s: string, c: char)
    ensures Join(Split(s, c), [c]) == s
    decreases |s|
  {
    if |s| > 0 {
      JoinSplit(s[1..], c);
      var rest := Split(s[1..], c);
      if s[0] == c {
        assert Join([""] + rest, [c]) == "" + [c] + Join(rest, [c]);
      } else {
        var parts := [[s[0]] + rest[0]] + rest[1..];
        if |rest| == 1 {
          assert Join(parts, [c]) == [s[0]] + rest[0];
        } else {
          assert Join(rest, [c]) == rest[0] + [c] + Join(rest[1..], [c]);
          assert parts[1..] == rest[1..];
        }
        assert [s[0]] + s[1..] == s;
      }
    }
  }

  /** Splitting a join of separator-free parts gives the parts back. */
  lemma {:induction false} SplitJoin(parts: seq<string>, c: char)
    requires |parts| >= 1
    requires forall i :: 0 <= i < |parts| ==> c !in parts[i]
    ensures Split(Join(parts, [c]), c) == parts
    decreases |parts|
  {
    if |parts| == 1 {
      SplitWithout(parts[0], c);
    } else {
      SplitJoin(parts[1..], c);
      SplitAround(parts[0], c, Join(parts[1..], [c]));
      SplitWithout(parts[0], c);
      assert [parts[0]] + parts[1..] == parts;
    }
  }

  /** Go's simple upper-case mapping, kept exact for every character whose image is ASCII. */
  function UpperChar(c: char): char {
    if 'a' <= c <= 'z' then (c as int - 32) as char
    else if c == '\U{0131}' then 'I'
    else if c == '\U{017F}' then 'S'
    else c
  }

  /** Go's simple lower-case mapping, kept exact for every character whose image is ASCII. */
  function LowerChar(c: char): char {
    if 'A' <= c <= 'Z' then (c as int + 32) as char
    else if c == '\U{0130}' then 'i'
    else if c == '\U{212A}' then 'k'
    else c
  }

  /** `strings.ToUpper`. */
  function ToUpper(s: string): (r: string)
    ensures |r| == |s|
  {
    seq(|s|, i requires 0 <= i < |s| => UpperChar(s[i]))
  }

  /** `strings.ToLower`. */
  function ToLower(s: string): (r: string)
    ensures |r| == |s|
  {
    seq(|s|, i requires 0 <= i < |s| => LowerChar(s[i]))
  }

  lemma ToUpperAppend(a: string, b: string)
    ensures ToUpper(a + b) == ToUpper(a) + ToUpper(b)
  {
  }

  /** Case-folding key of a character for `strings.EqualFold`. */
  function FoldChar(c: char): char {
    if c == '\U{212A}' then 'k'
    else if c == '\U{017F}' then 's'
    else if 'A' <= c <= 'Z' then (c as int + 32) as char
    else c
  }

  /** `strings.EqualFold`. */
  predicate EqualFold(a: string, b: string) {
    |a| == |b| && forall i :: 0 <= i < |a| ==> FoldChar(a[i]) == FoldChar(b[i])
  }

  /** `strings.ReplaceAll(s, pat, rep)` for a non-empty `pat`: leftmost, non-overlapping. */
  function ReplaceAll(s: string, pat: string, rep: string): (r: string)
    requires |pat| > 0
    decreases |s|
  {
    if |s| < |pat| then s
    else if s[..|pat|] == pat then rep + ReplaceAll(s[|pat|..], pat, rep)
    else [s[0]] + ReplaceAll(s[1..], pat, rep)
  }

  /** Nothing is replaced in a string that does not contain `pat`. */
  lemma {:induction false} ReplaceAllAbsent(s: string, pat: string, rep: string)
    requires |pat| > 0 && !Contains(s, pat)
    ensures ReplaceAll(s, pat, rep) == s
    decreases |s|
  {
    if |s| >= |pat| {
      assert !HasPrefix(s, pat);
      ReplaceAllAbsent(s[1..], pat, rep);
      assert [s[0]] + s[1..] == s;
    }
  }

  /** `strings.Replace(s, pat, rep, 1)` for a non-empty `pat`. */
  function ReplaceFirst(s: string, pat: string, rep: string): (r: string)
    requires |pat| > 0
    decreases |s|
  {
    if HasPrefix(s, pat) then rep + s[|pat|..]
    else if |s| == 0 then s
    else [s[0]] + ReplaceFirst(s[1..], pat, rep)
  }

  lemma {:induction false} ReplaceFirstAbsent(s: string, pat: string, rep: string)
    requires |pat| > 0 && !Contains(s, pat)
    ensures ReplaceFirst(s, pat, rep) == s
    decreases |s|
  {
    if |s| > 0 {
      ReplaceFirstAbsent(s[1..], pat, rep);
      assert [s[0]] + s[1..] == s;
    }
  }

  predicate IsDigit(c: char) {
    '0' <= c <= '9'
  }

  /** End of the run of decimal digits that starts at `i`. */
  function DigitsEnd(s: string, i: nat): (j: nat)
    requires i <= |s|
    ensures i <= j <= |s|
    ensures forall k :: i <= k < j ==> IsDigit(s[k])
    ensures j == |s| || !IsDigit(s[j])
    decreases |s| - i
  {
    if i < |s| && IsDigit(s[i]) then DigitsEnd(s, i + 1) else i
  }

  /** The value of a string of decimal digits. */
  function DigitsValue(ds: string): (v: nat)
    requires forall k :: 0 <= k < |ds| ==> IsDigit(ds[k])
    decreases |ds|
  {
    if |ds| == 0 then 0
    else assert IsDigit(ds[|ds| - 1]); DigitsValue(ds[..|ds| - 1]) * 10 + (ds[|ds| - 1] as int - '0' as int)
  }

  const MinInt64: int := -0x8000_0000_0000_0000
  const MaxInt64: int := 0x7FFF_FFFF_FFFF_FFFF

  /** What `fmt.Sscanf(s, "%d", &v)` leaves in a `v` that starts at 0: an optional sign and
      at least one digit give their value when it fits in 64 bits; anything else fails and
      leaves 0. Text after the digits is ignored. */
  function ScanInt(s: string): (v: int)
    ensures MinInt64 <= v <= MaxInt64
    ensures (|s| == 0 || (!IsDigit(s[0]) && s[0] != '+' && s[0] != '-')) ==> v == 0
  {
    var signed := |s| > 0 && (s[0] == '+' || s[0] == '-');
    var start := if signed then 1 else 0;
    var end := DigitsEnd(s, start);
    if end == start then 0
    else
      var magnitude: int := DigitsValue(s[start..end]);
      var value: int := if signed && s[0] == '-' then -magnitude else magnitude;
      if MinInt64 <= value <= MaxInt64 then value else 0
  }

  // ---------------------------------------------------------------------------------------
  // Building strings piece by piece

  /** `f` applied to every element, in order. */
  function Each<A>(xs: seq<A>, f: A -> string): (ys: seq<string>)
    ensures |ys| == |xs|
  {
    seq(|xs|, i requires 0 <= i < |xs| => f(xs[i]))
  }

  lemma EachStep<A>(xs: seq<A>, f: A -> string, i: nat)
    requires i < |xs|
    ensures Each(xs[..i + 1], f) == Each(xs[..i], f) + [f(xs[i])]
  {
  }

  /** The texts `f` gives the elements, one after the other: what a loop writes into a
      `strings.Builder`. */
  function Concat<A>(xs: seq<A>, f: A -> string): string
    decreases |xs|
  {
    if |xs| == 0 then "" else Concat(xs[..|xs| - 1], f) + f(xs[|xs| - 1])
  }

  lemma ConcatStep<A>(xs: seq<A>, f: A -> string, i: nat)
    requires i < |xs|
    ensures Concat(xs[..i + 1], f) == Concat(xs[..i], f) + f(xs[i])
  {
    assert xs[..i + 1][..i] == xs[..i];
  }

  lemma {:induction false} ConcatAppend<A>(xs: seq<A>, ys: seq<A>, f: A -> string)
    ensures Concat(xs + ys, f) == Concat(xs, f) + Concat(ys, f)
    decreases |ys|
  {
    if |ys| == 0 {
      assert xs + ys == xs;
    } else {
      var init := ys[..|ys| - 1];
      ConcatAppend(xs, init, f);
      assert (xs + ys)[..|xs + ys| - 1] == xs + init;
    }
  }

  /** The text of a list splits around any one element's text. */
  lemma {:induction false} ConcatAt<A>(xs: seq<A>, f: A -> string, k: nat)
    requires k < |xs|
    ensures Concat(xs, f) == Concat(xs[..k], f) + f(xs[k]) + Concat(xs[k + 1..], f)
    decreases |xs|
  {
    var init, last := xs[..|xs| - 1], xs[|xs| - 1];
    assert Concat(xs, f) == Concat(init, f) + f(last);
    if k == |xs| - 1 {
      assert xs[..k] == init && xs[k + 1..] == [];
    } else {
      ConcatAt(init, f, k);
      assert init[..k] == xs[..k] && init[k] == xs[k];
      var tail := xs[k + 1..];
      assert tail[..|tail| - 1] == init[k + 1..] && tail[|tail| - 1] == last;
      assert Concat(tail, f) == Concat(init[k + 1..], f) + f(last);
    }
  }

  lemma PrefixOfAppend(a: string, b: string)
    ensures HasPrefix(a + b, a)
  {
    assert (a + b)[..|a|] == a;
  }
}
