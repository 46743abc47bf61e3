/**
 * The string operations the cleaning scripts apply to cell text: Python's
 * `str.strip`, `str.lower`, `str.upper`, character replacement and the three
 * regular expressions they use (`\s+`, `\s*;\s*` and a literal search in
 * which `.` is a wildcard).
 *
 * The CSV files are read as Latin-1, so every character is below U+0100.
 * Whitespace and letter case are Python's notions over that range: the
 * capitals are `A`-`Z` and `À`-`Þ` except `×`, each lower-cased by adding 32.
 */
module Text {

  /** Python `str.isspace` (and what `\s` matches) on the Latin-1 range. */
  predicate IsSpace(c: char) {
    c == ' ' || ('\t' <= c <= '\r') || ('\U{1C}' <= c <= '\U{1F}') || c == '\U{85}' || c == '\U{A0}'
  }

  /** A capital letter of Latin-1: `A`-`Z` and `À`-`Þ` except the sign `×`. */
  predicate IsUpper(c: char) {
    ('A' <= c <= 'Z') || ('\U{C0}' <= c <= '\U{DE}' && c != '\U{D7}')
  }

  /** A small letter of Latin-1: `a`-`z` and `ß`-`ÿ` except the sign `÷`. */
  predicate IsLower(c: char) {
    ('a' <= c <= 'z') || ('\U{DF}' <= c <= '\U{FF}' && c != '\U{F7}')
  }

  /** Python's lower case of a Latin-1 character. */
  function ToLower(c: char): char {
    if IsUpper(c) then (c as int + 32) as char else c
  }

  /**
   * Python's upper case of a Latin-1 character: `ÿ` and `µ` leave the range
   * (U+0178 and U+039C); `ß`, whose upper case is the two letters "SS", is
   * kept as it is.
   */
  function ToUpper(c: char): char {
    if ('a' <= c <= 'z') || ('\U{E0}' <= c <= '\U{FE}' && c != '\U{F7}') then (c as int - 32) as char
    else if c == '\U{FF}' then '\U{178}'
    else if c == '\U{B5}' then '\U{39C}'
    else c
  }

  /** `str.lower()`. */
  function Lower(s: string): (r: string)
    ensures |r| == |s|
    ensures forall i :: 0 <= i < |s| ==> r[i] == ToLower(s[i])
  {
    seq(|s|, i requires 0 <= i < |s| => ToLower(s[i]))
  }

  /** `str.upper()`. */
  function Upper(s: string): (r: string)
    ensures |r| == |s|
    ensures forall i :: 0 <= i < |s| ==> r[i] == ToUpper(s[i])
  {
    seq(|s|, i requires 0 <= i < |s| => ToUpper(s[i]))
  }

  /** `str.replace(c, d)` for single characters. */
  function ReplaceChar(s: string, c: char, d: char): (r: string)
    ensures |r| == |s|
    ensures forall i :: 0 <= i < |s| ==> r[i] == (if s[i] == c then d else s[i])
  {
    seq(|s|, i requires 0 <= i < |s| => if s[i] == c then d else s[i])
  }

  /** `str.replace(c, "")`: every occurrence of `c` deleted. */
  function Delete(s: string, c: char): string {
    if s == [] then [] else (if s[0] == c then [] else [s[0]]) + Delete(s[1..], c)
  }

  /** `re.sub(r"[$\s]", "", s)`: every dollar sign and whitespace character deleted. */
  function DeleteDollarAndSpace(s: string): string {
    if s == [] then []
    else (if s[0] == '$' || IsSpace(s[0]) then [] else [s[0]]) + DeleteDollarAndSpace(s[1..])
  }

  /** The characters of `s` that are not whitespace, in order. */
  function NonSpace(s: string): string {
    if s == [] then [] else (if IsSpace(s[0]) then [] else [s[0]]) + NonSpace(s[1..])
  }

  /** Number of occurrences of `c` in `s`. */
  function Count(s: string, c: char): nat {
    if s == [] then 0 else (if s[0] == c then 1 else 0) + Count(s[1..], c)
  }

  predicate AllSpace(s: string) {
    forall k :: 0 <= k < |s| ==> IsSpace(s[k])
  }

  /** Number of whitespace characters `s` starts with. */
  function LeadingSpaces(s: string): (n: nat)
    ensures n <= |s|
    ensures forall k :: 0 <= k < n ==> IsSpace(s[k])
    ensures n < |s| ==> !IsSpace(s[n])
  {
    if s != [] && IsSpace(s[0]) then 1 + LeadingSpaces(s[1..]) else 0
  }

  /** Number of whitespace characters `s` ends with. */
  function TrailingSpaces(s: string): (n: nat)
    ensures n <= |s|
    ensures forall k :: |s| - n <= k < |s| ==> IsSpace(s[k])
    ensures n < |s| ==> !IsSpace(s[|s| - n - 1])
  {
    if s != [] && IsSpace(s[|s| - 1]) then 1 + TrailingSpaces(s[..|s| - 1]) else 0
  }

  /** `str.strip()`: what lies between the leading and the trailing whitespace. */
  function Strip(s: string): (r: string)
    ensures LeadingSpaces(s) + |r| <= |s|
    ensures r == s[LeadingSpaces(s)..LeadingSpaces(s) + |r|]
    ensures forall k :: LeadingSpaces(s) + |r| <= k < |s| ==> IsSpace(s[k])
    ensures Stripped(r)
  {
    var i := LeadingSpaces(s);
    var t := s[i..];
    var n := |t| - TrailingSpaces(t);
    var r := t[..n];
    assert r == s[i..i + n];
    assert forall k :: i + n <= k < |s| ==> IsSpace(s[k]) by {
      forall k | i + n <= k < |s|
        ensures IsSpace(s[k])
      {
        assert s[k] == t[k - i];
      }
    }
    assert r != [] ==> r[0] == s[i] && r[n - 1] == t[n - 1];
    r
  }

  predicate Stripped(s: string) {
    s == [] || (!IsSpace(s[0]) && !IsSpace(s[|s| - 1]))
  }

  predicate NoUpper(s: string) {
    forall i :: 0 <= i < |s| ==> !IsUpper(s[i])
  }

  /** Every whitespace character is a single plain space. */
  predicate Collapsed(s: string) {
    forall i :: 0 <= i < |s| && IsSpace(s[i]) ==> s[i] == ' ' && (i + 1 < |s| ==> !IsSpace(s[i + 1]))
  }

  /**
   * `re.sub(r"\s+", " ", s)`: every maximal run of whitespace becomes one
   * space; every other character is kept, in order (`CollapseCollapsed`,
   * `CollapseKeepsText`).
   */
  function Collapse(s: string): (r: string)
    decreases |s|
    ensures s == [] <==> r == []
    ensures s != [] ==> (IsSpace(r[0]) <==> IsSpace(s[0])) && (!IsSpace(s[0]) ==> r[0] == s[0])
  {
    if s == [] then []
    else if IsSpace(s[0]) then " " + CollapseRun(s[1..])
    else [s[0]] + Collapse(s[1..])
  }

  /** `Collapse` inside a run of whitespace whose single space has already been written. */
  function CollapseRun(s: string): (r: string)
    decreases |s|
    ensures r == [] || !IsSpace(r[0])
  {
    if s == [] then []
    else if IsSpace(s[0]) then CollapseRun(s[1..])
    else [s[0]] + Collapse(s[1..])
  }

  /**
   * `re.sub(r"\s*;\s*", ";", s)`: the whitespace on both sides of every
   * semicolon is deleted; every other character is kept, in order.
   */
  function NormalizeSemicolons(s: string): (r: string)
    ensures NoSpaceAroundSemicolons(r)
    ensures NonSpace(r) == NonSpace(s)
  {
    PendingTight(s, []);
    PendingKeepsText(s, []);
    SemicolonsPending(s, [])
  }

  /**
   * `NormalizeSemicolons` with a run of whitespace `pending` already read:
   * the run is written out unless the next character after it is a semicolon.
   */
  function SemicolonsPending(s: string, pending: string): string
    decreases |s|, 1
  {
    if s == [] then pending
    else if IsSpace(s[0]) then SemicolonsPending(s[1..], pending + [s[0]])
    else if s[0] == ';' then ";" + SemicolonsAfter(s[1..])
    else pending + [s[0]] + SemicolonsPending(s[1..], [])
  }

  /** `NormalizeSemicolons` just after a semicolon: the whitespace that follows it is dropped. */
  function SemicolonsAfter(s: string): (r: string)
    decreases |s|, 2
    ensures r == [] || !IsSpace(r[0])
  {
    if s != [] && IsSpace(s[0]) then SemicolonsAfter(s[1..]) else SemicolonsPending(s, [])
  }

  predicate NoSpaceAroundSemicolons(s: string) {
    forall i :: 0 <= i < |s| && s[i] == ';' ==>
      (i == 0 || !IsSpace(s[i - 1])) && (i + 1 == |s| || !IsSpace(s[i + 1]))
  }

  /** Does `pattern` match `s` at position 0?  A `.` in the pattern matches any character but a newline. */
  predicate MatchesAtStart(s: string, pattern: string) {
    |pattern| <= |s| && forall k :: 0 <= k < |pattern| ==> (if pattern[k] == '.' then s[k] != '\n' else s[k] == pattern[k])
  }

  /**
   * `Series.str.contains(pattern)` for a pattern whose only metacharacter is
   * `.`: the search tries every position from the left.
   */
  predicate ContainsPattern(s: string, pattern: string)
    decreases |s|
    ensures ContainsPattern(s, pattern) <==> exists k :: 0 <= k <= |s| && MatchesAtStart(s[k..], pattern)
  {
    MatchAtSomePosition(s, pattern);
    MatchesAtStart(s, pattern) || (s != [] && ContainsPattern(s[1..], pattern))
  }

  /** A match at some position of `s` is one at its start or one at some position of its tail. */
  lemma MatchAtSomePosition(s: string, pattern: string)
    ensures (exists k :: 0 <= k <= |s| && MatchesAtStart(s[k..], pattern)) <==>
            MatchesAtStart(s, pattern) ||
            (s != [] && exists k :: 0 <= k <= |s[1..]| && MatchesAtStart(s[1..][k..], pattern))
  {
    assert s[0..] == s;
    if s != [] {
      forall k | 1 <= k <= |s|
        ensures s[k..] == s[1..][k - 1..]
      {
      }
      if exists k :: 0 <= k <= |s| && MatchesAtStart(s[k..], pattern) {
        var k :| 0 <= k <= |s| && MatchesAtStart(s[k..], pattern);
        if k > 0 {
          assert MatchesAtStart(s[1..][k - 1..], pattern);
        }
      }
      if exists k :: 0 <= k <= |s[1..]| && MatchesAtStart(s[1..][k..], pattern) {
        var k :| 0 <= k <= |s[1..]| && MatchesAtStart(s[1..][k..], pattern);
        assert MatchesAtStart(s[k + 1..], pattern);
      }
    }
  }

  predicate StartsWith(s: string, prefix: string) {
    |prefix| <= |s| && s[..|prefix|] == prefix
  }

  /** The text `"nan"` once stripped and lower-cased: how pandas prints a missing value. */
  predicate IsNanText(s: string) {
    Lower(Strip(s)) == "nan"
  }

  // ---------------------------------------------------------------------
  // Lemmas

  lemma NonSpaceAppend(a: string, b: string)
    ensures NonSpace(a + b) == NonSpace(a) + NonSpace(b)
  {
    if a == [] {
      assert a + b == b;
    } else {
      assert (a + b)[1..] == a[1..] + b;
      NonSpaceAppend(a[1..], b);
    }
  }

  lemma NonSpaceOfSpaces(s: string)
    requires AllSpace(s)
    ensures NonSpace(s) == []
  {
    if s != [] {
      NonSpaceOfSpaces(s[1..]);
    }
  }

  lemma DeleteAppend(a: string, b: string, c: char)
    ensures Delete(a + b, c) == Delete(a, c) + Delete(b, c)
  {
    if a == [] {
      assert a + b == b;
    } else {
      assert (a + b)[1..] == a[1..] + b;
      DeleteAppend(a[1..], b, c);
    }
  }

  /** Deleting a character that does not occur changes nothing. */
  lemma {:induction false} DeleteAbsent(s: string, c: char)
    requires c !in s
    ensures Delete(s, c) == s
  {
    if s != [] {
      DeleteAbsent(s[1..], c);
      assert s == [s[0]] + s[1..];
    }
  }

  lemma DeleteDollarAndSpaceAppend(a: string, b: string)
    ensures DeleteDollarAndSpace(a + b) == DeleteDollarAndSpace(a) + DeleteDollarAndSpace(b)
  {
    if a == [] {
      assert a + b == b;
    } else {
      assert (a + b)[1..] == a[1..] + b;
      DeleteDollarAndSpaceAppend(a[1..], b);
    }
  }

  /** Deleting a character removes every occurrence of it and keeps everything else in order. */
  lemma {:induction false} DeleteRemovesOnly(s: string, c: char)
    ensures c !in Delete(s, c)
    ensures |Delete(s, c)| == |s| - Count(s, c)
    ensures forall d :: d != c ==> Count(Delete(s, c), d) == Count(s, d)
  {
    if s != [] {
      DeleteRemovesOnly(s[1..], c);
      forall d | d != c
        ensures Count(Delete(s, c), d) == Count(s, d)
      {
        CountAppend(if s[0] == c then [] else [s[0]], Delete(s[1..], c), d);
      }
    }
  }

  lemma CountAppend(a: string, b: string, c: char)
    ensures Count(a + b, c) == Count(a, c) + Count(b, c)
  {
    if a == [] {
      assert a + b == b;
    } else {
      assert (a + b)[1..] == a[1..] + b;
      CountAppend(a[1..], b, c);
    }
  }

  /** Replacing one character by another moves every occurrence and touches nothing else. */
  lemma {:induction false} ReplaceCharCounts(s: string, c: char, d: char)
    requires c != d
    ensures Count(ReplaceChar(s, c, d), c) == 0
    ensures Count(ReplaceChar(s, c, d), d) == Count(s, d) + Count(s, c)
    ensures forall e :: e != c && e != d ==> Count(ReplaceChar(s, c, d), e) == Count(s, e)
  {
    if s != [] {
      assert ReplaceChar(s, c, d)[1..] == ReplaceChar(s[1..], c, d);
      ReplaceCharCounts(s[1..], c, d);
    }
  }

  /** What is left of a string after `[$\s]` is deleted has neither dollar signs nor whitespace, and every other character survives. */
  lemma {:induction false} DeleteDollarAndSpaceSpec(s: string, c: char)
    ensures '$' !in DeleteDollarAndSpace(s)
    ensures forall i :: 0 <= i < |DeleteDollarAndSpace(s)| ==> !IsSpace(DeleteDollarAndSpace(s)[i])
    ensures c != '$' && !IsSpace(c) ==> Count(DeleteDollarAndSpace(s), c) == Count(s, c)
  {
    if s != [] {
      DeleteDollarAndSpaceSpec(s[1..], c);
      CountAppend(if s[0] == '$' || IsSpace(s[0]) then [] else [s[0]], DeleteDollarAndSpace(s[1..]), c);
    }
  }

  /** `strip` leaves an already stripped string alone, so applying it twice is applying it once. */
  lemma StripIdempotent(s: string)
    ensures Strip(Strip(s)) == Strip(s)
  {
    StrippedFixpoint(Strip(s));
  }

  lemma StrippedFixpoint(s: string)
    requires Stripped(s)
    ensures Strip(s) == s
  {
  }

  /** Lower-casing never introduces an upper-case letter and leaves whitespace where it was. */
  lemma LowerNormalizes(s: string)
    ensures NoUpper(Lower(s))
    ensures Stripped(s) ==> Stripped(Lower(s))
    ensures Collapsed(s) ==> Collapsed(Lower(s))
    ensures NoUpper(s) ==> Lower(s) == s
  {
  }

  /** The Latin-1 capitals are lower-cased too: "NUÑEZ" becomes "nuñez". */
  lemma LowerLatin1()
    ensures Lower("NU\U{D1}EZ") == "nu\U{F1}ez"
  {
  }

  lemma CollapsedCons(x: char, c: string)
    requires Collapsed(c)
    requires IsSpace(x) ==> x == ' ' && (c == [] || !IsSpace(c[0]))
    ensures Collapsed([x] + c)
  {
    var r := [x] + c;
    forall i | 0 <= i < |r| && IsSpace(r[i])
      ensures r[i] == ' ' && (i + 1 < |r| ==> !IsSpace(r[i + 1]))
    {
      if i > 0 {
        assert r[i] == c[i - 1];
      }
    }
  }

  lemma CollapsedTail(s: string)
    requires s != [] && Collapsed(s)
    ensures Collapsed(s[1..])
    ensures IsSpace(s[0]) ==> s[0] == ' ' && (s[1..] == [] || !IsSpace(s[1..][0]))
  {
    forall i | 0 <= i < |s[1..]| && IsSpace(s[1..][i])
      ensures s[1..][i] == ' ' && (i + 1 < |s[1..]| ==> !IsSpace(s[1..][i + 1]))
    {
      assert s[1..][i] == s[i + 1];
    }
  }

  /** `re.sub(r"\s+", " ", s)` leaves no whitespace but single plain spaces. */
  lemma {:induction false} CollapseCollapsed(s: string)
    ensures Collapsed(Collapse(s))
    decreases |s|, 1
  {
    if s != [] {
      if IsSpace(s[0]) {
        CollapseRunCollapsed(s[1..]);
        CollapsedCons(' ', CollapseRun(s[1..]));
      } else {
        CollapseCollapsed(s[1..]);
        CollapsedCons(s[0], Collapse(s[1..]));
      }
    }
  }

  lemma {:induction false} CollapseRunCollapsed(s: string)
    ensures Collapsed(CollapseRun(s))
    decreases |s|, 0
  {
    if s != [] {
      if IsSpace(s[0]) {
        CollapseRunCollapsed(s[1..]);
      } else {
        CollapseCollapsed(s[1..]);
        CollapsedCons(s[0], Collapse(s[1..]));
      }
    }
  }

  /** `re.sub(r"\s+", " ", s)` keeps every character but whitespace, in order. */
  lemma {:induction false} CollapseKeepsText(s: string)
    ensures NonSpace(Collapse(s)) == NonSpace(s)
    decreases |s|, 1
  {
    if s != [] {
      if IsSpace(s[0]) {
        CollapseRunKeepsText(s[1..]);
        NonSpaceAppend(" ", CollapseRun(s[1..]));
      } else {
        CollapseKeepsText(s[1..]);
        NonSpaceAppend([s[0]], Collapse(s[1..]));
      }
    }
  }

  lemma {:induction false} CollapseRunKeepsText(s: string)
    ensures NonSpace(CollapseRun(s)) == NonSpace(s)
    decreases |s|, 0
  {
    if s != [] {
      if IsSpace(s[0]) {
        CollapseRunKeepsText(s[1..]);
      } else {
        CollapseKeepsText(s[1..]);
        NonSpaceAppend([s[0]], Collapse(s[1..]));
      }
    }
  }

  /** `re.sub(r"\s+", " ", s)` ends in whitespace exactly when `s` does. */
  lemma {:induction false} CollapseLast(s: string)
    requires s != []
    ensures IsSpace(Collapse(s)[|Collapse(s)| - 1]) <==> IsSpace(s[|s| - 1])
    decreases |s|, 1
  {
    var t := s[1..];
    if t != [] {
      assert s[|s| - 1] == t[|t| - 1];
      if IsSpace(s[0]) {
        CollapseRunLast(t);
      } else {
        CollapseLast(t);
      }
    }
  }

  lemma {:induction false} CollapseRunLast(s: string)
    requires s != []
    ensures CollapseRun(s) == [] <==> AllSpace(s)
    ensures CollapseRun(s) != [] ==> (IsSpace(CollapseRun(s)[|CollapseRun(s)| - 1]) <==> IsSpace(s[|s| - 1]))
    decreases |s|, 0
  {
    var t := s[1..];
    if t != [] {
      assert s[|s| - 1] == t[|t| - 1];
      if IsSpace(s[0]) {
        CollapseRunLast(t);
        AllSpaceCons(s);
      } else {
        CollapseLast(t);
      }
    }
  }

  lemma AllSpaceCons(s: string)
    requires s != [] && IsSpace(s[0])
    ensures AllSpace(s) <==> AllSpace(s[1..])
  {
    if AllSpace(s[1..]) {
      forall k | 0 <= k < |s|
        ensures IsSpace(s[k])
      {
        if k > 0 {
          assert s[k] == s[1..][k - 1];
        }
      }
    }
  }

  /** A string that is already collapsed is left unchanged by `re.sub(r"\s+", " ", ...)`. */
  lemma {:induction false} CollapseFixpoint(s: string)
    requires Collapsed(s)
    ensures Collapse(s) == s
    decreases |s|, 1
  {
    if s != [] {
      CollapsedTail(s);
      if IsSpace(s[0]) {
        CollapseRunFixpoint(s[1..]);
      } else {
        CollapseFixpoint(s[1..]);
      }
      assert s == [s[0]] + s[1..];
    }
  }

  lemma {:induction false} CollapseRunFixpoint(s: string)
    requires Collapsed(s) && (s == [] || !IsSpace(s[0]))
    ensures CollapseRun(s) == s
    decreases |s|, 0
  {
    if s != [] {
      CollapsedTail(s);
      CollapseFixpoint(s[1..]);
      assert s == [s[0]] + s[1..];
    }
  }

  /** Collapsing keeps a stripped string stripped and a lower-case string lower-case. */
  lemma CollapseKeeps(s: string)
    ensures Stripped(s) ==> Stripped(Collapse(s))
    ensures NoUpper(s) ==> NoUpper(Collapse(s))
  {
    if s != [] {
      CollapseLast(s);
    }
    if NoUpper(s) {
      var r := Collapse(s);
      CollapseKeepsText(s);
      forall i | 0 <= i < |r|
        ensures !IsUpper(r[i])
      {
        if !IsSpace(r[i]) {
          NonSpaceMember(r, i);
          NonSpaceSubset(s, r[i]);
        }
      }
    }
  }

  /** Stripping text that is a stripped text between two runs of whitespace leaves that text. */
  lemma StripBetween(p: string, b: string, q: string)
    requires AllSpace(p) && AllSpace(q)
    requires b != [] && Stripped(b)
    ensures Strip(p + b + q) == b
  {
    var s := p + b + q;
    assert s[|p|] == b[0];
    assert LeadingSpaces(s) == |p|;
    var r := Strip(s);
    assert s[|p| + |b| - 1] == b[|b| - 1];
    assert |r| >= |b|;
    assert r == s[|p|..|p| + |b|] == b;
  }

  /** A word with no whitespace passes through `Collapse` unchanged. */
  lemma {:induction false} CollapseWord(w: string, rest: string)
    requires forall i :: 0 <= i < |w| ==> !IsSpace(w[i])
    ensures Collapse(w + rest) == w + Collapse(rest)
  {
    if w != [] {
      assert (w + rest)[1..] == w[1..] + rest;
      CollapseWord(w[1..], rest);
      assert w == [w[0]] + w[1..];
    } else {
      assert w + rest == rest;
    }
  }

  /** Inside a run, the remaining whitespace is skipped up to the next word. */
  lemma {:induction false} CollapseRunSpaces(run: string, rest: string)
    requires forall i :: 0 <= i < |run| ==> IsSpace(run[i])
    requires rest != [] && !IsSpace(rest[0])
    ensures CollapseRun(run + rest) == Collapse(rest)
  {
    if run != [] {
      assert (run + rest)[1..] == run[1..] + rest;
      CollapseRunSpaces(run[1..], rest);
    } else {
      assert run + rest == rest;
    }
  }

  /** Two words separated by any run of whitespace come out separated by one space. */
  lemma CollapseSpaced(a: string, sp: string, b: string)
    requires forall i :: 0 <= i < |a| ==> !IsSpace(a[i])
    requires forall i :: 0 <= i < |b| ==> !IsSpace(b[i])
    requires sp != [] && b != [] && forall i :: 0 <= i < |sp| ==> IsSpace(sp[i])
    ensures Collapse(a + sp + b) == a + " " + b
  {
    assert a + sp + b == a + (sp + b);
    CollapseWord(a, sp + b);
    assert (sp + b)[1..] == sp[1..] + b;
    CollapseRunSpaces(sp[1..], b);
    assert b + [] == b;
    CollapseWord(b, []);
  }

  lemma {:induction false} NonSpaceMember(s: string, i: nat)
    requires i < |s| && !IsSpace(s[i])
    ensures s[i] in NonSpace(s)
  {
    if i > 0 {
      NonSpaceMember(s[1..], i - 1);
    }
  }

  lemma {:induction false} NonSpaceSubset(s: string, c: char)
    requires c in NonSpace(s)
    ensures c in s
  {
    if s != [] && !(!IsSpace(s[0]) && c == s[0]) {
      NonSpaceSubset(s[1..], c);
    }
  }

  lemma NoSpaceAroundCons(x: char, u: string)
    requires NoSpaceAroundSemicolons(u)
    requires x == ';' ==> u == [] || !IsSpace(u[0])
    requires IsSpace(x) ==> u == [] || u[0] != ';'
    ensures NoSpaceAroundSemicolons([x] + u)
  {
    var r := [x] + u;
    forall i | 0 <= i < |r| && r[i] == ';'
      ensures (i == 0 || !IsSpace(r[i - 1])) && (i + 1 == |r| || !IsSpace(r[i + 1]))
    {
      if i > 0 {
        assert r[i] == u[i - 1];
      }
    }
  }

  lemma {:induction false} NoSpaceAroundSpaces(run: string, u: string)
    requires AllSpace(run)
    requires NoSpaceAroundSemicolons(u)
    requires u == [] || u[0] != ';'
    ensures NoSpaceAroundSemicolons(run + u)
    decreases |run|
  {
    if run != [] {
      NoSpaceAroundSpaces(run[1..], u);
      assert run + u == [run[0]] + (run[1..] + u);
      if run[1..] != [] {
        assert (run[1..] + u)[0] == run[1];
      }
      NoSpaceAroundCons(run[0], run[1..] + u);
    } else {
      assert run + u == u;
    }
  }

  lemma NoSpaceAroundSuffix(s: string, k: nat)
    requires k <= |s| && NoSpaceAroundSemicolons(s)
    ensures NoSpaceAroundSemicolons(s[k..])
  {
    forall i | 0 <= i < |s[k..]| && s[k..][i] == ';'
      ensures (i == 0 || !IsSpace(s[k..][i - 1])) && (i + 1 == |s[k..]| || !IsSpace(s[k..][i + 1]))
    {
      assert s[k + i] == ';';
    }
  }

  lemma {:induction false} PendingTight(s: string, pending: string)
    requires AllSpace(pending)
    ensures NoSpaceAroundSemicolons(SemicolonsPending(s, pending))
    decreases |s|, 1
  {
    if s == [] {
      assert forall i :: 0 <= i < |pending| ==> pending[i] != ';';
    } else if IsSpace(s[0]) {
      PendingTight(s[1..], pending + [s[0]]);
    } else if s[0] == ';' {
      AfterTight(s[1..]);
      NoSpaceAroundCons(';', SemicolonsAfter(s[1..]));
    } else {
      var u := SemicolonsPending(s[1..], []);
      PendingTight(s[1..], []);
      NoSpaceAroundCons(s[0], u);
      NoSpaceAroundSpaces(pending, [s[0]] + u);
      assert pending + [s[0]] + u == pending + ([s[0]] + u);
    }
  }

  lemma {:induction false} AfterTight(s: string)
    ensures NoSpaceAroundSemicolons(SemicolonsAfter(s))
    decreases |s|, 2
  {
    if s != [] && IsSpace(s[0]) {
      AfterTight(s[1..]);
    } else {
      PendingTight(s, []);
    }
  }

  lemma {:induction false} PendingKeepsText(s: string, pending: string)
    requires AllSpace(pending)
    ensures NonSpace(SemicolonsPending(s, pending)) == NonSpace(s)
    decreases |s|, 1
  {
    if s == [] {
      NonSpaceOfSpaces(pending);
    } else if IsSpace(s[0]) {
      PendingKeepsText(s[1..], pending + [s[0]]);
    } else if s[0] == ';' {
      AfterKeepsText(s[1..]);
      NonSpaceAppend(";", SemicolonsAfter(s[1..]));
    } else {
      PendingKeepsText(s[1..], []);
      NonSpaceFlush(pending, s[0], SemicolonsPending(s[1..], []));
    }
  }

  /** Whitespace held back in front of a character that is kept contributes nothing. */
  lemma NonSpaceFlush(pending: string, x: char, u: string)
    requires AllSpace(pending) && !IsSpace(x)
    ensures NonSpace(pending + [x] + u) == [x] + NonSpace(u)
  {
    NonSpaceAppend(pending + [x], u);
    NonSpaceAppend(pending, [x]);
    NonSpaceOfSpaces(pending);
    assert [x][1..] == [];
  }

  lemma {:induction false} AfterKeepsText(s: string)
    ensures NonSpace(SemicolonsAfter(s)) == NonSpace(s)
    decreases |s|, 2
  {
    if s != [] && IsSpace(s[0]) {
      AfterKeepsText(s[1..]);
    } else {
      PendingKeepsText(s, []);
    }
  }

  /** A string with no whitespace next to a semicolon is left unchanged, so the rule is idempotent. */
  lemma NormalizeSemicolonsFixpoint(s: string)
    requires NoSpaceAroundSemicolons(s)
    ensures NormalizeSemicolons(s) == s
  {
    assert [] + s == s;
    PendingFixpoint(s, []);
  }

  lemma {:induction false} PendingFixpoint(s: string, pending: string)
    requires AllSpace(pending) && NoSpaceAroundSemicolons(pending + s)
    ensures SemicolonsPending(s, pending) == pending + s
    decreases |s|, 1
  {
    if pending != [] && s != [] {
      SpaceNotBeforeSemicolon(pending, s);
    }
    if s == [] {
      assert pending + s == pending;
    } else if IsSpace(s[0]) {
      assert (pending + [s[0]]) + s[1..] == pending + s;
      PendingFixpoint(s[1..], pending + [s[0]]);
    } else if s[0] == ';' {
      assert pending == [];
      assert pending + s == s;
      PendingFixpointSemicolon(s);
    } else {
      NoSpaceAroundSuffix(pending + s, |pending| + 1);
      assert (pending + s)[|pending| + 1..] == [] + s[1..];
      PendingFixpoint(s[1..], []);
      assert pending + s == pending + [s[0]] + s[1..];
    }
  }

  lemma {:induction false} PendingFixpointSemicolon(s: string)
    requires s != [] && s[0] == ';' && NoSpaceAroundSemicolons(s)
    ensures SemicolonsPending(s, []) == s
    decreases |s|, 0
  {
    NoSpaceAroundSuffix(s, 1);
    assert [] + s[1..] == s[1..];
    PendingFixpoint(s[1..], []);
    assert s[1..] == [] || !IsSpace(s[1..][0]);
    assert s == ";" + s[1..];
  }

  lemma SpaceNotBeforeSemicolon(pending: string, s: string)
    requires AllSpace(pending) && pending != [] && s != []
    requires NoSpaceAroundSemicolons(pending + s)
    ensures s[0] != ';'
  {
    assert (pending + s)[|pending| - 1] == pending[|pending| - 1];
    assert (pending + s)[|pending|] == s[0];
  }

  /** The rule only touches whitespace next to semicolons: text with no semicolon comes back unchanged. */
  lemma NormalizeSemicolonsWithoutSemicolon(s: string)
    requires ';' !in s
    ensures NormalizeSemicolons(s) == s
  {
    NormalizeSemicolonsFixpoint(s);
  }
}
