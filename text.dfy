/**
 * String helpers with the meaning of the Python built-ins the tool relies on:
 * str.strip / str.strip(chars), str.split() and " ".join, str.lower / upper /
 * isupper, the `in` substring test, and f"{n:02d}".
 * Letter case is modelled on ASCII letters only.
 */
module Text {
  import opened Wrappers

  /** Python's str.isspace() characters. */
  const WHITESPACE: set<char> := {
    ' ', '\t', '\n', '\r', '\U{0B}', '\U{0C}', '\U{1C}', '\U{1D}', '\U{1E}', '\U{1F}',
    '\U{85}', '\U{A0}', '\U{1680}',
    '\U{2000}', '\U{2001}', '\U{2002}', '\U{2003}', '\U{2004}', '\U{2005}',
    '\U{2006}', '\U{2007}', '\U{2008}', '\U{2009}', '\U{200A}',
    '\U{2028}', '\U{2029}', '\U{202F}', '\U{205F}', '\U{3000}'
  }

  predicate IsSpace(c: char) {
    c in WHITESPACE
  }

  predicate IsWordChar(c: char) { !IsSpace(c) }

  // ---------------------------------------------------------------
  // strip
  // ---------------------------------------------------------------

  /** Drops the longest prefix of characters satisfying `drop`. */
  function TrimStart(s: string, drop: char -> bool): (r: string)
    ensures |r| <= |s|
    ensures r == [] || !drop(r[0])
  {
    if s != [] && drop(s[0]) then TrimStart(s[1..], drop) else s
  }

  /** Drops the longest suffix of characters satisfying `drop`. */
  function TrimEnd(s: string, drop: char -> bool): (r: string)
    ensures |r| <= |s|
    ensures r == [] || !drop(r[|r| - 1])
  {
    if s != [] && drop(s[|s| - 1]) then TrimEnd(s[..|s| - 1], drop) else s
  }

  /** Python's s.strip(chars), with the character set given as a predicate. */
  function StripBy(s: string, drop: char -> bool): (r: string)
    ensures r == [] || (!drop(r[0]) && !drop(r[|r| - 1]))
    ensures |r| <= |s|
  {
    var t := TrimStart(s, drop);
    TrimEndKeepsFirstBy(t, drop);
    TrimEnd(t, drop)
  }

  lemma {:induction false} TrimStartSpec(s: string, drop: char -> bool)
    ensures var r := TrimStart(s, drop);
      r == s[|s| - |r|..] && forall k :: 0 <= k < |s| - |r| ==> drop(s[k])
  {
    if s != [] && drop(s[0]) {
      TrimStartSpec(s[1..], drop);
    }
  }

  lemma {:induction false} TrimEndSpec(s: string, drop: char -> bool)
    ensures var r := TrimEnd(s, drop);
      r == s[..|r|] && forall k :: |r| <= k < |s| ==> drop(s[k])
  {
    if s != [] && drop(s[|s| - 1]) {
      TrimEndSpec(s[..|s| - 1], drop);
    }
  }

  /** s.strip(chars) removes exactly the characters of the set at both ends, and nothing else. */
  lemma StripBySpec(s: string, drop: char -> bool)
    ensures exists i, j :: TrimmedTo(s, i, j, drop) && StripBy(s, drop) == s[i..j]
  {
    var t := TrimStart(s, drop);
    TrimStartSpec(s, drop);
    TrimEndSpec(t, drop);
    var r := TrimEnd(t, drop);
    var i := |s| - |t|;
    assert s[i..i + |r|] == r;
    assert TrimmedTo(s, i, i + |r|, drop);
  }

  /** s[i..j] is what is left of s once characters satisfying drop are removed at both ends. */
  predicate TrimmedTo(s: string, i: int, j: int, drop: char -> bool) {
    && 0 <= i <= j <= |s|
    && (forall k :: 0 <= k < i ==> drop(s[k]))
    && (forall k :: j <= k < |s| ==> drop(s[k]))
  }

  lemma {:induction false} TrimEndKeepsFirstBy(t: string, drop: char -> bool)
    ensures TrimEnd(t, drop) != [] ==> TrimEnd(t, drop)[0] == t[0]
  {
    if t != [] && drop(t[|t| - 1]) {
      TrimEndKeepsFirstBy(t[..|t| - 1], drop);
    }
  }

  /** s.lstrip() */
  function TrimSpaceStart(s: string): (r: string)
    ensures |r| <= |s|
    ensures r == [] || !IsSpace(r[0])
  {
    if s != [] && IsSpace(s[0]) then TrimSpaceStart(s[1..]) else s
  }

  /** s.rstrip() */
  function TrimSpaceEnd(s: string): (r: string)
    ensures |r| <= |s|
    ensures r == [] || !IsSpace(r[|r| - 1])
  {
    if s != [] && IsSpace(s[|s| - 1]) then TrimSpaceEnd(s[..|s| - 1]) else s
  }

  /** Python's s.strip(). */
  function Strip(s: string): (r: string)
    ensures NoOuterSpace(r)
    ensures |r| <= |s|
  {
    var t := TrimSpaceStart(s);
    var r := TrimSpaceEnd(t);
    assert r != [] ==> r[0] == t[0] by {
      TrimEndKeepsFirst(t);
    }
    r
  }

  lemma {:induction false} TrimSpaceStartSpec(s: string)
    ensures var r := TrimSpaceStart(s);
      r == s[|s| - |r|..] && forall k :: 0 <= k < |s| - |r| ==> IsSpace(s[k])
  {
    if s != [] && IsSpace(s[0]) {
      TrimSpaceStartSpec(s[1..]);
    }
  }

  lemma {:induction false} TrimSpaceEndSpec(s: string)
    ensures var r := TrimSpaceEnd(s);
      r == s[..|r|] && forall k :: |r| <= k < |s| ==> IsSpace(s[k])
  {
    if s != [] && IsSpace(s[|s| - 1]) {
      TrimSpaceEndSpec(s[..|s| - 1]);
    }
  }

  /**
   * s.strip() is s with its leading and trailing whitespace removed and
   * nothing else: the result is a slice s[i..j] with only whitespace outside
   * it, and it neither starts nor ends with whitespace.
   */
  lemma StripSpec(s: string)
    ensures NoOuterSpace(Strip(s))
    ensures exists i, j :: TrimmedTo(s, i, j, IsSpace) && Strip(s) == s[i..j]
  {
    var t := TrimSpaceStart(s);
    TrimSpaceStartSpec(s);
    TrimSpaceEndSpec(t);
    var r := TrimSpaceEnd(t);
    var i := |s| - |t|;
    assert s[i..i + |r|] == r;
    assert TrimmedTo(s, i, i + |r|, IsSpace);
  }

  lemma {:induction false} TrimEndKeepsFirst(t: string)
    ensures TrimSpaceEnd(t) != [] ==> TrimSpaceEnd(t)[0] == t[0]
  {
    if t != [] && IsSpace(t[|t| - 1]) {
      TrimEndKeepsFirst(t[..|t| - 1]);
    }
  }

  lemma {:induction false} TrimStartOfBlank(s: string)
    requires forall i :: 0 <= i < |s| ==> IsSpace(s[i])
    ensures TrimSpaceStart(s) == []
  {
    if s != [] {
      TrimStartOfBlank(s[1..]);
    }
  }

  lemma {:induction false} TrimStartOfWordEnd(t: string)
    requires t != [] && !IsSpace(t[|t| - 1])
    ensures TrimSpaceStart(t) != [] && TrimSpaceStart(t)[|TrimSpaceStart(t)| - 1] == t[|t| - 1]
  {
    if IsSpace(t[0]) {
      TrimStartOfWordEnd(t[1..]);
    }
  }

  /** Text that ends with a non-space character does not strip to nothing. */
  lemma StripOfWordEnd(s: string)
    requires s != [] && !IsSpace(s[|s| - 1])
    ensures Strip(s) != ""
  {
    TrimStartOfWordEnd(s);
    var t := TrimSpaceStart(s);
    assert TrimSpaceEnd(t) == t;
  }

  predicate NoOuterSpace(t: string) {
    t == [] || (!IsSpace(t[0]) && !IsSpace(t[|t| - 1]))
  }

  lemma StripOfStripped(t: string)
    requires NoOuterSpace(t)
    ensures Strip(t) == t
  {
  }

  // ---------------------------------------------------------------
  // letter case
  // ---------------------------------------------------------------

  function LowerChar(c: char): char {
    if 'A' <= c <= 'Z' then (c as int + 32) as char else c
  }

  function UpperChar(c: char): char {
    if 'a' <= c <= 'z' then (c as int - 32) as char else c
  }

  function Lower(s: string): (r: string)
    ensures |r| == |s|
  {
    seq(|s|, i requires 0 <= i < |s| => LowerChar(s[i]))
  }

  function Upper(s: string): (r: string)
    ensures |r| == |s|
  {
    seq(|s|, i requires 0 <= i < |s| => UpperChar(s[i]))
  }

  predicate IsAsciiLetter(c: char) { 'a' <= c <= 'z' || 'A' <= c <= 'Z' }

  /** Python's str.isupper(): some cased character, and none of them lower-case. */
  predicate IsUpperCase(s: string) {
    (exists i :: 0 <= i < |s| && IsAsciiLetter(s[i]))
    && forall i :: 0 <= i < |s| ==> !('a' <= s[i] <= 'z')
  }

  lemma LowerKeepsSpaces(s: string)
    ensures forall i :: 0 <= i < |s| ==> (IsSpace(Lower(s)[i]) <==> IsSpace(s[i]))
    ensures NoOuterSpace(s) ==> NoOuterSpace(Lower(s))
  {
  }

  lemma LowerIdempotent(s: string)
    ensures Lower(Lower(s)) == Lower(s)
  {
  }

  // ---------------------------------------------------------------
  // ordering (Python's < on str: code points, a proper prefix first)
  // ---------------------------------------------------------------

  predicate LexLess(a: string, b: string)
    decreases |a|
  {
    if a == [] then b != []
    else if b == [] then false
    else if a[0] != b[0] then a[0] < b[0]
    else LexLess(a[1..], b[1..])
  }

  lemma {:induction false} LexLessIrreflexive(a: string)
    ensures !LexLess(a, a)
    decreases |a|
  {
    if a != [] { LexLessIrreflexive(a[1..]); }
  }

  lemma {:induction false} LexLessTotal(a: string, b: string)
    requires a != b
    ensures LexLess(a, b) || LexLess(b, a)
    decreases |a|
  {
    if a != [] && b != [] && a[0] == b[0] {
      assert a == [a[0]] + a[1..] && b == [b[0]] + b[1..];
      LexLessTotal(a[1..], b[1..]);
    }
  }

  lemma {:induction false} LexLessTransitive(a: string, b: string, c: string)
    requires LexLess(a, b) && LexLess(b, c)
    ensures LexLess(a, c)
    decreases |a|
  {
    if a != [] && a[0] == b[0] && b[0] == c[0] {
      LexLessTransitive(a[1..], b[1..], c[1..]);
    }
  }

  // ---------------------------------------------------------------
  // split / join
  // ---------------------------------------------------------------

  predicate IsRun(r: string, p: char -> bool) {
    |r| > 0 && forall i :: 0 <= i < |r| ==> p(r[i])
  }

  /** Length of the longest prefix of `s` whose characters all satisfy `p`. */
  function RunLen(s: string, p: char -> bool): (n: nat)
    ensures n <= |s|
    ensures forall i :: 0 <= i < n ==> p(s[i])
    ensures n < |s| ==> !p(s[n])
  {
    if s == [] || !p(s[0]) then 0 else 1 + RunLen(s[1..], p)
  }

  /**
   * The maximal runs of characters satisfying `p`, left to right: with
   * IsWordChar this is Python's s.split(); with a character class it is
   * re.findall of that class repeated (`[...]+`).
   */
  function Runs(s: string, p: char -> bool): (rs: seq<string>)
    ensures forall r :: r in rs ==> IsRun(r, p)
    decreases |s|
  {
    if s == [] then []
    else if !p(s[0]) then Runs(s[1..], p)
    else
      var n := RunLen(s, p);
      [s[..n]] + Runs(s[n..], p)
  }

  /** Python's " ".join(ws). */
  function JoinSpace(ws: seq<string>): string {
    if ws == [] then ""
    else if |ws| == 1 then ws[0]
    else ws[0] + " " + JoinSpace(ws[1..])
  }

  /** No outer whitespace, single ' ' as the only separator. */
  predicate IsClean(t: string) {
    && NoOuterSpace(t)
    && (forall i :: 0 <= i < |t| && IsSpace(t[i]) ==> t[i] == ' ')
    && (forall i :: 0 <= i < |t| - 1 ==> !(IsSpace(t[i]) && IsSpace(t[i + 1])))
  }

  lemma {:induction false} JoinWordsIsClean(ws: seq<string>)
    requires forall w :: w in ws ==> IsRun(w, IsWordChar)
    ensures IsClean(JoinSpace(ws))
    ensures ws != [] ==> |JoinSpace(ws)| > 0 && JoinSpace(ws)[0] == ws[0][0]
    decreases |ws|
  {
    if |ws| > 1 {
      var w, j := ws[0], JoinSpace(ws[1..]);
      JoinWordsIsClean(ws[1..]);
      assert ws[1] in ws;
      var t := w + " " + j;
      assert t == JoinSpace(ws);
      assert forall i :: 0 <= i < |w| ==> t[i] == w[i];
      assert t[|w|] == ' ';
      assert forall i :: |w| < i < |t| ==> t[i] == j[i - |w| - 1];
      assert ws[0] in ws;
      forall i | 0 <= i < |t| - 1
        ensures !(IsSpace(t[i]) && IsSpace(t[i + 1]))
      {
        if i > |w| {
          assert t[i] == j[i - |w| - 1] && t[i + 1] == j[i - |w|];
        }
      }
    } else if |ws| == 1 {
      assert ws[0] in ws;
    }
  }

  lemma {:induction false} RunLenOfPrefix(w: string, u: string, p: char -> bool)
    requires forall i :: 0 <= i < |w| ==> p(w[i])
    requires u == [] || !p(u[0])
    ensures RunLen(w + u, p) == |w|
    decreases |w|
  {
    if w != [] {
      assert (w + u)[1..] == w[1..] + u;
      RunLenOfPrefix(w[1..], u, p);
    } else {
      assert w + u == u;
    }
  }

  lemma {:induction false} SplitOfJoin(ws: seq<string>)
    requires forall w :: w in ws ==> IsRun(w, IsWordChar)
    ensures Runs(JoinSpace(ws), IsWordChar) == ws
    decreases |ws|
  {
    if ws == [] {
    } else {
      var w := ws[0];
      assert w in ws;
      if |ws| == 1 {
        RunLenOfPrefix(w, [], IsWordChar);
        assert w + [] == w;
        assert w[|w|..] == [];
      } else {
        var j := JoinSpace(ws[1..]);
        forall x | x in ws[1..] ensures IsRun(x, IsWordChar) { assert x in ws; }
        SplitOfJoin(ws[1..]);
        var t := w + (" " + j);
        assert t == JoinSpace(ws);
        RunLenOfPrefix(w, " " + j, IsWordChar);
        assert t[..|w|] == w;
        assert t[|w|..] == " " + j;
        assert (" " + j)[1..] == j;
      }
    }
  }

  /** A leading stretch of characters that fail p holds no run. */
  lemma {:induction false} RunsSkipLeading(s: string, i: nat, p: char -> bool)
    requires i <= |s| && forall k :: 0 <= k < i ==> !p(s[k])
    ensures Runs(s, p) == Runs(s[i..], p)
  {
    if i > 0 {
      assert s[1..][i - 1..] == s[i..];
      RunsSkipLeading(s[1..], i - 1, p);
    }
  }

  lemma {:induction false} RunLenAppend(t: string, u: string, p: char -> bool)
    requires u == [] || !p(u[0])
    ensures RunLen(t + u, p) == RunLen(t, p)
    decreases |t|
  {
    if t == [] {
      assert t + u == u;
    } else if p(t[0]) {
      assert (t + u)[1..] == t[1..] + u;
      RunLenAppend(t[1..], u, p);
    }
  }

  /** A trailing stretch of characters that fail p holds no run. */
  lemma {:induction false} RunsDropTrailing(t: string, u: string, p: char -> bool)
    requires forall k :: 0 <= k < |u| ==> !p(u[k])
    ensures Runs(t + u, p) == Runs(t, p)
    decreases |t|
  {
    if t == [] {
      assert t + u == u;
      RunsSkipLeading(u, |u|, p);
    } else if !p(t[0]) {
      assert (t + u)[1..] == t[1..] + u;
      RunsDropTrailing(t[1..], u, p);
    } else {
      var n := RunLen(t, p);
      RunLenAppend(t, u, p);
      assert (t + u)[..n] == t[..n];
      assert (t + u)[n..] == t[n..] + u;
      RunsDropTrailing(t[n..], u, p);
    }
  }

  /** Removing whitespace at both ends does not change the words of a string. */
  lemma RunsOfTrimmed(s: string, i: nat, j: nat)
    requires TrimmedTo(s, i, j, IsSpace)
    ensures Runs(s[i..j], IsWordChar) == Runs(s, IsWordChar)
  {
    RunsSkipLeading(s, i, IsWordChar);
    var u := s[j..];
    assert s[i..] == s[i..j] + u;
    assert forall k :: 0 <= k < |u| ==> !IsWordChar(u[k]) by {
      forall k | 0 <= k < |u| ensures !IsWordChar(u[k]) {
        assert u[k] == s[j + k];
      }
    }
    RunsDropTrailing(s[i..j], u, IsWordChar);
  }

  /** Stripping does not change the words of a string. */
  lemma RunsOfStrip(s: string)
    ensures Runs(Strip(s), IsWordChar) == Runs(s, IsWordChar)
  {
    var r := Strip(s);
    StripSpec(s);
    var i: nat, j: nat :| TrimmedTo(s, i, j, IsSpace) && r == s[i..j];
    RunsOfTrimmed(s, i, j);
  }

  /** `_clean_text`: strip, split at whitespace runs, and rejoin the words with single spaces. */
  function CleanText(s: string): string {
    JoinSpace(Runs(Strip(s), IsWordChar))
  }

  /** The cleaned text is single-spaced, trimmed, and keeps the words of the input in order. */
  lemma CleanTextIsClean(s: string)
    ensures IsClean(CleanText(s))
    ensures Runs(CleanText(s), IsWordChar) == Runs(s, IsWordChar)
  {
    var ws := Runs(Strip(s), IsWordChar);
    JoinWordsIsClean(ws);
    SplitOfJoin(ws);
    RunsOfStrip(s);
  }

  function CleanOptional(s: Option<string>): string {
    match s
    case None => ""
    case Some(t) => CleanText(t)
  }

  lemma CleanTextIdempotent(s: string)
    ensures CleanText(CleanText(s)) == CleanText(s)
  {
    var t := CleanText(s);
    CleanTextIsClean(s);
    StripOfStripped(t);
    RunsOfStrip(s);
  }

  lemma CleanTextOfBlank(s: string)
    requires forall i :: 0 <= i < |s| ==> IsSpace(s[i])
    ensures CleanText(s) == ""
  {
    TrimStartOfBlank(s);
    assert Strip(s) == [];
  }

  // ---------------------------------------------------------------
  // substring and prefix
  // ---------------------------------------------------------------

  /** Python's `needle in hay` for strings. */
  predicate Contains(hay: string, needle: string)
    decreases |hay|
  {
    needle <= hay || (hay != [] && Contains(hay[1..], needle))
  }

  predicate OccursAt(hay: string, needle: string, i: int) {
    0 <= i <= |hay| - |needle| && hay[i..i + |needle|] == needle
  }

  lemma {:induction false} ContainsAt(hay: string, needle: string)
    ensures Contains(hay, needle) <==> exists i :: OccursAt(hay, needle, i)
    decreases |hay|
  {
    if needle <= hay {
      assert OccursAt(hay, needle, 0);
    } else if hay != [] {
      ContainsAt(hay[1..], needle);
      if Contains(hay[1..], needle) {
        var i :| OccursAt(hay[1..], needle, i);
        assert hay[1..][i..i + |needle|] == hay[i + 1..i + 1 + |needle|];
        assert OccursAt(hay, needle, i + 1);
      }
      if exists i :: OccursAt(hay, needle, i) {
        var i :| OccursAt(hay, needle, i);
        if i > 0 {
          assert hay[1..][i - 1..i - 1 + |needle|] == hay[i..i + |needle|];
          assert OccursAt(hay[1..], needle, i - 1);
        }
      }
    }
  }

  // ---------------------------------------------------------------
  // decimal numbers
  // ---------------------------------------------------------------

  function DigitChar(d: nat): char
    requires d < 10
  {
    (48 + d) as char
  }

  predicate IsDigitChar(c: char) { '0' <= c <= '9' }

  /** Python's str(n) for a natural number. */
  function Digits(n: nat): (s: string)
    ensures |s| > 0 && forall i :: 0 <= i < |s| ==> IsDigitChar(s[i])
    ensures n >= 10 ==> s[0] != '0'
  {
    if n < 10 then [DigitChar(n)] else Digits(n / 10) + [DigitChar(n % 10)]
  }

  /** Python's f"{n:02d}". */
  function Pad2(n: nat): (s: string)
    ensures |s| >= 2 && forall i :: 0 <= i < |s| ==> IsDigitChar(s[i])
  {
    if n < 10 then "0" + Digits(n) else Digits(n)
  }

  /** The number a string of decimal digits denotes. */
  function DecimalValue(s: string): nat
    requires forall i :: 0 <= i < |s| ==> IsDigitChar(s[i])
  {
    if s == [] then 0
    else
      assert IsDigitChar(s[|s| - 1]);
      DecimalValue(s[..|s| - 1]) * 10 + (s[|s| - 1] as int - '0' as int)
  }

  lemma {:induction false} DigitsRoundTrip(n: nat)
    ensures DecimalValue(Digits(n)) == n
  {
    if n >= 10 {
      DigitsRoundTrip(n / 10);
      var s := Digits(n);
      assert s[..|s| - 1] == Digits(n / 10);
    }
  }

  lemma Pad2RoundTrip(n: nat)
    ensures DecimalValue(Pad2(n)) == n
  {
    if n < 10 {
      var s := Pad2(n);
      assert s[..|s| - 1] == "0";
      assert DecimalValue("0") == DecimalValue("") * 10 + 0;
    } else {
      DigitsRoundTrip(n);
    }
  }

  lemma Pad2Injective(a: nat, b: nat)
    requires Pad2(a) == Pad2(b)
    ensures a == b
  {
    Pad2RoundTrip(a);
    Pad2RoundTrip(b);
  }
}
