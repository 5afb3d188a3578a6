/**
 * The JavaScript string operations the application's heuristics are built
 * from, stated over `string` (a sequence of characters): the `\s`, `\w` and
 * `\b` regular-expression classes, `toLowerCase`, `split` on a character-class
 * run, `trim`, case-insensitive substring tests, global match counting,
 * and decimal printing of integers.
 */
module Text {
  import opened Common

  // ---------------------------------------------------------------------
  // Character classes
  // ---------------------------------------------------------------------

  /**
   * The `\s` class, which is also the set `String.prototype.trim` removes:
   * ECMAScript WhiteSpace and LineTerminator characters.
   */
  predicate IsSpace(c: char)
  {
    c == '\t' || c == '\n' || c == '\U{000B}' || c == '\U{000C}' || c == '\r' || c == ' '
    || c == '\U{00A0}' || c == '\U{1680}' || ('\U{2000}' <= c <= '\U{200A}')
    || c == '\U{2028}' || c == '\U{2029}' || c == '\U{202F}' || c == '\U{205F}'
    || c == '\U{3000}' || c == '\U{FEFF}'
  }

  /** The characters `.` in a regular expression does not match. */
  predicate IsLineTerminator(c: char)
  {
    c == '\n' || c == '\r' || c == '\U{2028}' || c == '\U{2029}'
  }

  /** The `\w` class (without the `u` flag): ASCII letters, digits and underscore. */
  predicate IsWordChar(c: char)
  {
    ('a' <= c <= 'z') || ('A' <= c <= 'Z') || ('0' <= c <= '9') || c == '_'
  }

  /** The `\d` class. */
  predicate IsDigit(c: char)
  {
    '0' <= c <= '9'
  }

  /** The sentence terminators of the class `[.!?]`. */
  predicate IsTerminator(c: char)
  {
    c == '.' || c == '!' || c == '?'
  }

  // ---------------------------------------------------------------------
  // Case
  // ---------------------------------------------------------------------

  /** ASCII case folding, which is how an `/i` pattern made of ASCII characters compares. */
  function FoldChar(c: char): (d: char)
    ensures IsWordChar(d) <==> IsWordChar(c)
    ensures IsSpace(d) <==> IsSpace(c)
    ensures !('A' <= d <= 'Z')
  {
    if 'A' <= c <= 'Z' then (c as int + 32) as char else c
  }

  function Fold(s: string): (r: string)
    ensures |r| == |s|
    ensures forall i :: 0 <= i < |s| ==> r[i] == FoldChar(s[i])
  {
    seq(|s|, i requires 0 <= i < |s| => FoldChar(s[i]))
  }

  /**
   * `toLowerCase` of one character, as far as the application can observe it:
   * ASCII capitals, the Kelvin sign (which lowers to `k`) and the capital I
   * with dot above (which lowers to `i` followed by a combining dot). Other
   * characters keep their identity here; their real lower-case forms are
   * neither word characters nor white space, and have the same length.
   */
  function LowerChar(c: char): (r: string)
    ensures 1 <= |r| <= 2
  {
    if 'A' <= c <= 'Z' then [FoldChar(c)]
    else if c == '\U{212A}' then "k"
    else if c == '\U{0130}' then "i\U{0307}"
    else [c]
  }

  function ToLowerCase(s: string): (r: string)
    ensures |s| <= |r| <= 2 * |s|
  {
    if s == [] then [] else LowerChar(s[0]) + ToLowerCase(s[1..])
  }

  lemma {:induction false} ToLowerCaseAppend(a: string, b: string)
    ensures ToLowerCase(a + b) == ToLowerCase(a) + ToLowerCase(b)
  {
    if a == [] {
      assert a + b == b;
    } else {
      assert (a + b)[1..] == a[1..] + b;
      ToLowerCaseAppend(a[1..], b);
    }
  }

  /** White space is unchanged by `toLowerCase`. */
  lemma {:induction false} ToLowerCaseSpaces(s: string)
    requires forall j :: 0 <= j < |s| ==> IsSpace(s[j])
    ensures ToLowerCase(s) == s
  {
    if s != [] {
      ToLowerCaseSpaces(s[1..]);
      assert s == [s[0]] + s[1..];
    }
  }

  /** Lower-casing ignores ASCII case: folding first changes nothing. */
  lemma {:induction false} ToLowerCaseFold(s: string)
    ensures ToLowerCase(Fold(s)) == ToLowerCase(s)
  {
    if s != [] {
      ToLowerCaseFold(s[1..]);
      assert Fold(s)[1..] == Fold(s[1..]);
    }
  }

  /** `toUpperCase` of ASCII letters, used to capitalise category names. */
  function UpperChar(c: char): (d: char)
    ensures 'a' <= c <= 'z' ==> 'A' <= d <= 'Z'
  {
    if 'a' <= c <= 'z' then (c as int - 32) as char else c
  }

  /** `s.charAt(0).toUpperCase() + s.slice(1)`. */
  function Capitalize(s: string): (r: string)
    ensures |r| == |s|
    ensures s != [] ==> r[0] == UpperChar(s[0]) && r[1..] == s[1..]
  {
    if s == [] then [] else [UpperChar(s[0])] + s[1..]
  }

  // ---------------------------------------------------------------------
  // Splitting on runs of a character class
  // ---------------------------------------------------------------------

  /** The first index at or after i whose character is a separator, or |s|. */
  function NextSep(s: string, sep: char -> bool, i: nat): (k: nat)
    requires i <= |s|
    ensures i <= k <= |s|
    ensures forall j :: i <= j < k ==> !sep(s[j])
    ensures k < |s| ==> sep(s[k])
    decreases |s| - i
  {
    if i == |s| || sep(s[i]) then i else NextSep(s, sep, i + 1)
  }

  /** The first index at or after i whose character is not a separator, or |s|. */
  function RunEnd(s: string, sep: char -> bool, i: nat): (k: nat)
    requires i <= |s|
    ensures i <= k <= |s|
    ensures forall j :: i <= j < k ==> sep(s[j])
    ensures k < |s| ==> !sep(s[k])
    decreases |s| - i
  {
    if i == |s| || !sep(s[i]) then i else RunEnd(s, sep, i + 1)
  }

  /**
   * `s.split(/[sep]+/)`: the pieces between maximal runs of separator
   * characters, keeping the empty pieces a leading or trailing run leaves.
   */
  function SplitRuns(s: string, sep: char -> bool): (r: seq<string>)
    ensures |r| >= 1
    ensures forall i, j :: 0 <= i < |r| && 0 <= j < |r[i]| ==> !sep(r[i][j])
    decreases |s|
  {
    var n := NextSep(s, sep, 0);
    if n == |s| then [s]
    else
      var m := RunEnd(s, sep, n);
      [s[..n]] + SplitRuns(s[m..], sep)
  }

  function Concat(ps: seq<string>): string
  {
    if ps == [] then [] else ps[0] + Concat(ps[1..])
  }

  /** The characters of s that are not separators, in order. */
  function Keep(s: string, sep: char -> bool): string
  {
    if s == [] then [] else (if sep(s[0]) then [] else [s[0]]) + Keep(s[1..], sep)
  }

  lemma {:induction false} KeepAppend(a: string, b: string, sep: char -> bool)
    ensures Keep(a + b, sep) == Keep(a, sep) + Keep(b, sep)
  {
    if a == [] {
      assert a + b == b;
    } else {
      assert (a + b)[1..] == a[1..] + b;
      KeepAppend(a[1..], b, sep);
    }
  }

  lemma {:induction false} KeepNone(s: string, sep: char -> bool)
    requires forall j :: 0 <= j < |s| ==> sep(s[j])
    ensures Keep(s, sep) == []
  {
    if s != [] {
      KeepNone(s[1..], sep);
    }
  }

  lemma {:induction false} KeepAll(s: string, sep: char -> bool)
    requires forall j :: 0 <= j < |s| ==> !sep(s[j])
    ensures Keep(s, sep) == s
  {
    if s != [] {
      KeepAll(s[1..], sep);
    }
  }

  /** Joining the pieces gives back exactly the non-separator characters: no character is lost or invented. */
  lemma {:induction false} SplitRunsKeepsText(s: string, sep: char -> bool)
    ensures Concat(SplitRuns(s, sep)) == Keep(s, sep)
    decreases |s|
  {
    var n := NextSep(s, sep, 0);
    if n == |s| {
      KeepAll(s, sep);
      assert Concat([s]) == s + Concat([]);
    } else {
      var m := RunEnd(s, sep, n);
      SplitRunsFirst(s, sep);
      SplitRunsKeepsText(s[m..], sep);
      KeepFirst(s, sep);
    }
  }

  /** The first piece of SplitRuns(s, sep), when s holds a separator. */
  lemma {:induction false} SplitRunsFirst(s: string, sep: char -> bool)
    requires NextSep(s, sep, 0) < |s|
    ensures Concat(SplitRuns(s, sep))
         == s[..NextSep(s, sep, 0)] + Concat(SplitRuns(s[RunEnd(s, sep, NextSep(s, sep, 0))..], sep))
  {
    var rest := SplitRuns(s[RunEnd(s, sep, NextSep(s, sep, 0))..], sep);
    assert SplitRuns(s, sep) == [s[..NextSep(s, sep, 0)]] + rest;
    assert ([s[..NextSep(s, sep, 0)]] + rest)[1..] == rest;
  }

  /** Keep drops the first separator run of s and keeps what precedes it. */
  lemma {:induction false} KeepFirst(s: string, sep: char -> bool)
    requires NextSep(s, sep, 0) < |s|
    ensures Keep(s, sep) == s[..NextSep(s, sep, 0)] + Keep(s[RunEnd(s, sep, NextSep(s, sep, 0))..], sep)
  {
    var n := NextSep(s, sep, 0);
    var m := RunEnd(s, sep, n);
    assert s == (s[..n] + s[n..m]) + s[m..];
    KeepPieceRun(s[..n], s[n..m], s[m..], sep);
  }

  /** A piece without separators, then a run of separators, then the rest. */
  lemma {:induction false} KeepPieceRun(a: string, b: string, c: string, sep: char -> bool)
    requires forall j :: 0 <= j < |a| ==> !sep(a[j])
    requires forall j :: 0 <= j < |b| ==> sep(b[j])
    ensures Keep((a + b) + c, sep) == a + Keep(c, sep)
  {
    KeepAppend(a + b, c, sep);
    KeepAppend(a, b, sep);
    KeepAll(a, sep);
    KeepNone(b, sep);
  }

  /** `s.split(/\s+/).length`: at least 1, even for the empty string. */
  function WordCount(s: string): (n: nat)
    ensures n >= 1
  {
    |SplitRuns(s, IsSpace)|
  }

  /** `s.trim().length > 0`. */
  predicate HasNonSpace(s: string)
  {
    exists j | 0 <= j < |s| :: !IsSpace(s[j])
  }

  /** The pieces of ps that are not blank, in order. */
  function NonBlank(ps: seq<string>): (r: seq<string>)
    ensures |r| <= |ps|
    ensures forall i :: 0 <= i < |r| ==> HasNonSpace(r[i])
    ensures forall p :: p in ps && HasNonSpace(p) ==> p in r
    ensures forall p :: p in r ==> p in ps
  {
    if ps == [] then []
    else (if HasNonSpace(ps[0]) then [ps[0]] else []) + NonBlank(ps[1..])
  }

  /** `s.split(/[.!?]+/).filter((x) => x.trim().length > 0)`. */
  function Sentences(s: string): seq<string>
  {
    NonBlank(SplitRuns(s, IsTerminator))
  }

  /** The index just past the last character of s[..k] that is not white space, or 0. */
  function LastNonSpaceEnd(s: string, k: nat): (e: nat)
    requires k <= |s|
    ensures e <= k
    ensures forall j :: e <= j < k ==> IsSpace(s[j])
    ensures e > 0 ==> !IsSpace(s[e - 1])
  {
    if k == 0 || !IsSpace(s[k - 1]) then k else LastNonSpaceEnd(s, k - 1)
  }

  /**
   * `s.trim()`: s without its leading and trailing white space. The result
   * is the slice of s between its first and last non-space characters.
   */
  function Trim(s: string): (r: string)
    ensures r == [] <==> !HasNonSpace(s)
    ensures r != [] ==> !IsSpace(r[0]) && !IsSpace(r[|r| - 1])
    ensures |r| <= |s|
  {
    var a := RunEnd(s, IsSpace, 0);
    var e := LastNonSpaceEnd(s, |s|);
    if a == |s| then [] else
      assert !IsSpace(s[a]);
      s[a..e]
  }

  /** White space around a text does not survive `trim`. */
  lemma {:induction false} TrimPadded(pre: string, t: string, post: string)
    requires forall j :: 0 <= j < |pre| ==> IsSpace(pre[j])
    requires forall j :: 0 <= j < |post| ==> IsSpace(post[j])
    ensures Trim(pre + t + post) == Trim(t)
  {
    if HasNonSpace(t) {
      TrimStart(pre, t, post);
      TrimEnd(pre, t, post);
      TrimPaddedText(pre, t, post);
    } else {
      TrimPaddedBlank(pre, t, post);
    }
  }

  lemma {:induction false} TrimPaddedBlank(pre: string, t: string, post: string)
    requires forall j :: 0 <= j < |pre| ==> IsSpace(pre[j])
    requires forall j :: 0 <= j < |post| ==> IsSpace(post[j])
    requires !HasNonSpace(t)
    ensures !HasNonSpace(pre + t + post)
  {
    var s := pre + t + post;
    forall j | 0 <= j < |s| ensures IsSpace(s[j]) {
      if j < |pre| { assert s[j] == pre[j]; }
      else if j < |pre| + |t| { assert s[j] == t[j - |pre|]; }
      else { assert s[j] == post[j - |pre| - |t|]; }
    }
  }

  lemma {:induction false} TrimPaddedText(pre: string, t: string, post: string)
    requires HasNonSpace(t)
    requires RunEnd(pre + t + post, IsSpace, 0) == |pre| + RunEnd(t, IsSpace, 0)
    requires LastNonSpaceEnd(pre + t + post, |pre + t + post|) == |pre| + LastNonSpaceEnd(t, |t|)
    ensures Trim(pre + t + post) == Trim(t)
  {
    TrimSlice(t);
    MiddleSlice(pre, t, post, RunEnd(t, IsSpace, 0), LastNonSpaceEnd(t, |t|));
    TrimShifted(pre + t + post, t, |pre|);
  }

  /** Two texts whose non-space middles are the same slice trim to the same text. */
  lemma {:induction false} TrimShifted(s: string, t: string, d: nat)
    requires RunEnd(t, IsSpace, 0) < |t|
    requires RunEnd(s, IsSpace, 0) == d + RunEnd(t, IsSpace, 0)
    requires LastNonSpaceEnd(s, |s|) == d + LastNonSpaceEnd(t, |t|)
    requires RunEnd(t, IsSpace, 0) <= LastNonSpaceEnd(t, |t|)
    requires s[RunEnd(s, IsSpace, 0)..LastNonSpaceEnd(s, |s|)] == t[RunEnd(t, IsSpace, 0)..LastNonSpaceEnd(t, |t|)]
    ensures Trim(s) == Trim(t)
  {
  }

  /** For a text with a non-space character, `trim` is the slice between the first and last ones. */
  lemma {:induction false} TrimSlice(s: string)
    requires HasNonSpace(s)
    ensures RunEnd(s, IsSpace, 0) < |s|
    ensures RunEnd(s, IsSpace, 0) <= LastNonSpaceEnd(s, |s|)
  {
  }

  lemma MiddleSlice(pre: string, t: string, post: string, a: nat, e: nat)
    requires a <= e <= |t|
    ensures (pre + t + post)[|pre| + a..|pre| + e] == t[a..e]
  {
  }

  lemma {:induction false} TrimStart(pre: string, t: string, post: string)
    requires forall j :: 0 <= j < |pre| ==> IsSpace(pre[j])
    requires HasNonSpace(t)
    ensures RunEnd(pre + t + post, IsSpace, 0) == |pre| + RunEnd(t, IsSpace, 0)
  {
    var s, a := pre + t + post, RunEnd(t, IsSpace, 0);
    assert !IsSpace(s[|pre| + a]) by {
      assert s[|pre| + a] == t[a];
    }
    forall j | 0 <= j < |pre| + a ensures IsSpace(s[j]) {
      if j >= |pre| { assert s[j] == t[j - |pre|]; } else { assert s[j] == pre[j]; }
    }
  }

  lemma {:induction false} TrimEnd(pre: string, t: string, post: string)
    requires forall j :: 0 <= j < |post| ==> IsSpace(post[j])
    requires HasNonSpace(t)
    ensures LastNonSpaceEnd(pre + t + post, |pre + t + post|) == |pre| + LastNonSpaceEnd(t, |t|)
  {
    var s, e := pre + t + post, LastNonSpaceEnd(t, |t|);
    assert e > 0;
    assert !IsSpace(s[|pre| + e - 1]) by {
      assert s[|pre| + e - 1] == t[e - 1];
    }
    forall j | |pre| + e <= j < |s| ensures IsSpace(s[j]) {
      if j < |pre| + |t| { assert s[j] == t[j - |pre|]; }
      else { assert s[j] == post[j - |pre| - |t|]; }
    }
  }

  /**
   * The length of s as JavaScript's `.length` counts it, in UTF-16 code
   * units: a character above U+FFFF takes two.
   */
  function Utf16Length(s: string): (n: nat)
    ensures |s| <= n <= 2 * |s|
    ensures (forall i :: 0 <= i < |s| ==> s[i] as int <= 0xFFFF) ==> n == |s|
  {
    if s == [] then 0 else (if s[0] as int > 0xFFFF then 2 else 1) + Utf16Length(s[1..])
  }

  /** A string of characters above U+FFFF is twice as long in UTF-16 code units (U+1F600 counts 2). */
  lemma {:induction false} Utf16LengthAstral(s: string)
    requires forall i :: 0 <= i < |s| ==> s[i] as int > 0xFFFF
    ensures Utf16Length(s) == 2 * |s|
  {
    if s != [] {
      Utf16LengthAstral(s[1..]);
    }
  }

  /** `s.trim().length`, in UTF-16 code units. */
  function TrimmedLength(s: string): (n: nat)
    ensures |Trim(s)| <= n <= 2 * |Trim(s)|
    ensures n == 0 <==> !HasNonSpace(s)
  {
    Utf16Length(Trim(s))
  }

  function SumTrimmed(ps: seq<string>): nat
  {
    if ps == [] then 0 else TrimmedLength(ps[0]) + SumTrimmed(ps[1..])
  }

  // ---------------------------------------------------------------------
  // Substrings and patterns
  // ---------------------------------------------------------------------

  predicate OccursAt(s: string, p: string, i: int)
  {
    0 <= i && i + |p| <= |s| && s[i..i + |p|] == p
  }

  /** `s.includes(p)`. */
  predicate Contains(s: string, p: string)
  {
    exists i | 0 <= i <= |s| :: OccursAt(s, p, i)
  }

  lemma ContainsEmpty(s: string)
    ensures Contains(s, "")
  {
    assert OccursAt(s, "", 0);
  }

  /** The regular expression `/p0|p1|.../i` for lower-case ASCII alternatives tests true on s. */
  predicate MatchesAnyCi(s: string, ps: seq<string>)
  {
    exists k | 0 <= k < |ps| :: Contains(Fold(s), ps[k])
  }

  // ---------------------------------------------------------------------
  // Word boundaries and global match counting
  // ---------------------------------------------------------------------

  predicate WordAt(s: string, i: int)
  {
    0 <= i < |s| && IsWordChar(s[i])
  }

  /** The assertion `\b` holds at position p of s. */
  predicate Boundary(s: string, p: int)
  {
    WordAt(s, p - 1) != WordAt(s, p)
  }

  /** The pattern `\bw\b` matches at position i of s. */
  predicate BoundedAt(s: string, w: string, i: int)
  {
    OccursAt(s, w, i) && Boundary(s, i) && Boundary(s, i + |w|)
  }

  /** Which alternative of `\ba0\b|\ba1\b|...` matches at position i, trying them in order. */
  function FirstAlt(s: string, alts: seq<string>, i: nat, k: nat): (r: Option<nat>)
    requires k <= |alts|
    ensures r.Some? ==> k <= r.value < |alts| && BoundedAt(s, alts[r.value], i)
    ensures r.None? ==> forall j :: k <= j < |alts| ==> !BoundedAt(s, alts[j], i)
    decreases |alts| - k
  {
    if k == |alts| then None
    else if BoundedAt(s, alts[k], i) then Some(k)
    else FirstAlt(s, alts, i, k + 1)
  }

  /**
   * The number of matches `s.match(re)` returns for the global pattern
   * `\ba0\b|\ba1\b|...`, searching from position i: after a match the search
   * resumes where the match ended (one position further after an empty
   * match); where nothing matches it moves on by one position.
   */
  function CountFrom(s: string, alts: seq<string>, i: nat): (n: nat)
    ensures i <= |s| ==> n <= |s| + 1 - i
    ensures i > |s| ==> n == 0
    decreases |s| + 1 - i
  {
    if i > |s| then 0
    else match FirstAlt(s, alts, i, 0)
      case Some(k) => 1 + CountFrom(s, alts, i + Max(|alts[k]|, 1))
      case None => CountFrom(s, alts, i + 1)
  }

  /** Matches of the global, case-insensitive pattern `\ba0\b|\ba1\b|...` in s. */
  function CountWordMatchesCi(s: string, alts: seq<string>): nat
  {
    CountFrom(Fold(s), alts, 0)
  }

  /** A text with no match of any alternative anywhere counts zero matches. */
  lemma {:induction false} CountFromNone(s: string, alts: seq<string>, i: nat)
    requires forall j, k :: i <= j <= |s| && 0 <= k < |alts| ==> !BoundedAt(s, alts[k], j)
    ensures CountFrom(s, alts, i) == 0
    decreases |s| + 1 - i
  {
    if i <= |s| {
      CountFromNone(s, alts, i + 1);
    }
  }

  /** A match of an alternative at the start of the search is counted. */
  lemma {:induction false} CountFromMatch(s: string, alts: seq<string>, i: nat, k: nat)
    requires k < |alts| && i <= |s| && BoundedAt(s, alts[k], i)
    ensures CountFrom(s, alts, i) >= 1
  {
    var r := FirstAlt(s, alts, i, 0);
    assert r.Some?;
  }

  // ---------------------------------------------------------------------
  // Decimal numbers
  // ---------------------------------------------------------------------

  function DigitChar(d: nat): (c: char)
    requires d < 10
    ensures IsDigit(c)
  {
    "0123456789"[d]
  }

  function DigitValue(c: char): (d: nat)
    requires IsDigit(c)
    ensures d < 10
  {
    (c as int - '0' as int)
  }

  lemma DigitRoundTrip(d: nat)
    requires d < 10
    ensures DigitValue(DigitChar(d)) == d
  {
  }

  predicate AllDigits(s: string)
  {
    forall j :: 0 <= j < |s| ==> IsDigit(s[j])
  }

  /** The decimal text JavaScript prints for a non-negative integer (below 10^21). */
  function NatToString(n: nat): (r: string)
    ensures |r| >= 1 && AllDigits(r)
    ensures n < 10 <==> |r| == 1
    decreases n
  {
    if n < 10 then [DigitChar(n)] else NatToString(n / 10) + [DigitChar(n % 10)]
  }

  /** The value of a string of decimal digits (empty counts as 0). */
  function DigitsValue(s: string): nat
    requires AllDigits(s)
  {
    if s == [] then 0 else 10 * DigitsValue(s[..|s| - 1]) + DigitValue(s[|s| - 1])
  }

  /** Reading back what NatToString printed gives the number: printing loses nothing. */
  lemma {:induction false} NatToStringRoundTrip(n: nat)
    ensures DigitsValue(NatToString(n)) == n
    decreases n
  {
    var s := NatToString(n);
    if n < 10 {
      DigitRoundTrip(n);
      assert s[..0] == [];
    } else {
      NatToStringRoundTrip(n / 10);
      DigitRoundTrip(n % 10);
      assert s[..|s| - 1] == NatToString(n / 10);
    }
  }

  /** A leading zero does not change the value of a digit string. */
  lemma {:induction false} LeadingZero(s: string)
    requires AllDigits(s)
    ensures AllDigits("0" + s) && DigitsValue("0" + s) == DigitsValue(s)
    decreases |s|
  {
    var t := "0" + s;
    if s == [] {
      assert t[..0] == [];
    } else {
      assert t[..|t| - 1] == "0" + s[..|s| - 1];
      LeadingZero(s[..|s| - 1]);
    }
  }
}
