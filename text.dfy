/** String and number helpers shared by the worker and the player components:
    the pieces of the JavaScript standard library that the handlers rely on
    (`String.prototype.includes`, a case-insensitive regular-expression
    alternation of literal words, `trim`, `split('\n')`, `parseInt` on digit
    runs, `Number.prototype.toString` on integers, the `%` operator and
    two-digit zero padding). */
module Text {

  datatype Option<T> = None | Some(value: T)

  // ---------------------------------------------------------------------------
  // Substring search

  /** Upper-case an ASCII letter; every other character is left alone. A regular
      expression with the `i` flag compares characters this way whenever the
      pattern is ASCII: outside Unicode mode no non-ASCII character is ever
      canonicalised to an ASCII one. */
  function FoldCase(c: char): (u: char)
    ensures 'a' <= c <= 'z' ==> u as int == c as int - 32
    ensures !('a' <= c <= 'z') ==> u == c
  {
    if 'a' <= c <= 'z' then (c as int - 32) as char else c
  }

  predicate CharEq(a: char, b: char, ignoreCase: bool) {
    if ignoreCase then FoldCase(a) == FoldCase(b) else a == b
  }

  /** `pat` occurs in `s` starting at index `i`. */
  predicate MatchesAt(s: string, i: nat, pat: string, ignoreCase: bool)
    requires i + |pat| <= |s|
  {
    forall j :: 0 <= j < |pat| ==> CharEq(s[i + j], pat[j], ignoreCase)
  }

  /** The first index at or after `from` where `pat` occurs in `s`. */
  function IndexOf(s: string, pat: string, ignoreCase: bool, from: nat): (r: Option<nat>)
    decreases |s| - from
    ensures r.Some? ==> from <= r.value && r.value + |pat| <= |s|
    ensures r.Some? ==> MatchesAt(s, r.value, pat, ignoreCase)
    ensures r.Some? ==> forall k :: from <= k < r.value ==> !MatchesAt(s, k, pat, ignoreCase)
    ensures r.None? ==> forall k :: from <= k && k + |pat| <= |s| ==> !MatchesAt(s, k, pat, ignoreCase)
  {
    if from + |pat| > |s| then None
    else if MatchesAt(s, from, pat, ignoreCase) then Some(from)
    else IndexOf(s, pat, ignoreCase, from + 1)
  }

  /** `s.includes(pat)`, or `/pat/i.test(s)` when `ignoreCase` holds: the
      pattern occurs somewhere in `s`. */
  predicate Contains(s: string, pat: string, ignoreCase: bool)
  {
    exists k: nat :: k + |pat| <= |s| && MatchesAt(s, k, pat, ignoreCase)
  }

  /** The left-to-right search finds an occurrence exactly when there is one. */
  lemma IndexOfFinds(s: string, pat: string, ignoreCase: bool)
    ensures IndexOf(s, pat, ignoreCase, 0).Some? <==> Contains(s, pat, ignoreCase)
  {
    var r := IndexOf(s, pat, ignoreCase, 0);
    if r.Some? {
      assert MatchesAt(s, r.value, pat, ignoreCase);
    }
  }

  /** A match found inside `s` is a match inside any extension of `s`. */
  lemma ContainsInContext(pre: string, s: string, post: string, pat: string, ignoreCase: bool)
    requires Contains(s, pat, ignoreCase)
    ensures Contains(pre + s + post, pat, ignoreCase)
  {
    var k: nat :| k + |pat| <= |s| && MatchesAt(s, k, pat, ignoreCase);
    var t := pre + s + post;
    assert MatchesAt(t, |pre| + k, pat, ignoreCase) by {
      forall j | 0 <= j < |pat| ensures CharEq(t[|pre| + k + j], pat[j], ignoreCase) {
        assert t[|pre| + k + j] == s[k + j];
      }
    }
  }

  // ---------------------------------------------------------------------------
  // Decimal digits

  predicate IsDigit(c: char) { '0' <= c <= '9' }

  predicate AllDigits(s: string) { forall i :: 0 <= i < |s| ==> IsDigit(s[i]) }

  function DigitValue(c: char): (d: nat)
    requires IsDigit(c)
    ensures d < 10
  {
    c as int - '0' as int
  }

  function DigitChar(d: nat): (c: char)
    requires d < 10
    ensures IsDigit(c) && DigitValue(c) == d
  {
    ('0' as int + d) as char
  }

  /** `parseInt` of a run of decimal digits. */
  function ParseDigits(s: string): nat
    requires AllDigits(s)
  {
    if s == [] then 0 else ParseDigits(s[..|s| - 1]) * 10 + DigitValue(s[|s| - 1])
  }

  /** Decimal rendering of a natural number, without leading zeros. */
  function NatToString(n: nat): (s: string)
    ensures |s| >= 1 && AllDigits(s)
    ensures |s| > 1 ==> s[0] != '0'
  {
    if n < 10 then [DigitChar(n)] else NatToString(n / 10) + [DigitChar(n % 10)]
  }

  /** Rendering an integer, as a template literal does: a minus sign, then the digits. */
  function IntToString(i: int): (s: string)
    ensures |s| >= 1
    ensures i >= 0 ==> s == NatToString(i)
    ensures i < 0 ==> s == "-" + NatToString(-i)
  {
    if i >= 0 then NatToString(i) else "-" + NatToString(-i)
  }

  /** Reading the digits back gives the number. */
  lemma {:induction false} NatToStringRoundTrip(n: nat)
    ensures ParseDigits(NatToString(n)) == n
  {
    if n >= 10 {
      var s := NatToString(n);
      var a := NatToString(n / 10);
      assert s[..|s| - 1] == a;
      NatToStringRoundTrip(n / 10);
    }
  }

  /** Below ten the rendering is a single digit, from ten to ninety-nine two. */
  lemma NatToStringSmall(n: nat)
    requires n < 100
    ensures n < 10 ==> NatToString(n) == [DigitChar(n)]
    ensures n >= 10 ==> NatToString(n) == [DigitChar(n / 10), DigitChar(n % 10)]
  {
  }

  /** JavaScript's `%`: the remainder takes the sign of the dividend. */
  function JsRem(a: int, b: int): (r: int)
    requires b > 0
    ensures a >= 0 ==> 0 <= r < b && r == a % b
    ensures a < 0 ==> -b < r <= 0
    ensures (a - r) % b == 0
  {
    var n := if a >= 0 then a else -a;
    RemainderOffMultiple(n, b);
    if a >= 0 then a % b else -((-a) % b)
  }

  /** `n` and `n % b` differ by a multiple of `b`, whichever is subtracted. */
  lemma RemainderOffMultiple(n: nat, b: int)
    requires b > 0
    ensures (n - n % b) % b == 0 && (n % b - n) % b == 0
  {
    var q := n / b;
    assert n - n % b == b * q;
    assert n % b - n == b * -q;
    MultipleMod(b, q);
    MultipleMod(b, -q);
  }

  lemma MultipleMod(b: int, q: int)
    requires b > 0
    ensures (b * q) % b == 0
  {
    var d, m := (b * q) / b, (b * q) % b;
    assert b * (q - d) == m;
    MultipleBelow(b, q - d);
  }

  /** The only multiple of `b` in `[0, b)` is zero. */
  lemma MultipleBelow(b: int, t: int)
    requires b > 0 && 0 <= b * t < b
    ensures t == 0
  {
  }

  /** Two decimal digits of a number below one hundred. */
  function Pad2(n: nat): (s: string)
    requires n < 100
    ensures |s| == 2 && AllDigits(s) && ParseDigits(s) == n
  {
    var s := [DigitChar(n / 10), DigitChar(n % 10)];
    assert s[..1] == [DigitChar(n / 10)];
    assert [DigitChar(n / 10)][..0] == [];
    assert ParseDigits([DigitChar(n / 10)]) == n / 10;
    s
  }

  // ---------------------------------------------------------------------------
  // Whitespace trimming, as `String.prototype.trim` does

  /** The white space and line terminators that `trim` removes. */
  predicate IsWhite(c: char) {
    c == '\t' || c == '\n' || c == '\U{B}' || c == '\U{C}' || c == '\r' || c == ' '
    || c == '\U{A0}' || c == '\U{1680}' || ('\U{2000}' <= c <= '\U{200A}')
    || c == '\U{2028}' || c == '\U{2029}' || c == '\U{202F}' || c == '\U{205F}'
    || c == '\U{3000}' || c == '\U{FEFF}'
  }

  /** The end of the run of white space that starts at index `i`. */
  function WhiteRunEnd(s: string, i: nat): (n: nat)
    requires i <= |s|
    decreases |s| - i
    ensures i <= n <= |s|
    ensures forall k :: i <= k < n ==> IsWhite(s[k])
    ensures n == |s| || !IsWhite(s[n])
  {
    if i < |s| && IsWhite(s[i]) then WhiteRunEnd(s, i + 1) else i
  }

  /** The start of the run of white space that ends just before index `j`. */
  function WhiteRunStart(s: string, j: nat): (n: nat)
    requires j <= |s|
    ensures n <= j
    ensures forall k :: n <= k < j ==> IsWhite(s[k])
    ensures n == 0 || !IsWhite(s[n - 1])
  {
    if j > 0 && IsWhite(s[j - 1]) then WhiteRunStart(s, j - 1) else j
  }

  /** `s.trimStart()`. */
  function TrimStart(s: string): (r: string)
    ensures |r| <= |s| && r == s[|s| - |r|..]
    ensures forall k :: 0 <= k < |s| - |r| ==> IsWhite(s[k])
    ensures r == [] || !IsWhite(r[0])
  {
    s[WhiteRunEnd(s, 0)..]
  }

  /** `s.trimEnd()`. */
  function TrimEnd(s: string): (r: string)
    ensures |r| <= |s| && r == s[..|r|]
    ensures forall k :: |r| <= k < |s| ==> IsWhite(s[k])
    ensures r == [] || !IsWhite(r[|r| - 1])
  {
    s[..WhiteRunStart(s, |s|)]
  }

  /** `s.trim()`: the longest middle part that neither starts nor ends with
      white space; only white space is cut, and only at the two ends. */
  function Trim(s: string): (r: string)
    ensures exists i, j :: WhiteOutside(s, i, j) && r == s[i..j]
    ensures r == [] || (!IsWhite(r[0]) && !IsWhite(r[|r| - 1]))
    ensures r == [] ==> forall k :: 0 <= k < |s| ==> IsWhite(s[k])
  {
    TrimEnds(s);
    TrimStart(TrimEnd(s))
  }

  /** `s[i..j]` is a slice of `s` with nothing but white space before and after it. */
  predicate WhiteOutside(s: string, i: int, j: int) {
    && 0 <= i <= j <= |s|
    && (forall k :: 0 <= k < i ==> IsWhite(s[k]))
    && (forall k :: j <= k < |s| ==> IsWhite(s[k]))
  }

  /** Trimming the end and then the start cuts only white space, and leaves
      text that neither starts nor ends with it. */
  lemma TrimEnds(s: string)
    ensures var r := TrimStart(TrimEnd(s));
      && (exists i, j :: WhiteOutside(s, i, j) && r == s[i..j])
      && (r == [] || (!IsWhite(r[0]) && !IsWhite(r[|r| - 1])))
      && (r == [] ==> forall k :: 0 <= k < |s| ==> IsWhite(s[k]))
  {
    var i, j := TrimSlice(s);
  }

  /** Where the trimmed text lies in `s`: after the leading white space of
      what is left once the trailing white space is gone. */
  lemma TrimSlice(s: string) returns (i: int, j: int)
    ensures WhiteOutside(s, i, j) && TrimStart(TrimEnd(s)) == s[i..j]
  {
    j := WhiteRunStart(s, |s|);
    var e := s[..j];
    i := WhiteRunEnd(e, 0);
    assert TrimStart(TrimEnd(s)) == s[i..j];
    forall k | 0 <= k < i
      ensures IsWhite(s[k])
    {
      assert s[k] == e[k];
    }
  }

  /** Text that neither starts nor ends with white space is its own trim; in
      particular trimming twice is trimming once. */
  lemma TrimTrimmed(s: string)
    requires s == [] || (!IsWhite(s[0]) && !IsWhite(s[|s| - 1]))
    ensures Trim(s) == s
  {
  }

  /** Trimming takes off exactly the white space around a trimmed text. */
  lemma TrimAround(pre: string, t: string, post: string)
    requires forall k :: 0 <= k < |pre| ==> IsWhite(pre[k])
    requires forall k :: 0 <= k < |post| ==> IsWhite(post[k])
    requires t == [] || (!IsWhite(t[0]) && !IsWhite(t[|t| - 1]))
    ensures Trim(pre + t + post) == t
  {
    var i, j := TrimSlice(pre + t + post);
    SliceBetweenWhite(pre, t, post, i, j);
  }

  /** The only slice of `pre + t + post` that has nothing but white space
      outside it and neither starts nor ends with white space is `t`. */
  lemma SliceBetweenWhite(pre: string, t: string, post: string, i: int, j: int)
    requires forall k :: 0 <= k < |pre| ==> IsWhite(pre[k])
    requires forall k :: 0 <= k < |post| ==> IsWhite(post[k])
    requires t == [] || (!IsWhite(t[0]) && !IsWhite(t[|t| - 1]))
    requires WhiteOutside(pre + t + post, i, j)
    requires var r := (pre + t + post)[i..j]; r == [] || (!IsWhite(r[0]) && !IsWhite(r[|r| - 1]))
    ensures (pre + t + post)[i..j] == t
  {
    var s := pre + t + post;
    if t != [] {
      assert s[|pre|] == t[0] && s[|pre| + |t| - 1] == t[|t| - 1];
    }
  }

  lemma TrimIdempotent(s: string)
    ensures Trim(Trim(s)) == Trim(s)
  {
    TrimTrimmed(Trim(s));
  }

  // ---------------------------------------------------------------------------
  // Splitting into lines

  /** `s.split('\n')`: the pieces between line feeds, always at least one. */
  function SplitLines(s: string): (lines: seq<string>)
    ensures |lines| >= 1
    ensures forall i, j :: 0 <= i < |lines| && 0 <= j < |lines[i]| ==> lines[i][j] != '\n'
  {
    if s == [] then [""]
    else
      var prev := SplitLines(s[..|s| - 1]);
      var c := s[|s| - 1];
      if c == '\n' then prev + [""]
      else prev[..|prev| - 1] + [prev[|prev| - 1] + [c]]
  }

  /** `lines.join('\n')`. */
  function JoinLines(lines: seq<string>): string
    requires |lines| >= 1
  {
    if |lines| == 1 then lines[0]
    else JoinLines(lines[..|lines| - 1]) + "\n" + lines[|lines| - 1]
  }

  /** Joining the pieces with line feeds gives the text back. */
  lemma {:induction false} SplitLinesRoundTrip(s: string)
    ensures JoinLines(SplitLines(s)) == s
  {
    if s != [] {
      var init := s[..|s| - 1];
      var c := s[|s| - 1];
      SplitLinesRoundTrip(init);
      var prev := SplitLines(init);
      assert s == init + [c];
      if c == '\n' {
        calc {
          JoinLines(SplitLines(s));
          JoinLines(prev + [""]);
          { JoinNewPiece(prev); }
          JoinLines(prev) + "\n";
        }
      } else {
        calc {
          JoinLines(SplitLines(s));
          JoinLines(prev[..|prev| - 1] + [prev[|prev| - 1] + [c]]);
          { JoinExtendLast(prev, c); }
          JoinLines(prev) + [c];
        }
      }
    }
  }

  /** Starting a new, empty piece adds a line feed. */
  lemma JoinNewPiece(lines: seq<string>)
    requires |lines| >= 1
    ensures JoinLines(lines + [""]) == JoinLines(lines) + "\n"
  {
    assert (lines + [""])[..|lines|] == lines;
  }

  /** Extending the last piece by a character extends the joined text by it. */
  lemma JoinExtendLast(lines: seq<string>, c: char)
    requires |lines| >= 1
    ensures JoinLines(lines[..|lines| - 1] + [lines[|lines| - 1] + [c]]) == JoinLines(lines) + [c]
  {
    var n := |lines|;
    var longer := lines[..n - 1] + [lines[n - 1] + [c]];
    assert longer[..n - 1] == lines[..n - 1];
    if n > 1 {
      assert JoinLines(lines) == JoinLines(lines[..n - 1]) + "\n" + lines[n - 1];
    }
  }
}
