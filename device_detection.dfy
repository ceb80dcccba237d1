/** The mobile-device test that the worker applies to the User-Agent header
    and the glass player applies to `navigator.userAgent`: the same regular
    expression, a case-insensitive alternation of eight literal words. */
module DeviceDetection {
  import opened Text

  /** The alternatives of `/Android|webOS|iPhone|iPad|iPod|BlackBerry|IEMobile|Opera Mini/i`. */
  const MobileKeywords: seq<string> :=
    ["Android", "webOS", "iPhone", "iPad", "iPod", "BlackBerry", "IEMobile", "Opera Mini"]

  /** The regular expression's `test(ua)`: one of the keywords occurs in the
      User-Agent, in any letter case. */
  predicate IsMobile(ua: string)
  {
    exists k :: 0 <= k < |MobileKeywords| && Contains(ua, MobileKeywords[k], true)
  }

  /** Any User-Agent that mentions one of the keywords is classified mobile,
      whatever surrounds it and in whatever letter case it is written. */
  lemma KeywordMakesMobile(pre: string, word: string, post: string, k: nat)
    requires k < |MobileKeywords|
    requires |word| == |MobileKeywords[k]|
    requires forall j :: 0 <= j < |word| ==> FoldCase(word[j]) == FoldCase(MobileKeywords[k][j])
    ensures IsMobile(pre + word + post)
  {
    assert MatchesAt(word, 0, MobileKeywords[k], true);
    ContainsInContext(pre, word, post, MobileKeywords[k], true);
  }

  /** The empty User-Agent, and so any string shorter than every keyword, is not mobile. */
  lemma ShortAgentNotMobile(ua: string)
    requires |ua| < 4
    ensures !IsMobile(ua)
  {
    forall k | 0 <= k < |MobileKeywords| ensures |MobileKeywords[k]| >= 4 {
      assert k in {0, 1, 2, 3, 4, 5, 6, 7};
    }
  }

  /** A desktop Windows User-Agent is not classified mobile. */
  lemma DesktopAgentNotMobile(ua: string)
    requires ua == "Mozilla/5.0 (Windows NT 10.0; Win64; x64)"
    ensures !IsMobile(ua)
  {
    NotMobileWithoutLetters(ua);
  }

  /** A User-Agent without any of the letters b, e, p and r, in either case, is
      not classified mobile: every keyword holds one of them. */
  lemma NotMobileWithoutLetters(ua: string)
    requires forall i :: 0 <= i < |ua| ==> FoldCase(ua[i]) !in {'B', 'E', 'P', 'R'}
    ensures !IsMobile(ua)
  {
    forall k | 0 <= k < |MobileKeywords| ensures !Contains(ua, MobileKeywords[k], true) {
      var word := MobileKeywords[k];
      var j := if k == 0 then 3 else if k == 5 then 0 else 1;
      assert k in {0, 1, 2, 3, 4, 5, 6, 7};
      assert j < |word| && FoldCase(word[j]) in {'B', 'E', 'P', 'R'};
      LetterAbsent(ua, word, j);
    }
  }

  /** A word one of whose letters appears nowhere in `s`, in either case, does not occur in `s`. */
  lemma LetterAbsent(s: string, word: string, j: nat)
    requires j < |word|
    requires forall i :: 0 <= i < |s| ==> FoldCase(s[i]) != FoldCase(word[j])
    ensures !Contains(s, word, true)
  {
    forall k: nat | k + |word| <= |s| ensures !MatchesAt(s, k, word, true) {
      assert !CharEq(s[k + j], word[j], true);
    }
  }
}
