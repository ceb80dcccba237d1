/** The glass music player: LRC lyric parsing, the current/next lyric lookup
    on each time update, `m:ss` time formatting, circular track navigation and
    the player's play, expand and song-change state.

    Times are integers: lyric times and the playback position in milliseconds,
    the argument of `FormatTime` in whole seconds. */
module GlassMusicPlayer {
  import opened Text
  import DeviceDetection

  // ---------------------------------------------------------------------------
  // LRC time tags: `/\[(\d{2}):(\d{2})\.(\d{2,3})\]/`

  /** One timed lyric line; `time` in milliseconds. */
  datatype Lyric = Lyric(time: int, text: string)

  /** A match of the time-tag pattern: where it starts, how long it is, and its three numbers. */
  datatype Tag = Tag(start: nat, length: nat, minutes: nat, seconds: nat, fraction: nat, fractionDigits: nat)

  /** The strings the time-tag pattern matches: `[mm:ss.xx]` or `[mm:ss.xxx]`. */
  predicate IsTagText(t: string) {
    && (|t| == 10 || |t| == 11)
    && t[0] == '[' && IsDigit(t[1]) && IsDigit(t[2]) && t[3] == ':'
    && IsDigit(t[4]) && IsDigit(t[5]) && t[6] == '.' && IsDigit(t[7]) && IsDigit(t[8])
    && (|t| == 11 ==> IsDigit(t[9])) && t[|t| - 1] == ']'
  }

  function Digits2(a: char, b: char): (n: nat)
    requires IsDigit(a) && IsDigit(b)
    ensures n < 100
  {
    DigitValue(a) * 10 + DigitValue(b)
  }

  /** The numbers `parseInt` reads from the three groups of a tag text. */
  predicate TagNumbers(t: string, minutes: nat, seconds: nat, fraction: nat)
    requires IsTagText(t)
  {
    && AllDigits(t[1..3]) && minutes == ParseDigits(t[1..3])
    && AllDigits(t[4..6]) && seconds == ParseDigits(t[4..6])
    && AllDigits(t[7..|t| - 1]) && fraction == ParseDigits(t[7..|t| - 1])
  }

  /** The match of the time-tag pattern that starts at index `i`, if any; the
      fraction takes three digits when it can (`\d{2,3}` is greedy). */
  function TagAt(line: string, i: nat): (r: Option<Tag>)
    ensures r.Some? ==> (
      && r.value.start == i && i + r.value.length <= |line|
      && IsTagText(line[i..i + r.value.length])
      && TagNumbers(line[i..i + r.value.length], r.value.minutes, r.value.seconds, r.value.fraction)
      && r.value.fractionDigits == r.value.length - 8)
    ensures r.None? ==> !(i + 10 <= |line| && IsTagText(line[i..i + 10]))
    ensures r.None? ==> !(i + 11 <= |line| && IsTagText(line[i..i + 11]))
  {
    if i + 10 <= |line| && line[i] == '[' && IsDigit(line[i + 1]) && IsDigit(line[i + 2])
      && line[i + 3] == ':' && IsDigit(line[i + 4]) && IsDigit(line[i + 5]) && line[i + 6] == '.'
      && IsDigit(line[i + 7]) && IsDigit(line[i + 8])
    then
      var minutes := Digits2(line[i + 1], line[i + 2]);
      var seconds := Digits2(line[i + 4], line[i + 5]);
      var cs := Digits2(line[i + 7], line[i + 8]);
      if i + 11 <= |line| && IsDigit(line[i + 9]) && line[i + 10] == ']' then
        TagParse(line[i..i + 11]);
        Some(Tag(i, 11, minutes, seconds, cs * 10 + DigitValue(line[i + 9]), 3))
      else if line[i + 9] == ']' then
        TagParse(line[i..i + 10]);
        Some(Tag(i, 10, minutes, seconds, cs, 2))
      else
        None
    else
      None
  }

  /** `parseInt` of the groups of a tag text, digit by digit. */
  lemma TagParse(t: string)
    requires IsTagText(t)
    ensures TagNumbers(t, Digits2(t[1], t[2]), Digits2(t[4], t[5]),
      if |t| == 11 then Digits2(t[7], t[8]) * 10 + DigitValue(t[9]) else Digits2(t[7], t[8]))
  {
    TwoDigitsParse(t, 1);
    TwoDigitsParse(t, 4);
    TwoDigitsParse(t, 7);
    if |t| == 11 {
      var f := t[7..10];
      assert f[..2] == t[7..9];
      assert AllDigits(f);
    }
  }

  lemma TwoDigitsParse(s: string, i: nat)
    requires i + 2 <= |s| && IsDigit(s[i]) && IsDigit(s[i + 1])
    ensures AllDigits(s[i..i + 2]) && ParseDigits(s[i..i + 2]) == Digits2(s[i], s[i + 1])
  {
    var u := s[i..i + 2];
    assert u[0] == s[i] && u[1] == s[i + 1];
    assert AllDigits(u);
    assert u[..1] == [s[i]];
    assert [s[i]][..0] == [];
    assert ParseDigits([s[i]]) == DigitValue(s[i]);
  }

  /** The leftmost match of the time-tag pattern at or after index `from`. */
  function FindTag(line: string, from: nat): (r: Option<Tag>)
    decreases |line| - from
    ensures r.Some? ==> from <= r.value.start && TagAt(line, r.value.start) == r
    ensures r.Some? ==> forall k :: from <= k < r.value.start ==> TagAt(line, k).None?
    ensures r.None? ==> forall k :: from <= k ==> TagAt(line, k).None?
  {
    if from >= |line| then
      assert forall k :: from <= k ==> TagAt(line, k).None? by {
        forall k | from <= k ensures TagAt(line, k).None? { }
      }
      None
    else if TagAt(line, from).Some? then TagAt(line, from)
    else FindTag(line, from + 1)
  }

  /** The time a tag denotes, in milliseconds: a two-digit fraction counts
      hundredths of a second, a three-digit one thousandths. */
  function TagMillis(tag: Tag): (ms: nat)
    ensures tag.fractionDigits == 2 ==> ms == tag.minutes * 60000 + tag.seconds * 1000 + tag.fraction * 10
    ensures tag.fractionDigits != 2 ==> ms == tag.minutes * 60000 + tag.seconds * 1000 + tag.fraction
  {
    var scale := if tag.fractionDigits == 2 then 10 else 1;
    (tag.minutes * 60 + tag.seconds) * 1000 + tag.fraction * scale
  }

  /** The time `parseLRC` computes, `minutes * 60 + seconds + fraction / 1000`
      seconds, in milliseconds: the fraction is read as thousandths whatever
      its number of digits. */
  function TagMillisAsWritten(tag: Tag): (ms: nat)
    ensures ms - tag.fraction == (tag.minutes * 60 + tag.seconds) * 1000
  {
    tag.minutes * 60000 + tag.seconds * 1000 + tag.fraction
  }

  /** With a three-digit fraction both readings agree. */
  lemma TagMillisThreeDigits(tag: Tag)
    requires tag.fractionDigits == 3
    ensures TagMillis(tag) == TagMillisAsWritten(tag)
  {
  }

  /** Written with two or with three fraction digits, `[mm:ss.xy]` and
      `[mm:ss.xy0]` denote one instant, and a later clock reading never denotes
      an earlier instant. */
  lemma TagMillisConsistent(m: nat, s: nat, f: nat, g: nat, gDigits: nat)
    requires f < 100 && gDigits in {2, 3} && (gDigits == 2 ==> g < 100) && (gDigits == 3 ==> g < 1000)
    ensures TagMillis(Tag(0, 10, m, s, f, 2)) == TagMillis(Tag(0, 11, m, s, f * 10, 3))
    ensures f * 10 < (if gDigits == 2 then g * 10 else g) ==>
      TagMillis(Tag(0, 10, m, s, f, 2)) < TagMillis(Tag(0, 8 + gDigits, m, s, g, gDigits))
  {
  }

  /** `[00:01.50]` and `[00:01.500]` both mean one and a half seconds, yet
      `parseLRC` reads the first as 1.05 s; and it puts `[00:01.90]` (1.9 s)
      before `[00:01.100]` (1.1 s). */
  lemma TwoDigitFractionMisread()
    ensures TagMillisAsWritten(Tag(0, 10, 0, 1, 50, 2)) == 1050
    ensures TagMillisAsWritten(Tag(0, 11, 0, 1, 500, 3)) == 1500
    ensures TagMillisAsWritten(Tag(0, 10, 0, 1, 90, 2)) < TagMillisAsWritten(Tag(0, 11, 0, 1, 100, 3))
    ensures TagMillis(Tag(0, 10, 0, 1, 50, 2)) == TagMillis(Tag(0, 11, 0, 1, 500, 3)) == 1500
    ensures TagMillis(Tag(0, 10, 0, 1, 90, 2)) > TagMillis(Tag(0, 11, 0, 1, 100, 3))
  {
  }

  // ---------------------------------------------------------------------------
  // parseLRC

  /** One line of an LRC file: its first time tag is removed, the rest trimmed,
      and the line kept when that text is non-empty and does not start with `[`. */
  function ParseLine(line: string): (r: Option<Lyric>)
    ensures r.Some? ==> r.value.text != [] && r.value.text[0] != '['
    ensures r.Some? ==> !IsWhite(r.value.text[0]) && !IsWhite(r.value.text[|r.value.text| - 1])
    ensures r.Some? ==> exists i :: TagAt(line, i).Some? && r.value.time == TagMillis(TagAt(line, i).value)
    ensures (forall i :: TagAt(line, i).None?) ==> r.None?
    ensures FindTag(line, 0).Some? ==> r == EntryAfterTag(line, FindTag(line, 0).value)
  {
    var found := FindTag(line, 0);
    if found.None? then None else EntryAfterTag(line, found.value)
  }

  /** The entry a line gives once `tag` is cut out of it: the text on both
      sides of the tag, joined and trimmed, kept when it is non-empty and does
      not start with `[`. */
  function EntryAfterTag(line: string, tag: Tag): (r: Option<Lyric>)
    requires tag.start + tag.length <= |line|
    ensures var text := Trim(line[..tag.start] + line[tag.start + tag.length..]);
      && (r.Some? <==> text != [] && text[0] != '[')
      && (r.Some? ==> r.value == Lyric(TagMillis(tag), text))
  {
    var text := Trim(line[..tag.start] + line[tag.start + tag.length..]);
    if text != [] && text[0] != '[' then Some(Lyric(TagMillis(tag), text)) else None
  }

  /** The entries the lines give, in line order. */
  function Collect(lines: seq<string>): seq<Lyric>
  {
    if lines == [] then []
    else
      var rest := Collect(lines[..|lines| - 1]);
      match ParseLine(lines[|lines| - 1])
      case None => rest
      case Some(l) => rest + [l]
  }

  /** Entries keep the order of their lines: parsing a text in two parts and
      concatenating gives the entries of the whole. */
  lemma {:induction false} CollectAppend(a: seq<string>, b: seq<string>)
    ensures Collect(a + b) == Collect(a) + Collect(b)
    decreases |b|
  {
    if b == [] {
      assert a + b == a;
    } else {
      var b' := b[..|b| - 1];
      var last := b[|b| - 1];
      assert (a + b)[..|a + b| - 1] == a + b';
      assert (a + b)[|a + b| - 1] == last;
      CollectAppend(a, b');
      match ParseLine(last)
      case None =>
        assert Collect(a + b) == Collect(a + b');
        assert Collect(b) == Collect(b');
      case Some(l) =>
        assert Collect(a + b) == Collect(a + b') + [l];
        assert Collect(b) == Collect(b') + [l];
    }
  }

  /** Every entry has non-empty text that does not start with `[`, and there
      is at most one entry per line. */
  lemma {:induction false} CollectEntries(lines: seq<string>)
    ensures |Collect(lines)| <= |lines|
    ensures forall k :: 0 <= k < |Collect(lines)| ==>
      Collect(lines)[k].text != [] && Collect(lines)[k].text[0] != '['
  {
    if lines != [] {
      var init := lines[..|lines| - 1];
      CollectEntries(init);
      var entry := ParseLine(lines[|lines| - 1]);
      if entry.Some? {
        assert Collect(lines) == Collect(init) + [entry.value];
      } else {
        assert Collect(lines) == Collect(init);
      }
    }
  }

  /** A line made of a two-digit-fraction tag and already trimmed text parses
      back to that text at the tag's time. */
  lemma LrcLineRoundTrip(mm: nat, ss: nat, cs: nat, text: string)
    requires mm < 100 && ss < 100 && cs < 100
    requires text != [] && text[0] != '[' && !IsWhite(text[0]) && !IsWhite(text[|text| - 1])
    ensures ParseLine(TagLine(mm, ss, cs, text)) == Some(Lyric(TagMillis(Tag(0, 10, mm, ss, cs, 2)), text))
  {
    var line := TagLine(mm, ss, cs, text);
    var tag := Tag(0, 10, mm, ss, cs, 2);
    TagLineTag(mm, ss, cs, text);
    assert FindTag(line, 0) == Some(tag);
    assert line[10..] == text;
    LeadingTagEntry(line, tag, text);
  }

  /** A tag after leading white space is found, and the white space around
      the text is dropped. */
  lemma TagAfterWhiteExample()
    ensures ParseLine("  [00:01.00] hi ") == Some(Lyric(1000, "hi"))
  {
    var line := "  [00:01.00] hi ";
    ExampleLines();
    FirstTagCut(line, 2);
    HiTrimmed();
    assert EntryAfterTag(line, Tag(2, 10, 0, 1, 0, 2)) == Some(Lyric(1000, "hi"));
  }

  /** Text before the tag is kept just as text after it is. */
  lemma TextBeforeTagExample()
    ensures ParseLine("hi [00:01.00]") == Some(Lyric(1000, "hi"))
  {
    var line := "hi [00:01.00]";
    ExampleLines();
    FirstTagCut(line, 3);
    HiTrimmed();
    assert EntryAfterTag(line, Tag(3, 10, 0, 1, 0, 2)) == Some(Lyric(1000, "hi"));
  }

  /** Where the tags of the two example lines are, and what lies around them. */
  lemma ExampleLines()
    ensures var line := "  [00:01.00] hi ";
      && TagAt(line, 0).None? && TagAt(line, 1).None? && TagAt(line, 2) == Some(Tag(2, 10, 0, 1, 0, 2))
      && line[..2] == "  " && line[12..] == " hi "
    ensures var line := "hi [00:01.00]";
      && TagAt(line, 0).None? && TagAt(line, 1).None? && TagAt(line, 2).None?
      && TagAt(line, 3) == Some(Tag(3, 10, 0, 1, 0, 2))
      && line[..3] == "hi " && line[13..] == ""
  {
  }

  lemma HiTrimmed()
    ensures Trim("  " + " hi ") == "hi" && Trim("hi " + "") == "hi"
  {
    assert "  " + " hi " == "   " + "hi" + " ";
    TrimAround("   ", "hi", " ");
    assert "hi " + "" == "" + "hi" + " ";
    TrimAround("", "hi", " ");
  }

  /** A line that is a tag followed by trimmed text gives that text. */
  lemma LeadingTagEntry(line: string, tag: Tag, text: string)
    requires tag.start == 0 && tag.length <= |line| && line[tag.length..] == text
    requires text != [] && text[0] != '[' && !IsWhite(text[0]) && !IsWhite(text[|text| - 1])
    ensures EntryAfterTag(line, tag) == Some(Lyric(TagMillis(tag), text))
  {
    assert line[..0] + line[tag.length..] == text;
    TrimTrimmed(text);
  }

  /** Only the leftmost tag is cut out: with the first tag of a line at `i`,
      the line's entry is what is left around that tag, and text before the
      tag counts as much as text after it. */
  lemma FirstTagCut(line: string, i: nat)
    requires TagAt(line, i).Some?
    requires forall k :: 0 <= k < i ==> TagAt(line, k).None?
    ensures var tag := TagAt(line, i).value;
      ParseLine(line) == EntryAfterTag(line, tag)
      && (ParseLine(line).Some? ==> ParseLine(line).value.text == Trim(line[..i] + line[i + tag.length..]))
  {
    var found := FindTag(line, 0);
    assert found.Some? && found.value.start == i;
  }

  lemma TagLineTag(mm: nat, ss: nat, cs: nat, text: string)
    requires mm < 100 && ss < 100 && cs < 100
    ensures TagAt(TagLine(mm, ss, cs, text), 0) == Some(Tag(0, 10, mm, ss, cs, 2))
  {
    var line := TagLine(mm, ss, cs, text);
    assert line[9] == ']';
    assert Digits2(line[1], line[2]) == mm;
    assert Digits2(line[4], line[5]) == ss;
    assert Digits2(line[7], line[8]) == cs;
  }

  /** `[mm:ss.cc]text`. */
  function TagLine(mm: nat, ss: nat, cs: nat, text: string): string
    requires mm < 100 && ss < 100 && cs < 100
  {
    ['[', DigitChar(mm / 10), DigitChar(mm % 10), ':', DigitChar(ss / 10), DigitChar(ss % 10),
     '.', DigitChar(cs / 10), DigitChar(cs % 10), ']'] + text
  }

  /** `parseLRC`: split the text at line feeds and collect the lines' entries. */
  method ParseLrc(lrc: string) returns (lyrics: seq<Lyric>)
    ensures lyrics == Collect(SplitLines(lrc))
    ensures forall k :: 0 <= k < |lyrics| ==> lyrics[k].text != [] && lyrics[k].text[0] != '['
  {
    var lines := SplitLines(lrc);
    lyrics := [];
    for i := 0 to |lines|
      invariant lyrics == Collect(lines[..i])
    {
      assert lines[..i + 1][..i] == lines[..i];
      var entry := ParseLine(lines[i]);
      if entry.Some? {
        lyrics := lyrics + [entry.value];
      }
    }
    assert lines[..|lines|] == lines;
    CollectEntries(lines);
  }

  // ---------------------------------------------------------------------------
  // The lyric shown at playback position `t`

  /** Entry `k` has started by `t` and its successor, if any, has not. */
  predicate IsCurrentAt(lyrics: seq<Lyric>, k: nat, t: int)
    requires k < |lyrics|
  {
    lyrics[k].time <= t && (k + 1 == |lyrics| || lyrics[k + 1].time > t)
  }

  /** `lyrics.find(...)` from index `from`: the first entry current at `t`. */
  function FindCurrent(lyrics: seq<Lyric>, t: int, from: nat): (r: Option<nat>)
    decreases |lyrics| - from
    ensures r.Some? ==> from <= r.value < |lyrics| && IsCurrentAt(lyrics, r.value, t)
    ensures r.Some? ==> forall k :: from <= k < r.value ==> !IsCurrentAt(lyrics, k, t)
    ensures r.None? ==> forall k :: from <= k < |lyrics| ==> !IsCurrentAt(lyrics, k, t)
  {
    if from >= |lyrics| then None
    else if IsCurrentAt(lyrics, from, t) then Some(from)
    else FindCurrent(lyrics, t, from + 1)
  }

  /** Some entry is current exactly when some entry has started by `t`. */
  lemma FindCurrentSomeIff(lyrics: seq<Lyric>, t: int)
    ensures FindCurrent(lyrics, t, 0).Some? <==> exists k :: 0 <= k < |lyrics| && lyrics[k].time <= t
  {
    if exists k :: 0 <= k < |lyrics| && lyrics[k].time <= t {
      var k :| 0 <= k < |lyrics| && lyrics[k].time <= t;
      CurrentAfter(lyrics, t, k);
    }
  }

  lemma {:induction false} CurrentAfter(lyrics: seq<Lyric>, t: int, k: nat)
    requires k < |lyrics| && lyrics[k].time <= t
    ensures exists j :: k <= j < |lyrics| && IsCurrentAt(lyrics, j, t)
    decreases |lyrics| - k
  {
    if !IsCurrentAt(lyrics, k, t) {
      CurrentAfter(lyrics, t, k + 1);
    }
  }

  predicate SortedByTime(lyrics: seq<Lyric>) {
    forall i, j :: 0 <= i <= j < |lyrics| ==> lyrics[i].time <= lyrics[j].time
  }

  /** For entries in time order the current entry is the last one that has started. */
  lemma SortedCurrentIsLastStarted(lyrics: seq<Lyric>, t: int)
    requires SortedByTime(lyrics)
    requires FindCurrent(lyrics, t, 0).Some?
    ensures var k := FindCurrent(lyrics, t, 0).value;
      lyrics[k].time <= t && forall j :: k < j < |lyrics| ==> lyrics[j].time > t
  {
  }

  /** The texts `handleTimeUpdate` hands to the lyrics context: the current
      entry's, and its successor's or `''` after the last one. */
  function LyricPair(lyrics: seq<Lyric>, k: nat): (p: (string, string))
    requires k < |lyrics|
    ensures p.0 == lyrics[k].text
    ensures k + 1 < |lyrics| ==> p.1 == lyrics[k + 1].text
    ensures k + 1 == |lyrics| ==> p.1 == ""
  {
    (lyrics[k].text, if k + 1 < |lyrics| then lyrics[k + 1].text else "")
  }

  // ---------------------------------------------------------------------------
  // Time display and track navigation

  /** `formatTime`: `Math.floor(time / 60)`, a colon, then `Math.floor(time % 60)`
      with a `0` in front when below ten. Dafny's `/` rounds down for a
      positive divisor, as `Math.floor` of the quotient does. */
  function FormatTime(time: int): string
  {
    var minutes := time / 60;
    var seconds := JsRem(time, 60);
    IntToString(minutes) + ":" + (if seconds < 10 then "0" else "") + IntToString(seconds)
  }

  lemma FormatTimeShape(time: int)
    requires time >= 0
    ensures FormatTime(time) == NatToString(time / 60) + ":" + Pad2(time % 60)
  {
    NatToStringSmall(time % 60);
  }

  /** For a non-negative time the text is the minutes, a colon and exactly two
      digits of seconds, and reading both numbers back gives the time. */
  lemma FormatTimeRoundTrip(time: int)
    requires time >= 0
    ensures var s := FormatTime(time);
      && |s| >= 4 && s[|s| - 3] == ':'
      && AllDigits(s[..|s| - 3]) && AllDigits(s[|s| - 2..])
      && ParseDigits(s[|s| - 2..]) < 60
      && ParseDigits(s[..|s| - 3]) * 60 + ParseDigits(s[|s| - 2..]) == time
  {
    var m := NatToString(time / 60);
    var two := Pad2(time % 60);
    FormatTimeShape(time);
    var s := m + ":" + two;
    assert s[..|s| - 3] == m;
    assert s[|s| - 2..] == two;
    NatToStringRoundTrip(time / 60);
  }

  /** `prevSong`'s index: one back, from the first song to the last. */
  function PrevIndex(i: nat, n: nat): (r: nat)
    requires i < n
    ensures r < n
  {
    if i == 0 then n - 1 else i - 1
  }

  /** `nextSong`'s index: one on, from the last song to the first. */
  function NextIndex(i: nat, n: nat): (r: nat)
    requires i < n
    ensures r < n
  {
    if i == n - 1 then 0 else i + 1
  }

  /** Going back then on, or on then back, returns to the same song. */
  lemma PrevNextInverse(i: nat, n: nat)
    requires i < n
    ensures NextIndex(PrevIndex(i, n), n) == i
    ensures PrevIndex(NextIndex(i, n), n) == i
  {
  }

  /** The song reached by pressing next `steps` times. */
  function Iterate(i: nat, n: nat, steps: nat): (r: nat)
    requires i < n
    ensures r < n
  {
    if steps == 0 then i else NextIndex(Iterate(i, n, steps - 1), n)
  }

  /** Pressing next `k` times moves `k` songs on, wrapping past the end once;
      after `n` presses every song has been played and the player is back. */
  lemma {:induction false} IterateWraps(i: nat, n: nat, k: nat)
    requires i < n && k <= n
    ensures Iterate(i, n, k) == if i + k < n then i + k else i + k - n
  {
    if k > 0 {
      IterateWraps(i, n, k - 1);
    }
  }

  // ---------------------------------------------------------------------------
  // Component state

  /** The state the `LyricsProvider` shares with the player. */
  class LyricsContext {
    var currentLyric: string
    var nextLyric: string
    var isVisible: bool

    constructor ()
      ensures currentLyric == "" && nextLyric == "" && isVisible
    {
      currentLyric, nextLyric, isVisible := "", "", true;
    }
  }

  /** What the player shows for a song without a lyrics file. */
  const NoLyrics: seq<Lyric> := [Lyric(0, "")]

  class GlassPlayer {
    /** The length of the configured song list. */
    const songCount: nat
    /** The provider's context, or `null` when the player runs outside one (the
        default context has no setters, so nothing is written then). */
    const context: LyricsContext?

    var currentSongIndex: nat
    var currentTime: int
    var isPlaying: bool
    var isExpanded: bool
    var isMobile: bool
    var lyrics: seq<Lyric>

    ghost predicate Valid()
      reads this
    {
      currentSongIndex < songCount
    }

    constructor (songCount: nat, context: LyricsContext?)
      requires songCount > 0
      ensures Valid()
      ensures this.songCount == songCount && this.context == context
      ensures currentSongIndex == 0 && currentTime == 0 && !isPlaying && isExpanded && !isMobile
      ensures lyrics == []
    {
      this.songCount := songCount;
      this.context := context;
      currentSongIndex := 0;
      currentTime := 0;
      isPlaying := false;
      isExpanded := true;
      isMobile := false;
      lyrics := [];
    }

    /** `changeSong(index)`, up to its delayed play. */
    method ChangeSong(index: nat)
      requires Valid() && index < songCount
      modifies this
      ensures Valid()
      ensures currentSongIndex == index && currentTime == 0 && !isPlaying
      ensures isExpanded == old(isExpanded) && isMobile == old(isMobile) && lyrics == old(lyrics)
    {
      currentSongIndex := index;
      currentTime := 0;
      isPlaying := false;
    }

    method PrevSong()
      requires Valid()
      modifies this
      ensures Valid()
      ensures currentSongIndex == PrevIndex(old(currentSongIndex), songCount)
      ensures currentTime == 0 && !isPlaying
      ensures isExpanded == old(isExpanded) && isMobile == old(isMobile) && lyrics == old(lyrics)
    {
      ChangeSong(PrevIndex(currentSongIndex, songCount));
    }

    /** `nextSong`, also run when a song ends. */
    method NextSong()
      requires Valid()
      modifies this
      ensures Valid()
      ensures currentSongIndex == NextIndex(old(currentSongIndex), songCount)
      ensures currentTime == 0 && !isPlaying
      ensures isExpanded == old(isExpanded) && isMobile == old(isMobile) && lyrics == old(lyrics)
    {
      ChangeSong(NextIndex(currentSongIndex, songCount));
    }

    /** `togglePlayPause`: flips playing, and shows the lyrics exactly while playing. */
    method TogglePlayPause(hasAudio: bool)
      requires Valid()
      modifies this, context
      ensures Valid()
      ensures isPlaying == (if hasAudio then !old(isPlaying) else old(isPlaying))
      ensures hasAudio && context != null ==> context.isVisible == isPlaying
      ensures !hasAudio && context != null ==> context.isVisible == old(context.isVisible)
      ensures context != null ==>
        context.currentLyric == old(context.currentLyric) && context.nextLyric == old(context.nextLyric)
      ensures currentSongIndex == old(currentSongIndex) && currentTime == old(currentTime)
      ensures isExpanded == old(isExpanded) && isMobile == old(isMobile) && lyrics == old(lyrics)
    {
      if hasAudio {
        isPlaying := !isPlaying;
        if context != null {
          context.isVisible := isPlaying;
        }
      }
    }

    /** `toggleExpanded`, apart from the position it moves the player to. */
    method ToggleExpanded()
      requires Valid()
      modifies this
      ensures Valid()
      ensures isExpanded == !old(isExpanded)
      ensures currentSongIndex == old(currentSongIndex) && currentTime == old(currentTime)
      ensures isPlaying == old(isPlaying) && isMobile == old(isMobile) && lyrics == old(lyrics)
    {
      isExpanded := !isExpanded;
    }

    /** `handleTimeUpdate` at position `t`: records the time and, when some
        entry is current, publishes its text and the next one's. */
    method HandleTimeUpdate(hasAudio: bool, t: int)
      requires Valid()
      modifies this, context
      ensures Valid()
      ensures currentTime == (if hasAudio then t else old(currentTime))
      ensures context != null ==>
        if hasAudio && FindCurrent(lyrics, t, 0).Some? then
          (context.currentLyric, context.nextLyric) == LyricPair(lyrics, FindCurrent(lyrics, t, 0).value)
        else
          context.currentLyric == old(context.currentLyric) && context.nextLyric == old(context.nextLyric)
      ensures context != null ==> context.isVisible == old(context.isVisible)
      ensures currentSongIndex == old(currentSongIndex) && isPlaying == old(isPlaying)
      ensures isExpanded == old(isExpanded) && isMobile == old(isMobile) && lyrics == old(lyrics)
    {
      if hasAudio {
        currentTime := t;
        var found := FindCurrent(lyrics, t, 0);
        if found.Some? && context != null {
          var pair := LyricPair(lyrics, found.value);
          context.currentLyric := pair.0;
          context.nextLyric := pair.1;
        }
      }
    }

    /** The lyrics effect: a song without a lyrics path gets `NoLyrics`; otherwise
        the fetched file is parsed, and a failed fetch (`None`) leaves no lyrics. */
    method LoadLyrics(path: Option<string>, fetched: Option<string>)
      requires Valid()
      modifies this
      ensures Valid()
      ensures path.None? || path.value == "" ==> lyrics == NoLyrics
      ensures path.Some? && path.value != "" && fetched.None? ==> lyrics == []
      ensures path.Some? && path.value != "" && fetched.Some? ==> lyrics == Collect(SplitLines(fetched.value))
      ensures currentSongIndex == old(currentSongIndex) && currentTime == old(currentTime)
      ensures isPlaying == old(isPlaying) && isExpanded == old(isExpanded) && isMobile == old(isMobile)
    {
      if path.None? || path.value == "" {
        lyrics := NoLyrics;
      } else if fetched.None? {
        lyrics := [];
      } else {
        lyrics := ParseLrc(fetched.value);
      }
    }

    /** The mobile check on mount: the User-Agent test, or the server's verdict
        in `data-is-mobile`; a mobile player starts expanded. */
    method CheckMobile(userAgent: string, serverSaysMobile: bool)
      requires Valid()
      modifies this
      ensures Valid()
      ensures isMobile == (DeviceDetection.IsMobile(userAgent) || serverSaysMobile)
      ensures isExpanded == (isMobile || old(isExpanded))
      ensures currentSongIndex == old(currentSongIndex) && currentTime == old(currentTime)
      ensures isPlaying == old(isPlaying) && lyrics == old(lyrics)
    {
      var mobileCheck := DeviceDetection.IsMobile(userAgent);
      isMobile := mobileCheck;
      if mobileCheck {
        isExpanded := true;
      }
      if serverSaysMobile {
        isMobile := true;
        isExpanded := true;
      }
    }
  }
}
