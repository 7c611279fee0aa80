/**
 * The outline side of the generation service: reading chapter titles out of the
 * model's reply, and the fixed outline used when the model cannot be reached.
 */
module Outline {

  import opened Wrappers
  import opened Text

  /** A suffix of `s` that is not empty: what a capture group ending at `$` can be. */
  predicate IsTail(g: string, s: string) {
    0 < |g| <= |s| && g == s[|s| - |g|..]
  }

  lemma TailOfTail(g: string, t: string, s: string)
    requires IsTail(g, t) && IsTail(t, s)
    ensures IsTail(g, s)
  {
  }

  /** Number of leading `\d` characters. */
  function DigitRun(s: string): (k: nat)
    ensures k <= |s|
    ensures forall j :: 0 <= j < k ==> IsDigit(s[j])
    ensures k < |s| ==> !IsDigit(s[k])
  {
    if |s| > 0 && IsDigit(s[0]) then 1 + DigitRun(s[1..]) else 0
  }

  /**
   * `\s*(.+)$` at the start of `s`, with `\s*` having taken `k` characters and giving
   * them back one at a time: the first `k` at which `.+` reaches the end wins.
   */
  function SpacesThenRest(s: string, k: nat): (r: Option<string>)
    requires k <= |s|
    ensures r.Some? ==> IsTail(r.value, s)
  {
    var rest := s[k..];
    if |rest| > 0 && NoLineTerminator(rest) then Some(rest)
    else if k == 0 then None
    else if IsSpace(s[k - 1]) then SpacesThenRest(s, k - 1)
    else None
  }

  /** `\s*(.+)$`, with the greedy `\s*` first taking all leading whitespace. */
  function RestGroup(s: string): (r: Option<string>)
    ensures r.Some? ==> IsTail(r.value, s)
  {
    SpacesThenRest(s, SkipSpaces(s))
  }

  /** `\d+\.\s*(.+)$` with `\d+` having taken `j` digits, backtracking to fewer. */
  function NumberedFrom(s: string, j: nat): (r: Option<string>)
    requires j <= DigitRun(s)
    ensures r.Some? ==> IsTail(r.value, s)
  {
    if j == 0 then None
    else
      var here :=
        if j < |s| && s[j] == '.' then RestGroup(s[j + 1..]) else None;
      if here.Some? then here else NumberedFrom(s, j - 1)
  }

  /** The first alternative, `\d+\.\s*(.+)$`. */
  function NumberedTitle(s: string): (r: Option<string>)
    ensures r.Some? ==> IsTail(r.value, s)
  {
    NumberedFrom(s, DigitRun(s))
  }

  /** `:?\s*(.+)$`: the optional colon is first taken, then left out. */
  function ColonThenRest(u: string): (r: Option<string>)
    ensures r.Some? ==> IsTail(r.value, u)
  {
    var taken := if |u| > 0 && u[0] == ':' then RestGroup(u[1..]) else None;
    if taken.Some? then taken else RestGroup(u)
  }

  /** `\d+:?\s*(.+)$` with `\d+` having taken `j` digits, backtracking to fewer. */
  function ChapterNumberFrom(t: string, j: nat): (r: Option<string>)
    requires j <= DigitRun(t)
    ensures r.Some? ==> IsTail(r.value, t)
  {
    if j == 0 then None
    else
      var here := ColonThenRest(t[j..]);
      if here.Some? then here else ChapterNumberFrom(t, j - 1)
  }

  /** `\s*\d+:?\s*(.+)$` with the first `\s*` having taken `k` characters. */
  function ChapterSpacesFrom(s: string, k: nat): (r: Option<string>)
    requires k <= |s|
    ensures r.Some? ==> IsTail(r.value, s)
  {
    var t := s[k..];
    var here := ChapterNumberFrom(t, DigitRun(t));
    if here.Some? then here
    else if k == 0 then None
    else if IsSpace(s[k - 1]) then ChapterSpacesFrom(s, k - 1)
    else None
  }

  /** ASCII case folding, which is all the `i` flag does to the letters of "Chapter". */
  function AsciiLower(c: char): char {
    if 'A' <= c <= 'Z' then (c as int + 32) as char else c
  }

  predicate IsChapterWord(w: string) {
    |w| == 7 && forall k :: 0 <= k < 7 ==> AsciiLower(w[k]) == "chapter"[k]
  }

  /** The second alternative, `Chapter\s*\d+:?\s*(.+)$`, case-insensitively. */
  function ChapterTitle(s: string): (r: Option<string>)
    ensures r.Some? ==> IsTail(r.value, s)
  {
    if |s| >= 7 && IsChapterWord(s[..7]) then
      var rest := s[7..];
      var g := ChapterSpacesFrom(rest, SkipSpaces(rest));
      if g.Some? then
        TailOfTail(g.value, rest, s);
        g
      else None
    else None
  }

  /**
   * The title a line of the outline reply yields: the line is trimmed, matched against
   * `^(?:\d+\.\s*|Chapter\s*\d+:?\s*)(.+)$` (case-insensitive), and the capture is trimmed.
   */
  function MatchTitle(line: string): (r: Option<string>)
    ensures r.Some? ==> |r.value| > 0
  {
    var t := Trim(line);
    var g := NumberedTitle(t);
    var g' := if g.Some? then g else ChapterTitle(t);
    if g'.Some? then
      TrimNonEmpty(g'.value);
      Some(Trim(g'.value))
    else None
  }

  /** A line that does not start with a digit or with "chapter" yields no title. */
  lemma NoTitleWithoutMarker(line: string)
    requires var t := Trim(line); |t| > 0 && !IsDigit(t[0]) && AsciiLower(t[0]) != 'c'
    ensures MatchTitle(line) == None
  {
    var t := Trim(line);
    assert DigitRun(t) == 0;
    assert |t| >= 7 ==> !IsChapterWord(t[..7]) by {
      if |t| >= 7 { assert t[..7][0] == t[0]; }
    }
  }

  lemma TrimUnchanged(s: string)
    requires |s| > 0 && !IsSpace(s[0]) && !IsSpace(s[|s| - 1])
    ensures Trim(s) == s
  {
    assert SkipSpaces(s) == 0;
    assert EndOfText(s) == |s|;
  }

  /** A title that is already trimmed and holds no line break is what `\s*(.+)$` captures after one blank. */
  lemma RestAfterBlank(title: string)
    requires |title| > 0 && !IsSpace(title[0]) && NoLineTerminator(title)
    ensures RestGroup(" " + title) == Some(title)
  {
    var s := " " + title;
    assert s[1..] == title;
    assert SkipSpaces(s[1..]) == 0;
  }

  /** A digit string followed by a non-digit: `\d+` takes exactly the digit string. */
  lemma {:induction false} DigitRunOfPrefix(ds: string, rest: string)
    requires forall k :: 0 <= k < |ds| ==> IsDigit(ds[k])
    requires |rest| > 0 && !IsDigit(rest[0])
    ensures DigitRun(ds + rest) == |ds|
    decreases |ds|
  {
    if |ds| > 0 {
      assert (ds + rest)[1..] == ds[1..] + rest;
      DigitRunOfPrefix(ds[1..], rest);
    } else {
      assert ds + rest == rest;
    }
  }

  /**
   * A line "n. title", for any number n, gives exactly its trimmed, single-line title, as in
   * "1. Foo" or "12. Foo" giving "Foo".
   */
  lemma NumberedLine(ds: string, title: string)
    requires |ds| > 0 && forall k :: 0 <= k < |ds| ==> IsDigit(ds[k])
    requires |title| > 0 && !IsSpace(title[0]) && !IsSpace(title[|title| - 1])
    requires NoLineTerminator(title)
    ensures MatchTitle(ds + ". " + title) == Some(title)
  {
    var t := ds + ". " + title;
    assert t == ds + (". " + title);
    assert t[0] == ds[0] && t[|t| - 1] == title[|title| - 1];
    TrimUnchanged(t);
    TrimUnchanged(title);
    DigitRunOfPrefix(ds, ". " + title);
    assert t[|ds|] == '.';
    assert t[|ds| + 1..] == " " + title;
    RestAfterBlank(title);
  }

  /** `:?\s*(.+)$` on ": title" takes the colon and the blank and captures the title. */
  lemma ColonTitle(title: string)
    requires |title| > 0 && !IsSpace(title[0]) && NoLineTerminator(title)
    ensures ColonThenRest(": " + title) == Some(title)
  {
    assert (": " + title)[1..] == " " + title;
    RestAfterBlank(title);
  }

  /** `\d+:?\s*(.+)$` on "n: title" captures the title, with `\d+` taking all of n. */
  lemma ChapterNumberTitle(ds: string, title: string)
    requires |ds| > 0 && forall k :: 0 <= k < |ds| ==> IsDigit(ds[k])
    requires |title| > 0 && !IsSpace(title[0]) && NoLineTerminator(title)
    ensures var u := ds + (": " + title); ChapterNumberFrom(u, DigitRun(u)) == Some(title)
  {
    var u := ds + (": " + title);
    DigitRunOfPrefix(ds, ": " + title);
    assert u[|ds|..] == ": " + title;
    ColonTitle(title);
  }

  /** `\s*\d+:?\s*(.+)$` on " u": the leading blank is taken and `u` is matched as before. */
  lemma ChapterSpacesTitle(u: string, title: string)
    requires |u| > 0 && !IsSpace(u[0])
    requires ChapterNumberFrom(u, DigitRun(u)) == Some(title)
    ensures var rest := " " + u; ChapterSpacesFrom(rest, SkipSpaces(rest)) == Some(title)
  {
    var rest := " " + u;
    assert rest[1..] == u;
    assert SkipSpaces(u) == 0;
    assert SkipSpaces(rest) == 1;
  }

  /** "Chapter", as the outline prompt writes it, is the word the `i` flag lets through. */
  lemma CapitalChapterWord()
    ensures IsChapterWord("Chapter")
  {
    var w := "Chapter";
    assert AsciiLower(w[0]) == 'c';
  }

  /** The word "Chapter" followed by text that the rest of the second alternative matches. */
  lemma ChapterWordTitle(r: string, g: string)
    requires ChapterSpacesFrom(r, SkipSpaces(r)) == Some(g)
    ensures ChapterTitle("Chapter" + r) == Some(g)
  {
    var t := "Chapter" + r;
    assert t[..7] == "Chapter";
    CapitalChapterWord();
    assert t[7..] == r;
  }

  /** A trimmed line that only the second alternative matches yields the trimmed capture. */
  lemma ChapterAlternative(t: string, title: string)
    requires Trim(t) == t && Trim(title) == title
    requires NumberedTitle(t) == None && ChapterTitle(t) == Some(title)
    ensures MatchTitle(t) == Some(title)
  {
  }

  /** "Chapter" + r starts with a letter, so trimming it only looks at the end of r. */
  lemma ChapterWordTrimmed(r: string)
    requires |r| > 0 && !IsSpace(r[|r| - 1])
    ensures var t := "Chapter" + r; Trim(t) == t && !IsDigit(t[0])
  {
    var t := "Chapter" + r;
    assert t[0] == 'C';
    assert t[|t| - 1] == r[|r| - 1];
    TrimUnchanged(t);
  }

  /** A line "Chapter" + r, with r ending in a non-blank and matching the rest of the second alternative. */
  lemma ChapterPrefixed(r: string, g: string)
    requires |r| > 0 && !IsSpace(r[|r| - 1])
    requires ChapterSpacesFrom(r, SkipSpaces(r)) == Some(g) && Trim(g) == g
    ensures MatchTitle("Chapter" + r) == Some(g)
  {
    var t := "Chapter" + r;
    ChapterWordTrimmed(r);
    assert DigitRun(t) == 0;
    ChapterWordTitle(r, g);
    ChapterAlternative(t, g);
  }

  /** What follows the word in "Chapter n: title" matches the rest of the second alternative. */
  lemma ChapterRestTitle(ds: string, title: string)
    requires |ds| > 0 && forall k :: 0 <= k < |ds| ==> IsDigit(ds[k])
    requires |title| > 0 && !IsSpace(title[0]) && !IsSpace(title[|title| - 1])
    requires NoLineTerminator(title)
    ensures var r := " " + (ds + (": " + title));
      && !IsSpace(r[|r| - 1])
      && ChapterSpacesFrom(r, SkipSpaces(r)) == Some(title)
  {
    var u := ds + (": " + title);
    var r := " " + u;
    assert !IsSpace(u[0]) by { assert u[0] == ds[0]; }
    assert !IsSpace(r[|r| - 1]) by { assert r[|r| - 1] == title[|title| - 1]; }
    ChapterNumberTitle(ds, title);
    ChapterSpacesTitle(u, title);
  }

  /**
   * A line "Chapter n: title", for any number n, gives exactly its trimmed, single-line
   * title, as in "Chapter 1: Foo" giving "Foo".
   */
  lemma ChapterLine(ds: string, title: string)
    requires |ds| > 0 && forall k :: 0 <= k < |ds| ==> IsDigit(ds[k])
    requires |title| > 0 && !IsSpace(title[0]) && !IsSpace(title[|title| - 1])
    requires NoLineTerminator(title)
    ensures MatchTitle("Chapter " + ds + ": " + title) == Some(title)
  {
    var r := " " + (ds + (": " + title));
    assert "Chapter " + ds + ": " + title == "Chapter" + r;
    TrimUnchanged(title);
    ChapterRestTitle(ds, title);
    ChapterPrefixed(r, title);
  }

  /** "Chapter 12" matches with `\d+` backtracking to "1", so its title is "2". */
  lemma ChapterTwelveExample()
    ensures MatchTitle("Chapter 12") == Some("2")
  {
    var t := "Chapter 12";
    TrimUnchanged(t);
    TrimUnchanged("2");
    assert DigitRun(t) == 0;
    assert t[..7] == "Chapter";
    assert IsChapterWord(t[..7]);
    var rest := t[7..];
    assert rest == " 12";
    assert SkipSpaces(rest[1..]) == 0;
    assert SkipSpaces(rest) == 1;
    var u := rest[1..];
    assert u == "12";
    assert DigitRun(u[2..]) == 0;
    assert DigitRun(u[1..]) == 1;
    assert DigitRun(u) == 2;
    assert u[2..] == [];
    assert RestGroup(u[2..]) == None;
    assert ColonThenRest(u[2..]) == None;
    assert u[1..] == "2";
    assert SkipSpaces("2") == 0;
    assert ColonThenRest(u[1..]) == Some("2");
  }

  /** A number with a dot and nothing after it is not a title. */
  lemma BareNumberExample()
    ensures MatchTitle("1.") == None
  {
    var t := "1.";
    TrimUnchanged(t);
    assert DigitRun(t[1..]) == 0;
    assert DigitRun(t) == 1;
    assert t[2..] == [];
    assert RestGroup(t[2..]) == None;
    assert |t| < 7;
  }

  /** "Chapter 1" alone leaves nothing for the capture group. */
  lemma BareChapterExample()
    ensures MatchTitle("Chapter 1") == None
  {
    var t := "Chapter 1";
    TrimUnchanged(t);
    assert DigitRun(t) == 0;
    var rest := t[7..];
    assert rest == " 1";
    assert SkipSpaces(rest[1..]) == 0;
    assert SkipSpaces(rest) == 1;
    var u := rest[1..];
    assert u == "1";
    assert DigitRun(u[1..]) == 0;
    assert DigitRun(u) == 1;
    assert u[1..] == [];
    assert ColonThenRest(u[1..]) == None;
    assert ChapterNumberFrom(u, 1) == None;
    assert DigitRun(rest) == 0;
    assert ChapterSpacesFrom(rest, 0) == None;
    assert ChapterSpacesFrom(rest, 1) == None;
  }

  // ---------------------------------------------------------------------------
  // parseChapterOutline

  /** The placeholder title "Advanced Topic k". */
  function AdvancedTopic(k: int): (r: string)
    ensures |r| > 0
  {
    "Advanced Topic " + IntToString(k)
  }

  /** The titles the lines yield, in the order of the lines; lines without a title are skipped. */
  function MatchedTitles(lines: seq<string>): (r: seq<string>)
    ensures forall k :: 0 <= k < |r| ==> |r[k]| > 0
  {
    if |lines| == 0 then []
    else
      var t := MatchTitle(lines[|lines| - 1]);
      MatchedTitles(lines[..|lines| - 1]) + (if t.Some? then [t.value] else [])
  }

  /** Matching distributes over concatenation: the titles of `a + b` are those of `a`, then those of `b`. */
  lemma {:induction false} MatchedTitlesConcat(a: seq<string>, b: seq<string>)
    ensures MatchedTitles(a + b) == MatchedTitles(a) + MatchedTitles(b)
    decreases |b|
  {
    if |b| > 0 {
      var b' := b[..|b| - 1];
      assert (a + b)[..|a + b| - 1] == a + b';
      assert (a + b)[|a + b| - 1] == b[|b| - 1];
      MatchedTitlesConcat(a, b');
    } else {
      assert a + b == a;
    }
  }

  /** The padding loop: "Advanced Topic k" is appended at 1-based position k until there are `n` titles. */
  function Padded(c: seq<string>, n: int): (r: seq<string>)
    ensures |r| == if |c| >= n then |c| else n
    ensures r[..|c|] == c
    ensures forall k :: |c| <= k < |r| ==> r[k] == AdvancedTopic(k + 1)
    decreases n - |c|
  {
    if |c| >= n then c else Padded(c + [AdvancedTopic(|c| + 1)], n)
  }

  /** The specification of parseChapterOutline: match, pad, then `slice(0, n)`. */
  function OutlineFromText(text: string, n: int): seq<string> {
    Slice(Padded(MatchedTitles(Split(text, '\n')), n), 0, n)
  }

  /**
   * For a non-negative count the parsed outline has exactly `n` non-empty titles: the
   * first `n` matched titles when there are enough, otherwise all of them followed by
   * "Advanced Topic k" at each remaining 1-based position k.
   */
  lemma ParsedOutlineShape(text: string, n: int)
    requires n >= 0
    ensures var r := OutlineFromText(text, n); var m := MatchedTitles(Split(text, '\n'));
      && |r| == n
      && (forall k :: 0 <= k < n ==> |r[k]| > 0)
      && (|m| >= n ==> r == m[..n])
      && (|m| < n ==> r[..|m|] == m && forall k :: |m| <= k < n ==> r[k] == AdvancedTopic(k + 1))
  {
    var m := MatchedTitles(Split(text, '\n'));
    var p := Padded(m, n);
    if |m| >= n {
      assert p == m;
    } else {
      assert |p| == n;
      assert Slice(p, 0, n) == p;
    }
  }

  /** A negative count behaves as JavaScript's `slice(0, n)` does: it drops the last |n| titles. */
  lemma ParsedOutlineNegative(text: string, n: int)
    requires n < 0
    ensures var m := MatchedTitles(Split(text, '\n'));
      OutlineFromText(text, n) == m[..if |m| + n < 0 then 0 else |m| + n]
  {
  }

  /** The outline parser as the service runs it: a loop collecting titles, a padding loop, a slice. */
  method ParseChapterOutline(generatedText: string, expectedChapters: int) returns (chapters: seq<string>)
    ensures chapters == OutlineFromText(generatedText, expectedChapters)
    ensures expectedChapters >= 0 ==>
      |chapters| == expectedChapters && forall k :: 0 <= k < |chapters| ==> |chapters[k]| > 0
  {
    var lines := Split(generatedText, '\n');
    chapters := [];
    for i := 0 to |lines|
      invariant chapters == MatchedTitles(lines[..i])
    {
      assert lines[..i + 1][..i] == lines[..i];
      var title := MatchTitle(lines[i]);
      if title.Some? {
        chapters := chapters + [title.value];
      }
    }
    assert lines[..|lines|] == lines;
    ghost var matched := chapters;
    while |chapters| < expectedChapters
      invariant Padded(chapters, expectedChapters) == Padded(matched, expectedChapters)
      decreases expectedChapters - |chapters|
    {
      chapters := chapters + [AdvancedTopic(|chapters| + 1)];
    }
    chapters := Slice(chapters, 0, expectedChapters);
    if expectedChapters >= 0 {
      ParsedOutlineShape(generatedText, expectedChapters);
    }
  }

  // ---------------------------------------------------------------------------
  // generateFallbackOutline

  /** The fixed library of twelve generic titles. */
  function BaseChapters(topic: string): (r: seq<string>)
    ensures |r| == 12 && forall k :: 0 <= k < 12 ==> |r[k]| > 0
  {
    [ "Introduction to " + topic,
      "Fundamental Concepts",
      "Core Principles",
      "Practical Applications",
      "Advanced Techniques",
      "Case Studies and Examples",
      "Best Practices",
      "Tools and Technologies",
      "Implementation Strategies",
      "Future Trends",
      "Troubleshooting",
      "Conclusion and Next Steps" ]
  }

  /** The specification of generateFallbackOutline. */
  function FallbackOutline(topic: string, n: int): seq<string> {
    var base := BaseChapters(topic);
    if n <= |base| then Slice(base, 0, n)
    else base + Placeholders(n - |base|)
  }

  /**
   * For a non-negative count the fallback outline has exactly `n` non-empty titles, opens
   * with "Introduction to <topic>", is a prefix of the library for up to twelve chapters,
   * and past twelve continues with "Advanced Topic 1", "Advanced Topic 2", ...
   */
  lemma FallbackOutlineShape(topic: string, n: int)
    requires n >= 0
    ensures var r := FallbackOutline(topic, n); var base := BaseChapters(topic);
      && |r| == n
      && (forall k :: 0 <= k < n ==> |r[k]| > 0)
      && (n > 0 ==> r[0] == "Introduction to " + topic)
      && (n <= 12 ==> r == base[..n])
      && (n > 12 ==> r[..12] == base && forall k :: 12 <= k < n ==> r[k] == AdvancedTopic(k - 11))
  {
    var base := BaseChapters(topic);
    ExtendedShape(base, n);
    if n > 0 {
      BaseOpensWithIntroduction(topic);
    }
  }

  lemma BaseOpensWithIntroduction(topic: string)
    ensures BaseChapters(topic)[0] == "Introduction to " + topic
  {
  }

  /** The library of twelve titles, cut to `n` or followed by placeholders. */
  lemma ExtendedShape(base: seq<string>, n: int)
    requires n >= 0 && |base| == 12 && forall k :: 0 <= k < 12 ==> |base[k]| > 0
    ensures var r := if n <= |base| then Slice(base, 0, n) else base + Placeholders(n - |base|);
      && |r| == n
      && (forall k :: 0 <= k < n ==> |r[k]| > 0)
      && (n > 0 ==> r[0] == base[0])
      && (n <= 12 ==> r == base[..n])
      && (n > 12 ==> r[..12] == base && forall k :: 12 <= k < n ==> r[k] == AdvancedTopic(k - 11))
  {
    var r := if n <= |base| then Slice(base, 0, n) else base + Placeholders(n - |base|);
    if n > 12 {
      assert r[..12] == base;
    }
  }

  /** generateFallbackOutline as the service runs it: copy the library, then append placeholders. */
  method GenerateFallbackOutline(topic: string, chapters: int) returns (result: seq<string>)
    ensures result == FallbackOutline(topic, chapters)
  {
    var baseChapters := BaseChapters(topic);
    if chapters <= |baseChapters| {
      return Slice(baseChapters, 0, chapters);
    }
    result := baseChapters;
    for i := |baseChapters| to chapters
      invariant result == baseChapters + Placeholders(i - |baseChapters|)
    {
      PlaceholdersStep(baseChapters, i - |baseChapters|);
      result := result + [AdvancedTopic(i - |baseChapters| + 1)];
    }
  }

  /** "Advanced Topic 1" up to "Advanced Topic m". */
  function Placeholders(m: nat): seq<string> {
    seq(m, k => AdvancedTopic(k + 1))
  }

  lemma PlaceholdersStep(base: seq<string>, m: nat)
    ensures base + Placeholders(m) + [AdvancedTopic(m + 1)] == base + Placeholders(m + 1)
  {
    assert Placeholders(m) + [AdvancedTopic(m + 1)] == Placeholders(m + 1);
  }

  lemma SplitSecondLine()
    ensures Split("2. Bar\n", '\n') == ["2. Bar", ""]
  {
    NoNewline("2. Bar");
    assert "2. Bar\n" == "2. Bar" + "\n" + "";
    SplitAtFirst("2. Bar", "");
  }

  lemma SplitExample()
    ensures Split("1. Foo\n2. Bar\n", '\n') == ["1. Foo", "2. Bar", ""]
  {
    NoNewline("1. Foo");
    assert "1. Foo\n2. Bar\n" == "1. Foo" + "\n" + "2. Bar\n";
    SplitAtFirst("1. Foo", "2. Bar\n");
    SplitSecondLine();
  }

  lemma NoNewline(a: string)
    requires |a| == 6 && forall k :: 0 <= k < 6 ==> a[k] != '\n'
    ensures '\n' !in a
  {
  }

  lemma SplitAtFirst(a: string, b: string)
    requires '\n' !in a
    ensures Split(a + "\n" + b, '\n') == [a] + Split(b, '\n')
  {
    var s := a + "\n" + b;
    assert s[|a|] == '\n';
    assert s[..|a|] == a;
    assert s[|a| + 1..] == b;
  }

  lemma PaddedExample()
    ensures Padded(["Foo", "Bar"], 4) == ["Foo", "Bar", "Advanced Topic 3", "Advanced Topic 4"]
  {
    assert NatToString(3) == "3";
    assert NatToString(4) == "4";
    assert AdvancedTopic(3) == "Advanced Topic 3";
    assert AdvancedTopic(4) == "Advanced Topic 4";
    var p := Padded(["Foo", "Bar"], 4);
    assert p[..2] == ["Foo", "Bar"];
    assert p[0] == "Foo" && p[1] == "Bar";
  }

  lemma EmptyLineExample()
    ensures MatchTitle("") == None
  {
  }
}
