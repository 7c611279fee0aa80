/**
 * The chapter-content normaliser (a header is added when missing, then a chain of eight
 * global regular-expression replacements, `trim`, and a closing newline) and the fixed
 * fallback chapter used when the model cannot be reached.
 */
module Content {

  import opened Wrappers
  import opened Text
  import opened Config
  import opened Prompts

  // ---------------------------------------------------------------------------
  // The replacement rules of formatChapterContent

  /** One `String.prototype.replace(/.../g, ...)` of the cleanup chain, in source order. */
  datatype Rule =
    | CapNewlines         // /\n{4,}/g                 -> "\n\n\n"
    | SectionBreak        // /\\section\{([^}]+)\}/g    -> "\\section{$1}\n"
    | SubsectionBreak     // /\\subsection\{([^}]+)\}/g -> "\\subsection{$1}\n"
    | SubsubsectionBreak  // /\\subsubsection\{([^}]+)\}/g -> "\\subsubsection{$1}\n"
    | BeginBreak          // /\\begin\{([^}]+)\}/g      -> "\n\\begin{$1}"
    | EndBreak            // /\\end\{([^}]+)\}/g        -> "\\end{$1}\n"
    | DisplayMath         // /\$\$([^$]+)\$\$/g         -> "\n\\[\n$1\n\\]\n"
    | BlankLines          // /\n\s*\n\s*\n/g            -> "\n\n"

  const FormatRules: seq<Rule> :=
    [CapNewlines, SectionBreak, SubsectionBreak, SubsubsectionBreak, BeginBreak, EndBreak, DisplayMath, BlankLines]

  /** The rules of the form `open([^x]+)close`: a literal opening, a group, a literal closing. */
  predicate Delimited(rule: Rule) {
    !rule.CapNewlines? && !rule.BlankLines?
  }

  function Opening(rule: Rule): string
    requires Delimited(rule)
  {
    match rule
    case SectionBreak => "\\section{"
    case SubsectionBreak => "\\subsection{"
    case SubsubsectionBreak => "\\subsubsection{"
    case BeginBreak => "\\begin{"
    case EndBreak => "\\end{"
    case DisplayMath => "$$"
  }

  /** The character the group may not contain; the closing starts with it. */
  function Excluded(rule: Rule): char
    requires Delimited(rule)
  {
    if rule.DisplayMath? then '$' else '}'
  }

  function Closing(rule: Rule): string
    requires Delimited(rule)
  {
    if rule.DisplayMath? then "$$" else "}"
  }

  /** The replacement text, with `$1` bound to the group. */
  function Replacement(rule: Rule, group: string): string
    requires Delimited(rule)
  {
    match rule
    case SectionBreak => "\\section{" + group + "}\n"
    case SubsectionBreak => "\\subsection{" + group + "}\n"
    case SubsubsectionBreak => "\\subsubsection{" + group + "}\n"
    case BeginBreak => "\n\\begin{" + group + "}"
    case EndBreak => "\\end{" + group + "}\n"
    case DisplayMath => "\n\\[\n" + group + "\n\\]\n"
  }

  /** A match found at the front of the remaining text: its length and what replaces it. */
  datatype Rewrite = Rewrite(len: nat, text: string)

  /** The only characters at which some rule can start matching. */
  predicate Trigger(c: char) {
    c == '\n' || c == '\\' || c == '$'
  }

  /** The length of the longest prefix of `s` made of `c`. */
  function RunOf(s: string, c: char): (k: nat)
    ensures k <= |s|
    ensures forall j :: 0 <= j < k ==> s[j] == c
    ensures k < |s| ==> s[k] != c
  {
    if |s| > 0 && s[0] == c then 1 + RunOf(s[1..], c) else 0
  }

  /** The length of the longest prefix of `s` free of `c`: what a greedy `[^c]+` consumes. */
  function RunWithout(s: string, c: char): (k: nat)
    ensures k <= |s|
    ensures forall j :: 0 <= j < k ==> s[j] != c
    ensures k < |s| ==> s[k] == c
  {
    if |s| > 0 && s[0] != c then 1 + RunWithout(s[1..], c) else 0
  }

  /**
   * `open([^x]+)close` at the front of `s`, as the group length. The greedy group takes the
   * whole run of non-`x` characters; backing off cannot help, since every shorter run is
   * followed by a non-`x` character while the closing starts with `x`.
   */
  function DelimitedGroup(open: string, excl: char, close: string, s: string): (r: Option<nat>)
    ensures r.Some? ==> && 0 < r.value && |open| + r.value + |close| <= |s|
                        && open <= s && close <= s[|open| + r.value..]
                        && forall j :: |open| <= j < |open| + r.value ==> s[j] != excl
  {
    if open <= s then
      var u := s[|open|..];
      var k := RunWithout(u, excl);
      if k > 0 && close <= u[k..] then Some(k) else None
    else None
  }

  /**
   * `\s*\n` at the front of `u`, the `\s*` trying `k`, `k - 1`, ..., 0 characters in turn:
   * the length of the first match found.
   */
  function SpacesNewline(u: string, k: nat): (r: Option<nat>)
    requires k <= SkipSpaces(u)
    ensures r.Some? ==> 0 < r.value <= |u| && forall j :: 0 <= j < r.value ==> IsSpace(u[j])
    decreases k
  {
    if k < |u| && u[k] == '\n' then Some(k + 1)
    else if k == 0 then None
    else SpacesNewline(u, k - 1)
  }

  /** `\s*\n\s*\n` at the front of `u`, the first `\s*` trying `k`, `k - 1`, ..., 0 characters. */
  function SpacesNewlineTwice(u: string, k: nat): (r: Option<nat>)
    requires k <= SkipSpaces(u)
    ensures r.Some? ==> 0 < r.value <= |u| && forall j :: 0 <= j < r.value ==> IsSpace(u[j])
    decreases k
  {
    var rest := if k < |u| && u[k] == '\n' then SpacesNewline(u[k + 1..], SkipSpaces(u[k + 1..])) else None;
    if rest.Some? then Some(k + 1 + rest.value)
    else if k == 0 then None
    else SpacesNewlineTwice(u, k - 1)
  }

  /** The rule matched at the front of `s`, if it matches there. */
  function MatchAt(rule: Rule, s: string): (r: Option<Rewrite>)
    ensures r.Some? ==> 0 < r.value.len <= |s| && Trigger(s[0])
  {
    match rule
    case CapNewlines =>
      var k := RunOf(s, '\n');
      if k >= 4 then Some(Rewrite(k, "\n\n\n")) else None
    case BlankLines =>
      if |s| > 0 && s[0] == '\n' then
        var m := SpacesNewlineTwice(s[1..], SkipSpaces(s[1..]));
        if m.Some? then Some(Rewrite(1 + m.value, "\n\n")) else None
      else None
    case _ =>
      var open, close := Opening(rule), Closing(rule);
      var g := DelimitedGroup(open, Excluded(rule), close, s);
      if g.Some? then
        assert s[0] == open[0];
        Some(Rewrite(|open| + g.value + |close|, Replacement(rule, s[|open|..|open| + g.value])))
      else None
  }

  /**
   * A global replace: the text is scanned left to right, each match is replaced and the scan
   * resumes after it; characters where no match starts are copied.
   */
  function GlobalReplace(rule: Rule, s: string): string
    decreases |s|
  {
    if |s| == 0 then ""
    else
      var m := MatchAt(rule, s);
      if m.Some? then m.value.text + GlobalReplace(rule, s[m.value.len..])
      else [s[0]] + GlobalReplace(rule, s[1..])
  }

  /** The replacements applied one after another. */
  function ReplaceChain(rules: seq<Rule>, s: string): string
    decreases |rules|
  {
    if |rules| == 0 then s else ReplaceChain(rules[1..], GlobalReplace(rules[0], s))
  }

  predicate Quiet(t: string) {
    forall j :: 0 <= j < |t| ==> !Trigger(t[j])
  }

  /** A stretch of text with no trigger character is copied unchanged by every rule. */
  lemma {:induction false} QuietCopied(rule: Rule, t: string, rest: string)
    requires Quiet(t)
    ensures GlobalReplace(rule, t + rest) == t + GlobalReplace(rule, rest)
    decreases |t|
  {
    if |t| > 0 {
      var s := t + rest;
      assert s[0] == t[0];
      assert s[1..] == t[1..] + rest;
      QuietCopied(rule, t[1..], rest);
      assert [t[0]] + t[1..] == t;
      ConcatAssoc([t[0]], t[1..], GlobalReplace(rule, rest));
    } else {
      assert t + rest == rest;
    }
  }

  /** Text without any trigger character is left as it is. */
  lemma QuietUnchanged(rule: Rule, t: string)
    requires Quiet(t)
    ensures GlobalReplace(rule, t) == t
  {
    QuietCopied(rule, t, "");
    assert t + "" == t;
  }

  /** Text with no backslash and no dollar sign is left as it is by the six delimited rules. */
  lemma {:induction false} NoDelimiterUnchanged(rule: Rule, t: string)
    requires Delimited(rule)
    requires forall j :: 0 <= j < |t| ==> t[j] != '\\' && t[j] != '$'
    ensures GlobalReplace(rule, t) == t
    decreases |t|
  {
    if |t| > 0 {
      assert Opening(rule)[0] == '\\' || Opening(rule)[0] == '$';
      assert !(Opening(rule) <= t);
      NoDelimiterUnchanged(rule, t[1..]);
      assert [t[0]] + t[1..] == t;
    }
  }

  /** The chain applies the eight rules one after another, in the order the source lists them. */
  lemma ChainInOrder(s: string)
    ensures ReplaceChain(FormatRules, s)
         == GlobalReplace(BlankLines, GlobalReplace(DisplayMath, GlobalReplace(EndBreak,
              GlobalReplace(BeginBreak, GlobalReplace(SubsubsectionBreak, GlobalReplace(SubsectionBreak,
                GlobalReplace(SectionBreak, GlobalReplace(CapNewlines, s))))))))
  {
    var r := FormatRules;
    assert r[1..][0] == SectionBreak && r[1..][1..][0] == SubsectionBreak;
    assert r[1..][1..][1..][0] == SubsubsectionBreak && r[1..][1..][1..][1..][0] == BeginBreak;
    assert r[1..][1..][1..][1..][1..][0] == EndBreak && r[1..][1..][1..][1..][1..][1..][0] == DisplayMath;
    assert r[1..][1..][1..][1..][1..][1..][1..] == [BlankLines];
  }

  /** Text with no backslash and no dollar sign passes the six middle rules of the chain unchanged. */
  lemma DelimitedRulesKeep(t: string)
    requires forall j :: 0 <= j < |t| ==> t[j] != '\\' && t[j] != '$'
    ensures GlobalReplace(DisplayMath, GlobalReplace(EndBreak, GlobalReplace(BeginBreak,
              GlobalReplace(SubsubsectionBreak, GlobalReplace(SubsectionBreak, GlobalReplace(SectionBreak, t))))))
         == t
  {
    NoDelimiterUnchanged(SectionBreak, t);
    NoDelimiterUnchanged(SubsectionBreak, t);
    NoDelimiterUnchanged(SubsubsectionBreak, t);
    NoDelimiterUnchanged(BeginBreak, t);
    NoDelimiterUnchanged(EndBreak, t);
    NoDelimiterUnchanged(DisplayMath, t);
  }

  /** The cap at the front of four newlines and a character that is not one. */
  lemma CapOfFour(y: char)
    requires y != '\n'
    ensures GlobalReplace(CapNewlines, ['\n', '\n', '\n', '\n', y]) == ['\n', '\n', '\n', y]
  {
    var t := ['\n', '\n', '\n', '\n', y];
    assert t[0] == t[1] == t[2] == t[3] == '\n' && t[4] == y;
    assert RunOf(t, '\n') == 4;
    assert MatchAt(CapNewlines, t) == Some(Rewrite(4, "\n\n\n"));
    assert t[4..] == [y];
    assert RunOf([y], '\n') == 0;
    assert MatchAt(CapNewlines, [y]) == None;
    assert GlobalReplace(CapNewlines, [y]) == [y] + GlobalReplace(CapNewlines, []);
  }

  /** The blank-line rule at the front of three newlines and a character that is not whitespace. */
  lemma BlankOfThree(y: char)
    requires !IsSpace(y)
    ensures GlobalReplace(BlankLines, ['\n', '\n', '\n', y]) == ['\n', '\n', y]
  {
    var t := ['\n', '\n', '\n', y];
    var u := t[1..];
    assert u == ['\n', '\n', y] && IsSpace(u[0]) && IsSpace(u[1]) && u[2] == y;
    assert SkipSpaces(u) == 2;
    assert u[1..] == ['\n', y] && IsSpace(u[1..][0]);
    assert SkipSpaces(u[1..]) == 1;
    assert SpacesNewline(u[1..], 1) == Some(1);
    assert SpacesNewlineTwice(u, 0) == Some(2);
    assert u[2..] == [y] && SkipSpaces([y]) == 0;
    assert SpacesNewline(u[2..], 0) == None;
    assert SpacesNewlineTwice(u, 1) == Some(2);
    assert SpacesNewlineTwice(u, 2) == Some(2);
    assert MatchAt(BlankLines, t) == Some(Rewrite(3, "\n\n"));
    assert t[3..] == [y];
    assert MatchAt(BlankLines, [y]) == None;
    assert GlobalReplace(BlankLines, [y]) == [y] + GlobalReplace(BlankLines, []);
  }

  /** The cap on the six-character text: the four newlines become three. */
  lemma CapStep(x: char, y: char)
    requires !Trigger(x) && y != '\n'
    ensures GlobalReplace(CapNewlines, [x, '\n', '\n', '\n', '\n', y]) == [x, '\n', '\n', '\n', y]
  {
    var s := [x, '\n', '\n', '\n', '\n', y];
    CapOfFour(y);
    assert s[1..] == ['\n', '\n', '\n', '\n', y];
    assert MatchAt(CapNewlines, s) == None;
  }

  /** The blank-line rule on the five-character text: the three newlines become two. */
  lemma BlankStep(x: char, y: char)
    requires !Trigger(x) && !IsSpace(y)
    ensures GlobalReplace(BlankLines, [x, '\n', '\n', '\n', y]) == [x, '\n', '\n', y]
  {
    var s := [x, '\n', '\n', '\n', y];
    BlankOfThree(y);
    assert s[1..] == ['\n', '\n', '\n', y];
    assert MatchAt(BlankLines, s) == None;
  }

  /** When the delimited rules leave the capped text alone, the chain is the cap followed by the blank-line rule. */
  lemma ChainThroughCap(s: string, capped: string, done: string)
    requires GlobalReplace(CapNewlines, s) == capped
    requires forall j :: 0 <= j < |capped| ==> capped[j] != '\\' && capped[j] != '$'
    requires GlobalReplace(BlankLines, capped) == done
    ensures ReplaceChain(FormatRules, s) == done
  {
    ChainInOrder(s);
    DelimitedRulesKeep(capped);
  }

  /**
   * A run of four newlines between two words ends as one blank line: the cap leaves three
   * newlines, and the blank-line rule then replaces those by two.
   */
  lemma NewlineRunCollapses(x: char, y: char)
    requires !Trigger(x) && !IsSpace(y) && y != '\\' && y != '$'
    ensures ReplaceChain(FormatRules, [x, '\n', '\n', '\n', '\n', y]) == [x, '\n', '\n', y]
  {
    var capped := [x, '\n', '\n', '\n', y];
    CapStep(x, y);
    BlankStep(x, y);
    assert forall j :: 0 <= j < |capped| ==> capped[j] != '\\' && capped[j] != '$';
    ChainThroughCap([x, '\n', '\n', '\n', '\n', y], capped, [x, '\n', '\n', y]);
  }

  // ---------------------------------------------------------------------------
  // The section header survives the chain

  /** `\section{`, the marker formatChapterContent looks for. */
  const SectionOpen: string := "\\section{"

  lemma SectionOpenShape()
    ensures |SectionOpen| == 9 && SectionOpen[0] == '\\' && SectionOpen[8] == '{'
    ensures Quiet(SectionOpen[1..])
    ensures forall j :: 0 <= j < |SectionOpen| ==> SectionOpen[j] != '}' && SectionOpen[j] != '$'
    ensures forall j :: 0 <= j < |SectionOpen| ==> !IsSpace(SectionOpen[j])
  {
  }

  /** No rule but the section rule matches where `\section{` starts; that one rewrites it to itself. */
  lemma MatchAtSection(rule: Rule, s: string)
    requires SectionOpen <= s
    ensures MatchAt(rule, s).Some? ==> rule == SectionBreak && SectionOpen <= MatchAt(rule, s).value.text
  {
    assert s[0] == '\\' && s[1] == 's' && s[2] == 'e';
    if rule == SubsectionBreak || rule == SubsubsectionBreak {
      assert Opening(rule)[2] == 'u';
    } else if rule == BeginBreak || rule == EndBreak {
      assert Opening(rule)[1] != 's';
    }
  }

  /** Text starting with `\section{` still starts with it after any rule. */
  lemma ReplaceKeepsSectionPrefix(rule: Rule, s: string)
    requires SectionOpen <= s
    ensures SectionOpen <= GlobalReplace(rule, s)
  {
    MatchAtSection(rule, s);
    SectionOpenShape();
    var m := MatchAt(rule, s);
    if m.None? {
      var t := SectionOpen[1..];
      assert s[1..] == t + s[9..];
      QuietCopied(rule, t, s[9..]);
      assert GlobalReplace(rule, s) == [s[0]] + (t + GlobalReplace(rule, s[9..]));
      assert ([s[0]] + t) == SectionOpen;
      ConcatAssoc([s[0]], t, GlobalReplace(rule, s[9..]));
    }
  }

  /** The facts about the delimited rules' literals that the overlap argument needs. */
  lemma DelimitersShape(rule: Rule)
    requires Delimited(rule)
    ensures forall j :: 1 <= j < |Opening(rule)| ==> Opening(rule)[j] != '\\'
    ensures forall j :: 0 <= j < |Closing(rule)| ==> Closing(rule)[j] == Excluded(rule)
    ensures forall j :: 0 <= j < |SectionOpen| ==> SectionOpen[j] != Excluded(rule)
    ensures |Closing(rule)| > 0
  {
  }

  /**
   * An occurrence of `\section{` that starts inside a delimited match, after its first
   * character, lies wholly inside the group: it cannot start in the opening, whose later
   * characters are not backslashes, nor reach the closing, made of the excluded character.
   */
  lemma OccurrenceInGroup(s: string, open: string, excl: char, close: string, k: nat, i: nat)
    requires DelimitedGroup(open, excl, close, s) == Some(k)
    requires forall j :: 1 <= j < |open| ==> open[j] != '\\'
    requires forall j :: 0 <= j < |close| ==> close[j] == excl
    requires forall j :: 0 <= j < |SectionOpen| ==> SectionOpen[j] != excl
    requires |close| > 0
    requires OccursAt(s, SectionOpen, i) && 0 < i < |open| + k + |close|
    ensures |open| <= i && i + |SectionOpen| <= |open| + k
    ensures OccursAt(s[|open|..|open| + k], SectionOpen, i - |open|)
  {
    assert s[i] == SectionOpen[0] == '\\';
    assert s[..|open|] == open;
    assert |open| <= i;
    var e := |open| + k;
    assert s[e..][..|close|] == close;
    assert i + 9 <= e;
    var g := s[|open|..e];
    var o := i - |open|;
    var inside, found := g[o..o + 9], s[i..i + 9];
    forall j | 0 <= j < 9 ensures inside[j] == found[j] {
      assert inside[j] == g[o + j] == s[i + j];
    }
    assert inside == found;
  }

  /** The replacement text carries its group. */
  lemma ReplacementKeeps(rule: Rule, g: string)
    requires Delimited(rule) && Contains(g, SectionOpen)
    ensures Contains(Replacement(rule, g), SectionOpen)
  {
    var a, b := "", "";
    match rule {
      case SectionBreak => a, b := "\\section{", "}\n";
      case SubsectionBreak => a, b := "\\subsection{", "}\n";
      case SubsubsectionBreak => a, b := "\\subsubsection{", "}\n";
      case BeginBreak => a, b := "\n\\begin{", "}";
      case EndBreak => a, b := "\\end{", "}\n";
      case DisplayMath => a, b := "\n\\[\n", "\n\\]\n";
    }
    assert Replacement(rule, g) == a + g + b;
    ContainsRight(a, g, SectionOpen);
    ContainsLeft(a + g, b, SectionOpen);
  }

  /**
   * A `\section{` that overlaps a match lies inside the match's group, and the group is
   * copied into the replacement. (The newline and blank-line rules only match whitespace.)
   */
  lemma OverlapInsideGroup(rule: Rule, s: string, i: nat)
    requires Delimited(rule)
    requires MatchAt(rule, s).Some? && OccursAt(s, SectionOpen, i) && 0 < i < MatchAt(rule, s).value.len
    ensures Contains(MatchAt(rule, s).value.text, SectionOpen)
  {
    var open, close, excl := Opening(rule), Closing(rule), Excluded(rule);
    var k := DelimitedGroup(open, excl, close, s).value;
    DelimitersShape(rule);
    OccurrenceInGroup(s, open, excl, close, k, i);
    var g := s[|open|..|open| + k];
    assert Contains(g, SectionOpen);
    ReplacementKeeps(rule, g);
  }

  /** The newline rules match whitespace only. */
  lemma WhitespaceMatch(rule: Rule, s: string)
    requires !Delimited(rule) && MatchAt(rule, s).Some?
    ensures forall j :: 0 <= j < MatchAt(rule, s).value.len ==> IsSpace(s[j])
  {
    if rule.BlankLines? {
      var u := s[1..];
      assert forall j :: 0 <= j < |u| ==> s[j + 1] == u[j];
    }
  }

  /** How far one step of the scan advances, and what it emits. */
  function StepLength(rule: Rule, s: string): (n: nat)
    requires |s| > 0
    ensures 0 < n <= |s|
  {
    var m := MatchAt(rule, s);
    if m.Some? then m.value.len else 1
  }

  function StepText(rule: Rule, s: string): string
    requires |s| > 0
  {
    var m := MatchAt(rule, s);
    if m.Some? then m.value.text else [s[0]]
  }

  lemma ReplaceStep(rule: Rule, s: string)
    requires |s| > 0
    ensures GlobalReplace(rule, s) == StepText(rule, s) + GlobalReplace(rule, s[StepLength(rule, s)..])
  {
  }

  /**
   * One step of the scan over a text with `\section{` at `i > 0`: either what the step
   * emits contains it, or it is still there in what the scan has left.
   */
  lemma StepKeepsSection(rule: Rule, s: string, i: nat)
    requires OccursAt(s, SectionOpen, i) && 0 < i
    ensures Contains(StepText(rule, s), SectionOpen)
         || (i >= StepLength(rule, s) && OccursAt(s[StepLength(rule, s)..], SectionOpen, i - StepLength(rule, s)))
  {
    var skip := StepLength(rule, s);
    if !Delimited(rule) && MatchAt(rule, s).Some? {
      WhitespaceMatch(rule, s);
      assert s[i..i + 9] == SectionOpen;
      assert s[i] == SectionOpen[0] == '\\';
    }
    if i < skip {
      OverlapInsideGroup(rule, s, i);
    } else {
      assert s[skip..][i - skip..i - skip + 9] == s[i..i + 9];
    }
  }

  /** Every rule keeps a `\section{` somewhere in the text. */
  lemma {:induction false} ReplaceKeepsSection(rule: Rule, s: string)
    requires Contains(s, SectionOpen)
    ensures Contains(GlobalReplace(rule, s), SectionOpen)
    decreases |s|
  {
    var i :| 0 <= i <= |s| - |SectionOpen| && OccursAt(s, SectionOpen, i);
    if i == 0 {
      ReplaceKeepsSectionPrefix(rule, s);
      assert OccursAt(GlobalReplace(rule, s), SectionOpen, 0);
    } else {
      var head, tail := StepText(rule, s), s[StepLength(rule, s)..];
      ReplaceStep(rule, s);
      StepKeepsSection(rule, s, i);
      if Contains(head, SectionOpen) {
        ContainsLeft(head, GlobalReplace(rule, tail), SectionOpen);
      } else {
        ReplaceKeepsSection(rule, tail);
        ContainsRight(head, GlobalReplace(rule, tail), SectionOpen);
      }
    }
  }

  /** The whole chain keeps a `\section{`, and keeps it in front when it was in front. */
  lemma {:induction false} ChainKeepsSection(rules: seq<Rule>, s: string)
    requires Contains(s, SectionOpen)
    ensures Contains(ReplaceChain(rules, s), SectionOpen)
    ensures SectionOpen <= s ==> SectionOpen <= ReplaceChain(rules, s)
    decreases |rules|
  {
    if |rules| > 0 {
      ReplaceKeepsSection(rules[0], s);
      if SectionOpen <= s {
        ReplaceKeepsSectionPrefix(rules[0], s);
      }
      ChainKeepsSection(rules[1..], GlobalReplace(rules[0], s));
    }
  }

  // ---------------------------------------------------------------------------
  // formatChapterContent

  function EndsWith(s: string, t: string): bool {
    |t| <= |s| && s[|s| - |t|..] == t
  }

  /** The model's text, with a section header put in front when it has none. */
  function Headed(generatedContent: string, chapterTitle: string): string {
    if Contains(generatedContent, SectionOpen) then generatedContent
    else SectionCommand(chapterTitle) + "\n\n" + generatedContent
  }

  /** The headed text after the replacement chain and `trim`. */
  function Cleaned(generatedContent: string, chapterTitle: string): string {
    Trim(ReplaceChain(FormatRules, Headed(generatedContent, chapterTitle)))
  }

  /** The specification of formatChapterContent (the chapter number plays no part). */
  function FormattedContent(generatedContent: string, chapterTitle: string): string {
    var cleaned := Cleaned(generatedContent, chapterTitle);
    if EndsWith(cleaned, "\n") then cleaned else cleaned + "\n"
  }

  lemma HeadedHasSection(generatedContent: string, chapterTitle: string)
    ensures Contains(Headed(generatedContent, chapterTitle), SectionOpen)
    ensures !Contains(generatedContent, SectionOpen) ==> SectionOpen <= Headed(generatedContent, chapterTitle)
  {
    if !Contains(generatedContent, SectionOpen) {
      var headed := Headed(generatedContent, chapterTitle);
      assert headed == SectionOpen + (chapterTitle + "}" + "\n\n" + generatedContent);
      assert OccursAt(headed, SectionOpen, 0);
    }
  }

  /** `trim` keeps a `\section{`, and keeps it in front, since it starts and ends with non-space. */
  lemma TrimKeepsSection(chained: string)
    requires Contains(chained, SectionOpen)
    ensures var c := Trim(chained);
      && Contains(c, SectionOpen) && |c| > 0 && !IsSpace(c[0]) && !IsSpace(c[|c| - 1])
      && (SectionOpen <= chained ==> SectionOpen <= c)
  {
    SectionOpenShape();
    var i :| 0 <= i <= |chained| - |SectionOpen| && OccursAt(chained, SectionOpen, i);
    TrimKeepsOccurrence(chained, SectionOpen, i);
    if SectionOpen <= chained {
      TrimKeepsPrefix(chained, SectionOpen);
    }
  }

  lemma CleanedHasSection(generatedContent: string, chapterTitle: string)
    ensures var c := Cleaned(generatedContent, chapterTitle);
      && Contains(c, SectionOpen) && |c| > 0 && !IsSpace(c[0]) && !IsSpace(c[|c| - 1])
      && (!Contains(generatedContent, SectionOpen) ==> SectionOpen <= c)
  {
    var headed := Headed(generatedContent, chapterTitle);
    var chained := ReplaceChain(FormatRules, headed);
    assert Cleaned(generatedContent, chapterTitle) == Trim(chained);
    HeadedHasSection(generatedContent, chapterTitle);
    ChainKeepsSection(FormatRules, headed);
    TrimKeepsSection(chained);
  }

  /**
   * The normalised chapter always contains `\section{`, starts with it when the model's text
   * had none, has no leading whitespace, and is a non-empty trimmed text followed by exactly
   * one newline.
   */
  lemma FormattedContentShape(generatedContent: string, chapterTitle: string)
    ensures var r := FormattedContent(generatedContent, chapterTitle);
      && Contains(r, SectionOpen)
      && (!Contains(generatedContent, SectionOpen) ==> SectionOpen <= r)
      && !IsSpace(r[0])
      && r == Trim(r[..|r| - 1]) + "\n" && |r| >= 2 && !IsSpace(r[|r| - 2])
  {
    CleanedHasSection(generatedContent, chapterTitle);
    var cleaned := Cleaned(generatedContent, chapterTitle);
    assert !EndsWith(cleaned, "\n");
    var r := cleaned + "\n";
    assert r[..|r| - 1] == cleaned;
    TrimUnchangedWhenTrimmed(cleaned);
    ContainsLeft(cleaned, "\n", SectionOpen);
  }

  /** A text with no whitespace at either end is its own trim. */
  lemma TrimUnchangedWhenTrimmed(s: string)
    requires |s| > 0 && !IsSpace(s[0]) && !IsSpace(s[|s| - 1])
    ensures Trim(s) == s
  {
    var a, b := TrimWindow(s);
  }

  /** formatChapterContent as a sequence of reassignments of `formatted`. */
  method FormatChapterContent(generatedContent: string, chapterTitle: string, chapterNumber: int)
    returns (formatted: string)
    ensures formatted == FormattedContent(generatedContent, chapterTitle)
    ensures Contains(formatted, SectionOpen) && !IsSpace(formatted[0])
    ensures !Contains(generatedContent, SectionOpen) ==> SectionOpen <= formatted
  {
    formatted := generatedContent;
    if !Contains(formatted, SectionOpen) {
      formatted := SectionCommand(chapterTitle) + "\n\n" + formatted;
    }
    formatted := GlobalReplace(CapNewlines, formatted);
    formatted := GlobalReplace(SectionBreak, formatted);
    formatted := GlobalReplace(SubsectionBreak, formatted);
    formatted := GlobalReplace(SubsubsectionBreak, formatted);
    formatted := GlobalReplace(BeginBreak, formatted);
    formatted := GlobalReplace(EndBreak, formatted);
    formatted := GlobalReplace(DisplayMath, formatted);
    formatted := GlobalReplace(BlankLines, formatted);
    formatted := Trim(formatted);
    if !EndsWith(formatted, "\n") {
      formatted := formatted + "\n";
    }
    FormattedContentShape(generatedContent, chapterTitle);
  }

  // ---------------------------------------------------------------------------
  // generateFallbackChapter

  const BeginnerSummary: string :=
    "This chapter introduces " + "the basic concepts and " + "provides a foundation for " + "understanding."
  const IntermediateSummary: string :=
    "Building on previous " + "knowledge, this chapter " + "explores the topic in " + "greater detail."
  const AdvancedSummary: string :=
    "This advanced chapter " + "provides in-depth " + "analysis and technical " + "implementation details."

  /** The level's opening sentence. */
  function LevelSummary(c: Complexity): string {
    match c
    case Beginner => BeginnerSummary
    case Intermediate => IntermediateSummary
    case Advanced => AdvancedSummary
  }

  const IntroContext: string := "This introductory chapter " + "sets the foundation for " +
    "all subsequent learning."
  const LaterContext: string :=
    "This chapter builds upon " + "concepts from previous " + "chapters and prepares for " +
      "advanced topics ahead."

  function ChapterContext(chapterNumber: int): string {
    if chapterNumber == 1 then IntroContext else LaterContext
  }

  /** The subsection titles, in the order the fallback chapter has them. */
  const SubsectionNames: seq<string> :=
    ["Overview", "Key Concepts", "Detailed Analysis", "Practical Applications", "Exercises and Practice", "Summary"]

  function SubsectionHeading(name: string): string {
    "\\subsection{" + name + "}\n"
  }

  /** The paragraph under the chapter heading. */
  function OpeningParagraph(c: Complexity, chapterNumber: int): string {
    "\n\n" + LevelSummary(c) + " " + ChapterContext(chapterNumber) + "\n\n"
  }

  // The fixed runs of text between the interpolated topic and titles.

  const OverviewLead: string := "This section covers the " + "fundamental aspects of "
  const OverviewLink: string := " as it relates to "
  const OverviewClose: string :=
    ". The concepts presented " + "here are essential for " + "building a comprehensive " +
      "understanding of the " + "subject matter.\n\n"

  const KeyConceptsLead: string :=
    "The main ideas and " + "principles that form the " + "foundation of this topic " + "area include:\n"
    + "\\begin{itemize}\n"
    + "\\item Fundamental " + "principle of "
  const KeyConceptsClose: string :=
    "\n"
    + "\\item Core methodologies " + "and approaches\n"
    + "\\item Essential " + "terminology and " + "definitions\n"
    + "\\item Practical " + "implementation " + "considerations\n"
    + "\\end{itemize}\n\n"

  const AnalysisLead: string := "A deeper examination of "
  const AnalysisLink: string := " reveals several " + "important aspects that " + "are crucial for mastery " +
    "of "
  const AnalysisClose: string := ". These concepts form the " + "building blocks for more " +
    "advanced understanding.\n\n"

  const ApplicationsBody: string :=
    "Real-world applications " + "and examples demonstrate " + "how these concepts are " +
      "used in practice:\n"
    + "\\begin{enumerate}\n"
    + "\\item Industry " + "applications and use " + "cases\n"
    + "\\item Common " + "implementation patterns\n"
    + "\\item Best practices and " + "recommendations\n"
    + "\\item Troubleshooting and " + "optimization strategies\n"
    + "\\end{enumerate}\n\n"

  const ExercisesLead: string :=
    "\\begin{itemize}\n"
    + "\\item Review the key " + "concepts presented in " + "this chapter\n"
    + "\\item Consider how "
  const ExercisesClose: string :=
    " applies to your specific " + "context\n"
    + "\\item Identify potential " + "applications in your " + "field of interest\n"
    + "\\item Prepare for the " + "concepts that will be " + "introduced in upcoming " + "chapters\n"
    + "\\end{itemize}\n\n"

  const SummaryLeadText: string := "This chapter has provided " + "a comprehensive overview " + "of "
  const SummaryLink: string :=
    ", covering the essential " + "aspects needed for " + "understanding more " + "advanced topics. "
    + "The foundation " + "established here will be " + "built upon in subsequent " + "chapters "
    + "as we delve deeper into " + "the complexities of "
  const SummaryTakeaways: string :=
    ".\n\n"
    + "\\textbf{Key Takeaways:}\n"
    + "\\begin{itemize}\n"
    + "\\item Understanding of core "
  const SummaryItems: string :=
    " principles\n"
    + "\\item Awareness of " + "practical applications " + "and use cases\n"
    + "\\item Preparation for " + "advanced concepts in " + "later chapters\n"
    + "\\item Foundation for " + "hands-on implementation\n"
    + "\\end{itemize}\n"

  function OverviewBody(topic: string, chapterTitle: string): string {
    OverviewLead + chapterTitle + OverviewLink + topic + OverviewClose
  }

  function KeyConceptsBody(lowerTitle: string): string {
    KeyConceptsLead + lowerTitle + KeyConceptsClose
  }

  function AnalysisBody(topic: string, chapterTitle: string): string {
    AnalysisLead + chapterTitle + AnalysisLink + topic + AnalysisClose
  }

  function ExercisesBody(lowerTitle: string): string {
    ExercisesLead + lowerTitle + ExercisesClose
  }

  function SummaryBody(topic: string, chapterTitle: string, lowerTitle: string): string {
    SummaryLeadText + chapterTitle + SummaryLink + topic + SummaryTakeaways + lowerTitle + SummaryItems
  }

  /** The text under each subsection heading; `lowerTitle` is the title in lower case. */
  function FallbackBodies(topic: string, chapterTitle: string, lowerTitle: string): (r: seq<string>)
    ensures |r| == 6
  {
    [OverviewBody(topic, chapterTitle), KeyConceptsBody(lowerTitle), AnalysisBody(topic, chapterTitle),
     ApplicationsBody, ExercisesBody(lowerTitle), SummaryBody(topic, chapterTitle, lowerTitle)]
  }

  /** Subsections from the k-th on, each its heading line and then its text. */
  function SubsectionsFrom(k: nat, names: seq<string>, bodies: seq<string>): string
    requires k <= |names| == |bodies|
    decreases |names| - k
  {
    if k == |names| then ""
    else SubsectionHeading(names[k]) + bodies[k] + SubsectionsFrom(k + 1, names, bodies)
  }

  /**
   * The specification of generateFallbackChapter. `lower` stands for `String.prototype.toLowerCase`,
   * applied to the chapter title.
   */
  function FallbackChapter(topic: string, chapterTitle: string, c: Complexity, chapterNumber: int,
                           lower: string -> string): string
  {
    SectionCommand(chapterTitle) + OpeningParagraph(c, chapterNumber)
    + SubsectionsFrom(0, SubsectionNames, FallbackBodies(topic, chapterTitle, lower(chapterTitle)))
  }

  /** Where the k-th subsection heading starts in `opening` followed by the subsections. */
  function HeadingOffset(opening: string, names: seq<string>, bodies: seq<string>, k: nat): int
    requires k <= |names| == |bodies|
  {
    |opening + SubsectionsFrom(0, names, bodies)| - |SubsectionsFrom(k, names, bodies)|
  }

  predicate EndsIn(s: string, t: string) {
    |t| <= |s| && s[|s| - |t|..] == t
  }

  lemma EndsInConcat(a: string, b: string)
    ensures EndsIn(a + b, b)
  {
    assert (a + b)[|a|..] == b;
  }

  lemma EndsInTrans(s: string, head: string, t: string)
    requires EndsIn(s, head + t)
    ensures EndsIn(s, t)
  {
    assert s[|s| - |t|..] == (head + t)[|head|..];
  }

  /** Each later run of subsections ends the text. */
  lemma {:induction false} SubsectionsSuffix(opening: string, names: seq<string>, bodies: seq<string>, k: nat)
    requires k <= |names| == |bodies|
    ensures EndsIn(opening + SubsectionsFrom(0, names, bodies), SubsectionsFrom(k, names, bodies))
    decreases k
  {
    if k == 0 {
      EndsInConcat(opening, SubsectionsFrom(0, names, bodies));
    } else {
      SubsectionsSuffix(opening, names, bodies, k - 1);
      EndsInTrans(opening + SubsectionsFrom(0, names, bodies), SubsectionHeading(names[k - 1]) + bodies[k - 1],
                  SubsectionsFrom(k, names, bodies));
    }
  }

  lemma HeadingInFront(s: string, h: string, body: string, rest: string)
    requires EndsIn(s, h + body + rest) && |h| > 0
    ensures OccursAt(s, h, |s| - |h + body + rest|) && |s| - |h + body + rest| < |s| - |rest|
  {
    var t := h + body + rest;
    assert s[|s| - |t|..][..|h|] == t[..|h|] == h;
  }

  /**
   * In any text made of an opening and subsections, the k-th heading sits at its offset and
   * the offsets increase strictly from one subsection to the next.
   */
  lemma HeadingsInOrder(opening: string, names: seq<string>, bodies: seq<string>, k: nat)
    requires k < |names| == |bodies|
    ensures 0 <= HeadingOffset(opening, names, bodies, k) < HeadingOffset(opening, names, bodies, k + 1)
    ensures OccursAt(opening + SubsectionsFrom(0, names, bodies), SubsectionHeading(names[k]),
                     HeadingOffset(opening, names, bodies, k))
  {
    SubsectionsSuffix(opening, names, bodies, k);
    HeadingInFront(opening + SubsectionsFrom(0, names, bodies), SubsectionHeading(names[k]), bodies[k],
                   SubsectionsFrom(k + 1, names, bodies));
  }

  lemma PrefixOfConcat(a: string, b: string)
    ensures a <= a + b
  {
    assert (a + b)[..|a|] == a;
  }

  /** Where the k-th subsection heading of the fallback chapter starts. */
  function SubsectionOffset(topic: string, chapterTitle: string, c: Complexity, chapterNumber: int,
                            lower: string -> string, k: nat): int
    requires k <= 6
  {
    HeadingOffset(SectionCommand(chapterTitle) + OpeningParagraph(c, chapterNumber), SubsectionNames,
                  FallbackBodies(topic, chapterTitle, lower(chapterTitle)), k)
  }

  /** The fallback chapter opens with `\section{title}`. */
  lemma FallbackStartsWithSection(topic: string, chapterTitle: string, c: Complexity, chapterNumber: int,
                                  lower: string -> string)
    ensures SectionCommand(chapterTitle) <= FallbackChapter(topic, chapterTitle, c, chapterNumber, lower)
  {
    var sections := SubsectionsFrom(0, SubsectionNames, FallbackBodies(topic, chapterTitle, lower(chapterTitle)));
    PrefixOfConcat(SectionCommand(chapterTitle), OpeningParagraph(c, chapterNumber) + sections);
    ConcatAssoc(SectionCommand(chapterTitle), OpeningParagraph(c, chapterNumber), sections);
  }

  /**
   * The fallback chapter has the six subsections Overview, Key Concepts, Detailed Analysis,
   * Practical Applications, Exercises and Practice, Summary, each heading at its offset, the
   * offsets strictly increasing.
   */
  lemma FallbackSubsectionsInOrder(topic: string, chapterTitle: string, c: Complexity, chapterNumber: int,
                                   lower: string -> string)
    ensures |SubsectionNames| == 6
    ensures forall k :: 0 <= k < 6 ==>
      && 0 <= SubsectionOffset(topic, chapterTitle, c, chapterNumber, lower, k)
           < SubsectionOffset(topic, chapterTitle, c, chapterNumber, lower, k + 1)
      && OccursAt(FallbackChapter(topic, chapterTitle, c, chapterNumber, lower), SubsectionHeading(SubsectionNames[k]),
                  SubsectionOffset(topic, chapterTitle, c, chapterNumber, lower, k))
  {
    var opening := SectionCommand(chapterTitle) + OpeningParagraph(c, chapterNumber);
    var bodies := FallbackBodies(topic, chapterTitle, lower(chapterTitle));
    forall k | 0 <= k < 6
      ensures 0 <= HeadingOffset(opening, SubsectionNames, bodies, k) < HeadingOffset(opening, SubsectionNames, bodies, k + 1)
      ensures OccursAt(opening + SubsectionsFrom(0, SubsectionNames, bodies), SubsectionHeading(SubsectionNames[k]),
                       HeadingOffset(opening, SubsectionNames, bodies, k))
    {
      HeadingsInOrder(opening, SubsectionNames, bodies, k);
    }
  }

  /** The opening sentence is the introductory one exactly for chapter 1. */
  lemma ChapterContextChoice(chapterNumber: int)
    ensures ChapterContext(chapterNumber) == IntroContext <==> chapterNumber == 1
  {
    assert |IntroContext| != |LaterContext|;
  }
}
