/** The character block and the prompt template the handler sends upstream,
    with the parser and the line-by-line layout that state what they hold. */
module PromptBuilder {

  import opened Optional
  import opened Decimal
  import opened Lines
  import opened StorySchema

  const LinePrefix: string := "Character "
  const OrdinalSep: string := ": "
  const AgeLabel: string := ", Age: "

  const Indent: string := "    "
  const Intro: string := "Create a short story " + "with the following elements:"
  const ThemeLabel: string := "Theme: "
  const ConflictLabel: string := "Conflict: "
  const PlotPointLabel: string := "Plot Point: "
  const SettingLabel: string := "Setting: "
  /** The closing instruction, one line of the template. It and `Intro`
      are written as several literals only so that the verifier can check
      each is free of line breaks cheaply; the pieces carry no meaning. */
  const Closing: string :=
    "Please weave these elements "
    + "into a coherent narrative "
    + "with a beginning, middle, and "
    + "end, focusing on the theme of "
    + "identity crisis and the "
    + "internal conflict faced by "
    + "the characters. Highlight how "
    + "the setting influences the "
    + "story and integrate the plot "
    + "point meaningfully."
  /** The template's last line: the indentation of its closing backtick. */
  const Trailer: string := "  "

  /** The line for the character at 0-based position `index`; the printed
      ordinal is 1-based. */
  function CharLine(index: nat, c: Character): string {
    LinePrefix + NatToString(index + 1) + OrdinalSep + c.name + AgeLabel + NatToString(c.age)
  }

  /** `characters.map((character, index) => ...)` */
  function CharLines(cs: seq<Character>): seq<string> {
    seq(|cs|, i requires 0 <= i < |cs| => CharLine(i, cs[i]))
  }

  /** `charactersDetails`: the character lines joined with "\n". */
  function CharBlock(cs: seq<Character>): string {
    Join(CharLines(cs), "\n")
  }

  /** The template literal, with each interpolation in place. */
  function BuildPrompt(s: Story): string {
    "\n"
    + Indent + Intro + "\n"
    + "\n"
    + Indent + ThemeLabel + s.theme + "\n"
    + Indent + ConflictLabel + s.conflict + "\n"
    + Indent + CharBlock(s.characters) + "\n"
    + Indent + PlotPointLabel + s.plotPoint + "\n"
    + Indent + SettingLabel + s.setting + "\n"
    + "\n"
    + Indent + Closing + "\n"
    + Trailer
  }

  // ---------------------------------------------------------------------
  // Reading a character line back

  datatype LineFields = LineFields(ordinal: nat, name: string, age: nat)

  /** The longest all-digit prefix of `s`. */
  function LeadingDigits(s: string): (d: string)
    ensures d <= s && AllDigits(d)
    ensures |d| < |s| ==> !IsDigit(s[|d|])
    decreases |s|
  {
    if |s| > 0 && IsDigit(s[0]) then [s[0]] + LeadingDigits(s[1..]) else ""
  }

  /** The longest all-digit suffix of `s`. */
  function TrailingDigits(s: string): (d: string)
    ensures |d| <= |s| && d == s[|s| - |d|..] && AllDigits(d)
    ensures |d| < |s| ==> !IsDigit(s[|s| - |d| - 1])
    decreases |s|
  {
    if |s| > 0 && IsDigit(s[|s| - 1]) then TrailingDigits(s[..|s| - 1]) + [s[|s| - 1]] else ""
  }

  /** Splits `name, Age: <digits>` at the trailing digits. */
  function SplitAge(body: string): Option<(string, nat)> {
    var age := TrailingDigits(body);
    var beforeAge := body[..|body| - |age|];
    if |age| == 0 || |beforeAge| < |AgeLabel| || beforeAge[|beforeAge| - |AgeLabel|..] != AgeLabel then None
    else Some((beforeAge[..|beforeAge| - |AgeLabel|], ParseNat(age)))
  }

  /** Splits `<digits>: name, Age: <digits>` at the leading digits. */
  function SplitOrdinal(rest: string): Option<LineFields> {
    var ordinal := LeadingDigits(rest);
    var afterOrdinal := rest[|ordinal|..];
    if |ordinal| == 0 || !(OrdinalSep <= afterOrdinal) then None
    else
      match SplitAge(afterOrdinal[|OrdinalSep|..])
      case None => None
      case Some((name, age)) => Some(LineFields(ParseNat(ordinal), name, age))
  }

  /** Takes a line apart at its fixed labels: the ordinal is the digits
      after "Character ", the age the digits at the end, and the name what
      lies between ": " and the last ", Age: ". */
  function ParseCharLine(line: string): Option<LineFields> {
    if LinePrefix <= line then SplitOrdinal(line[|LinePrefix|..]) else None
  }

  lemma {:induction false} LeadingDigitsOf(d: string, rest: string)
    requires AllDigits(d)
    requires |rest| > 0 && !IsDigit(rest[0])
    ensures LeadingDigits(d + rest) == d
    decreases |d|
  {
    if |d| > 0 {
      assert (d + rest)[1..] == d[1..] + rest;
      LeadingDigitsOf(d[1..], rest);
      assert [d[0]] + d[1..] == d;
    }
  }

  lemma {:induction false} TrailingDigitsOf(rest: string, d: string)
    requires AllDigits(d)
    requires |rest| > 0 && !IsDigit(rest[|rest| - 1])
    ensures TrailingDigits(rest + d) == d
    decreases |d|
  {
    var s := rest + d;
    if |d| > 0 {
      var init := d[..|d| - 1];
      assert s[..|s| - 1] == rest + init;
      TrailingDigitsOf(rest, init);
      assert init + [d[|d| - 1]] == d;
    }
  }

  /** Taking a known prefix off a concatenation, with every string abstract. */
  lemma DropPrefix(p: string, r: string)
    ensures p <= p + r
    ensures (p + r)[|p|..] == r
  {
  }

  lemma DropSuffix(r: string, p: string)
    ensures (r + p)[..|r|] == r
    ensures (r + p)[|r|..] == p
  {
  }

  /** The line layout regrouped from the right, with every piece abstract. */
  lemma RegroupLine(p: string, d1: string, o: string, name: string, a: string, d2: string)
    ensures p + d1 + o + name + a + d2 == p + (d1 + (o + (name + a + d2)))
  {
  }

  lemma SplitAgeOf(name: string, d2: string)
    requires Canonical(d2)
    ensures SplitAge(name + AgeLabel + d2) == Some((name, ParseNat(d2)))
  {
    var front := name + AgeLabel;
    assert |front| > 0 && front[|front| - 1] == ' ';
    TrailingDigitsOf(front, d2);
    DropSuffix(front, d2);
    DropSuffix(name, AgeLabel);
  }

  lemma SplitOrdinalOf(d1: string, name: string, d2: string)
    requires Canonical(d1) && Canonical(d2)
    ensures SplitOrdinal(d1 + (OrdinalSep + (name + AgeLabel + d2)))
         == Some(LineFields(ParseNat(d1), name, ParseNat(d2)))
  {
    var body := name + AgeLabel + d2;
    var tail := OrdinalSep + body;
    assert tail[0] == ':';
    LeadingDigitsOf(d1, tail);
    DropPrefix(d1, tail);
    DropPrefix(OrdinalSep, body);
    SplitAgeOf(name, d2);
  }

  /** The parser recovers the three parts of any line with this layout. */
  lemma ParseLineOf(d1: string, name: string, d2: string)
    requires Canonical(d1) && Canonical(d2)
    ensures ParseCharLine(LinePrefix + d1 + OrdinalSep + name + AgeLabel + d2)
         == Some(LineFields(ParseNat(d1), name, ParseNat(d2)))
  {
    var rest := d1 + (OrdinalSep + (name + AgeLabel + d2));
    RegroupLine(LinePrefix, d1, OrdinalSep, name, AgeLabel, d2);
    DropPrefix(LinePrefix, rest);
    SplitOrdinalOf(d1, name, d2);
  }

  /** A character line carries exactly the 1-based ordinal, the name and the
      age, whatever characters the name holds. */
  lemma CharLineRoundTrip(index: nat, c: Character)
    ensures ParseCharLine(CharLine(index, c)) == Some(LineFields(index + 1, c.name, c.age))
  {
    ParseLineOf(NatToString(index + 1), c.name, NatToString(c.age));
    ParseNatToString(index + 1);
    ParseNatToString(c.age);
  }

  /** Lines of characters at different positions never coincide. */
  lemma CharLinesDistinct(i: nat, j: nat, a: Character, b: Character)
    requires i != j
    ensures CharLine(i, a) != CharLine(j, b)
  {
    CharLineRoundTrip(i, a);
    CharLineRoundTrip(j, b);
  }

  // ---------------------------------------------------------------------
  // The character block

  predicate NoNewline(s: string) {
    '\n' !in s
  }

  lemma DigitsHaveNoNewline(d: string)
    requires AllDigits(d)
    ensures NoNewline(d)
  {
  }

  lemma CharLineNoNewline(index: nat, c: Character)
    requires NoNewline(c.name)
    ensures NoNewline(CharLine(index, c))
  {
    DigitsHaveNoNewline(NatToString(index + 1));
    DigitsHaveNoNewline(NatToString(c.age));
  }

  lemma CharLinesHaveNoNewline(cs: seq<Character>)
    requires forall i :: 0 <= i < |cs| ==> NoNewline(cs[i].name)
    ensures forall i :: 0 <= i < |cs| ==> NoNewline(CharLines(cs)[i])
  {
    forall i | 0 <= i < |cs|
      ensures NoNewline(CharLines(cs)[i])
    {
      CharLineNoNewline(i, cs[i]);
    }
  }

  /** The block has one line per character, in input order, each carrying
      its consecutive 1-based ordinal, and |characters| - 1 newlines. */
  lemma CharBlockLines(cs: seq<Character>)
    requires |cs| > 0
    requires forall i :: 0 <= i < |cs| ==> NoNewline(cs[i].name)
    ensures |Split(CharBlock(cs), '\n')| == |cs|
    ensures forall i :: 0 <= i < |cs| ==> Split(CharBlock(cs), '\n')[i] == CharLine(i, cs[i])
    ensures forall i :: 0 <= i < |cs| ==>
      ParseCharLine(Split(CharBlock(cs), '\n')[i]) == Some(LineFields(i + 1, cs[i].name, cs[i].age))
    ensures multiset(CharBlock(cs))['\n'] == |cs| - 1
  {
    var ls := CharLines(cs);
    CharLinesHaveNoNewline(cs);
    SplitJoin(ls, '\n');
    JoinSeparatorCount(ls, '\n');
    forall i | 0 <= i < |cs|
      ensures ParseCharLine(ls[i]) == Some(LineFields(i + 1, cs[i].name, cs[i].age))
    {
      CharLineRoundTrip(i, cs[i]);
    }
  }

  // ---------------------------------------------------------------------
  // The prompt, line by line

  /** The lines of the prompt, as an independent reference: only the first
      character line carries the template's indentation, since the block is
      interpolated after it as a whole. */
  function PromptLines(s: Story): seq<string> {
    var block := if |s.characters| == 0 then [""] else CharLines(s.characters);
    ["", Indent + Intro, "", Indent + ThemeLabel + s.theme, Indent + ConflictLabel + s.conflict]
    + ([Indent + block[0]] + block[1..])
    + [Indent + PlotPointLabel + s.plotPoint, Indent + SettingLabel + s.setting, "", Indent + Closing, Trailer]
  }

  /** Joining one more line made of three pieces, with every string abstract. */
  lemma JoinSnoc3(xs: seq<string>, nl: string, a: string, b: string, c: string)
    requires |xs| > 0
    ensures Join(xs + [a + b + c], nl) == Join(xs, nl) + nl + a + b + c
  {
    JoinSnoc(xs, a + b + c, nl);
  }

  lemma JoinSnoc2(xs: seq<string>, nl: string, a: string, b: string)
    requires |xs| > 0
    ensures Join(xs + [a + b], nl) == Join(xs, nl) + nl + a + b
  {
    JoinSnoc(xs, a + b, nl);
  }

  lemma SnocFive(xs: seq<string>, a: string, b: string, c: string, d: string, e: string)
    ensures xs + [a] + [b] + [c] + [d] + [e] == xs + [a, b, c, d, e]
  {
  }

  lemma JoinPair(a: string, b: string, nl: string)
    ensures Join([a, b], nl) == a + nl + b
  {
    assert [a, b][1..] == [b];
  }

  /** The template's first five lines, with fixed pieces and holes abstract. */
  lemma TemplateHead(
    nl: string, indent: string, intro: string, themeLabel: string, conflictLabel: string,
    theme: string, conflict: string)
    ensures
      nl + indent + intro + nl + nl + indent + themeLabel + theme + nl + indent + conflictLabel + conflict
      == Join(["", indent + intro, "", indent + themeLabel + theme, indent + conflictLabel + conflict], nl)
  {
    var h0 := ["", indent + intro];
    JoinPair("", indent + intro, nl);
    assert "" + nl + (indent + intro) == nl + indent + intro;
    JoinSnoc(h0, "", nl);
    JoinSnoc3(h0 + [""], nl, indent, themeLabel, theme);
    JoinSnoc3(h0 + [""] + [indent + themeLabel + theme], nl, indent, conflictLabel, conflict);
    assert h0 + [""] + [indent + themeLabel + theme] + [indent + conflictLabel + conflict]
        == ["", indent + intro, "", indent + themeLabel + theme, indent + conflictLabel + conflict];
  }

  /** Appending the template's last five lines to any prefix of lines. */
  lemma TemplateFoot(
    nl: string, indent: string, closing: string, trailer: string, plotLabel: string, settingLabel: string,
    plotPoint: string, setting: string, body: seq<string>)
    requires |body| > 0
    ensures
      Join(body, nl) + nl
      + indent + plotLabel + plotPoint + nl
      + indent + settingLabel + setting + nl
      + nl
      + indent + closing + nl
      + trailer
      == Join(body + [indent + plotLabel + plotPoint, indent + settingLabel + setting, "", indent + closing, trailer], nl)
  {
    var lpp := indent + plotLabel + plotPoint;
    var lset := indent + settingLabel + setting;
    var f1 := body + [lpp];
    var f2 := f1 + [lset];
    var f3 := f2 + [""];
    var f4 := f3 + [indent + closing];
    JoinSnoc3(body, nl, indent, plotLabel, plotPoint);
    JoinSnoc3(f1, nl, indent, settingLabel, setting);
    JoinSnoc(f2, "", nl);
    JoinSnoc2(f3, nl, indent, closing);
    JoinSnoc(f4, trailer, nl);
    SnocFive(body, lpp, lset, "", indent + closing, trailer);
  }

  /** The prompt is exactly its lines joined by newlines. */
  lemma PromptAsLines(s: Story)
    ensures BuildPrompt(s) == Join(PromptLines(s), "\n")
  {
    var nl := "\n";
    var block := if |s.characters| == 0 then [""] else CharLines(s.characters);
    var head := ["", Indent + Intro, "", Indent + ThemeLabel + s.theme, Indent + ConflictLabel + s.conflict];
    var mid := [Indent + block[0]] + block[1..];
    var top := nl + Indent + Intro + nl + nl + Indent + ThemeLabel + s.theme + nl + Indent + ConflictLabel + s.conflict;
    TemplateHead(nl, Indent, Intro, ThemeLabel, ConflictLabel, s.theme, s.conflict);
    assert Join(block, nl) == CharBlock(s.characters);
    JoinPrefixFirst(Indent, block, nl);
    JoinAppend(head, mid, nl);
    assert Join(head + mid, nl) == top + nl + Indent + CharBlock(s.characters);
    TemplateFoot(nl, Indent, Closing, Trailer, PlotPointLabel, SettingLabel, s.plotPoint, s.setting, head + mid);
  }

  /** Indexing the three parts of the line list, with every line abstract. */
  lemma LayoutOf(head: seq<string>, indent: string, block: seq<string>, foot: seq<string>)
    requires |head| == 5 && |foot| == 5 && |block| > 0
    ensures var ls, k := head + ([indent + block[0]] + block[1..]) + foot, |block|;
      && |ls| == k + 10
      && (forall i :: 0 <= i < 5 ==> ls[i] == head[i])
      && ls[5] == indent + block[0]
      && (forall i :: 1 <= i < k ==> ls[5 + i] == block[i])
      && (forall i :: 0 <= i < 5 ==> ls[k + 5 + i] == foot[i])
  {
  }

  /** Where the template puts each field, line by line: the theme,
      conflict, character lines, plot point and setting come in that order,
      and the closing instruction after all of them; only the first
      character line carries the template's indentation. */
  lemma PromptLayout(s: Story)
    requires Validate(s).None?
    ensures var ls, k := PromptLines(s), |s.characters|;
      && |ls| == k + 10
      && ls[1] == Indent + Intro
      && ls[3] == Indent + ThemeLabel + s.theme
      && ls[4] == Indent + ConflictLabel + s.conflict
      && ls[5] == Indent + CharLine(0, s.characters[0])
      && (forall i :: 1 <= i < k ==> ls[5 + i] == CharLine(i, s.characters[i]))
      && ls[k + 5] == Indent + PlotPointLabel + s.plotPoint
      && ls[k + 6] == Indent + SettingLabel + s.setting
      && ls[k + 8] == Indent + Closing
      && ls[k + 9] == Trailer
  {
    var head := ["", Indent + Intro, "", Indent + ThemeLabel + s.theme, Indent + ConflictLabel + s.conflict];
    var foot := [Indent + PlotPointLabel + s.plotPoint, Indent + SettingLabel + s.setting, "", Indent + Closing, Trailer];
    LayoutOf(head, Indent, CharLines(s.characters), foot);
  }

  // ---------------------------------------------------------------------
  // Reading the prompt back line by line

  lemma ClosingPiecesHaveNoNewline1()
    ensures NoNewline("Please weave these elements ")
    ensures NoNewline("into a coherent narrative ")
  {
  }

  lemma ClosingPiecesHaveNoNewline2()
    ensures NoNewline("with a beginning, middle, and ")
    ensures NoNewline("end, focusing on the theme of ")
  {
  }

  lemma ClosingPiecesHaveNoNewline3()
    ensures NoNewline("identity crisis and the ")
    ensures NoNewline("internal conflict faced by ")
  {
  }

  lemma ClosingPiecesHaveNoNewline4()
    ensures NoNewline("the characters. Highlight how ")
    ensures NoNewline("the setting influences the ")
  {
  }

  lemma ClosingPiecesHaveNoNewline5()
    ensures NoNewline("story and integrate the plot ")
    ensures NoNewline("point meaningfully.")
  {
  }

  /** Line breaks can only come from the pieces of a concatenation. */
  lemma NoNewlineInPieces(a0: string, a1: string, a2: string, a3: string, a4: string, a5: string, a6: string, a7: string, a8: string, a9: string)
    requires NoNewline(a0) && NoNewline(a1) && NoNewline(a2) && NoNewline(a3) && NoNewline(a4)
    requires NoNewline(a5) && NoNewline(a6) && NoNewline(a7) && NoNewline(a8) && NoNewline(a9)
    ensures NoNewline(a0 + a1 + a2 + a3 + a4 + a5 + a6 + a7 + a8 + a9)
  {
  }

  lemma ClosingHasNoNewline()
    ensures NoNewline(Closing)
  {
    ClosingPiecesHaveNoNewline1();
    ClosingPiecesHaveNoNewline2();
    ClosingPiecesHaveNoNewline3();
    ClosingPiecesHaveNoNewline4();
    ClosingPiecesHaveNoNewline5();
    NoNewlineInPieces(
      "Please weave these elements ",
      "into a coherent narrative ",
      "with a beginning, middle, and ",
      "end, focusing on the theme of ",
      "identity crisis and the ",
      "internal conflict faced by ",
      "the characters. Highlight how ",
      "the setting influences the ",
      "story and integrate the plot ",
      "point meaningfully.");
  }

  lemma FixedTextHasNoNewline()
    ensures NoNewline(Indent) && NoNewline(Intro) && NoNewline(Trailer)
    ensures NoNewline(ThemeLabel) && NoNewline(ConflictLabel)
    ensures NoNewline(PlotPointLabel) && NoNewline(SettingLabel)
  {
    assert NoNewline("Create a short story ");
    assert NoNewline("with the following elements:");
  }

  /** The newline-free fields of a story. */
  predicate SingleLineFields(s: Story) {
    && NoNewline(s.theme) && NoNewline(s.conflict) && NoNewline(s.plotPoint) && NoNewline(s.setting)
    && forall i :: 0 <= i < |s.characters| ==> NoNewline(s.characters[i].name)
  }

  /** Every line of the template is free of newlines when its pieces are,
      with every piece abstract. */
  lemma TemplateLinesNoNewline(
    indent: string, intro: string, closing: string, trailer: string,
    themeLabel: string, conflictLabel: string, plotLabel: string, settingLabel: string,
    theme: string, conflict: string, block: seq<string>, plotPoint: string, setting: string)
    requires |block| > 0 && forall i :: 0 <= i < |block| ==> NoNewline(block[i])
    requires NoNewline(indent) && NoNewline(intro) && NoNewline(closing) && NoNewline(trailer)
    requires NoNewline(themeLabel) && NoNewline(conflictLabel) && NoNewline(plotLabel) && NoNewline(settingLabel)
    requires NoNewline(theme) && NoNewline(conflict) && NoNewline(plotPoint) && NoNewline(setting)
    ensures var ls :=
      ["", indent + intro, "", indent + themeLabel + theme, indent + conflictLabel + conflict]
      + ([indent + block[0]] + block[1..])
      + [indent + plotLabel + plotPoint, indent + settingLabel + setting, "", indent + closing, trailer];
      forall i :: 0 <= i < |ls| ==> NoNewline(ls[i])
  {
    var head := ["", indent + intro, "", indent + themeLabel + theme, indent + conflictLabel + conflict];
    var foot := [indent + plotLabel + plotPoint, indent + settingLabel + setting, "", indent + closing, trailer];
    LayoutOf(head, indent, block, foot);
  }

  /** Splitting the prompt of a story with newline-free fields at "\n"
      gives back exactly its lines. */
  lemma PromptSplitsIntoLines(s: Story)
    requires Validate(s).None? && SingleLineFields(s)
    ensures Split(BuildPrompt(s), '\n') == PromptLines(s)
  {
    CharLinesHaveNoNewline(s.characters);
    FixedTextHasNoNewline();
    ClosingHasNoNewline();
    TemplateLinesNoNewline(Indent, Intro, Closing, Trailer, ThemeLabel, ConflictLabel, PlotPointLabel, SettingLabel,
                           s.theme, s.conflict, CharLines(s.characters), s.plotPoint, s.setting);
    PromptAsLines(s);
    SplitJoin(PromptLines(s), '\n');
  }
}
