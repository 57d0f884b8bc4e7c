/** A briefing's sections: how one is found by its heading, and replaced by its latest text. */
module Briefings {
  import opened Wrappers
  import D = Digest

  function Lines(text: string): (lines: seq<string>)
    ensures lines != []
  {
    D.Split(text, '\n')
  }

  function Rejoined(lines: seq<string>): string { D.Joined(lines, "\n") }

  // Headings.

  function Hashes(line: string): (n: nat)
    ensures n <= |line|
  {
    if line != "" && line[0] == '#' then 1 + Hashes(line[1..]) else 0
  }

  /** The level of a heading's line, and nought for any other. */
  function Level(line: string): nat {
    var n := Hashes(line);
    if n < |line| && line[n] == ' ' then n else 0
  }

  function WithoutLeadingSpace(text: string): string {
    if text != "" && D.IsSpace(text[0]) then WithoutLeadingSpace(text[1..]) else text
  }

  function WithoutTrailingSpace(text: string): (kept: string)
    ensures |kept| <= |text|
  {
    if text != "" && D.IsSpace(text[|text| - 1]) then WithoutTrailingSpace(text[..|text| - 1]) else text
  }

  function Stripped(text: string): string { WithoutTrailingSpace(WithoutLeadingSpace(text)) }

  /** The place after the last `c`. */
  function AfterLast(text: string, c: char): (i: nat)
    ensures i <= |text|
  {
    if text == "" || text[|text| - 1] == c then |text| else AfterLast(text[..|text| - 1], c)
  }

  /** What a heading names: its line without a parenthesis at its end, which only counts. */
  function SectionKey(line: string): string {
    var body := WithoutTrailingSpace(line);
    if body != "" && body[|body| - 1] == ')' then
      var inner := body[..|body| - 1];
      var from := AfterLast(inner, ')');
      var at := from + D.IndexOf(inner[from..], '(');
      if at < |inner| then Stripped(line[..at]) else Stripped(line)
    else Stripped(line)
  }

  /** The first line of a section, which names it. */
  function Heading(text: string): string { text[..D.IndexOf(text, '\n')] }

  function KeyOf(text: string): string { SectionKey(Heading(text)) }

  // A section replaced.

  function Opens(key: string): string -> bool { line => Level(line) > 0 && SectionKey(line) == key }

  function Ends(level: nat): string -> bool { line => 0 < Level(line) <= level }

  function First(lines: seq<string>, wanted: string -> bool): (i: nat)
    ensures i <= |lines|
  {
    if lines == [] || wanted(lines[0]) then 0 else 1 + First(lines[1..], wanted)
  }

  function WithoutLeadingNewlines(text: string): string {
    if text != "" && text[0] == '\n' then WithoutLeadingNewlines(text[1..]) else text
  }

  function WithoutTrailingNewlines(text: string): string {
    if text != "" && text[|text| - 1] == '\n' then WithoutTrailingNewlines(text[..|text| - 1]) else text
  }

  function Trimmed(text: string): string { WithoutTrailingNewlines(WithoutLeadingNewlines(text)) }

  function StartOf(lines: seq<string>, key: string): (start: nat)
    ensures start <= |lines|
  {
    First(lines, Opens(key))
  }

  /** Where the section that starts at `start` ends: at the next heading of its level or higher. */
  function EndOf(lines: seq<string>, start: nat, level: nat): (end: nat)
    requires start < |lines|
    ensures start < end <= |lines|
  {
    start + 1 + First(lines[start + 1..], Ends(level))
  }

  /** The briefing with the section under `heading` replaced by `text`, or taken out. One the briefing does
      not hold joins its end. */
  function Replaced(briefing: string, heading: string, text: Option<string>): string {
    var lines := Lines(briefing);
    var start := StartOf(lines, SectionKey(heading));
    if start == |lines| || Level(heading) == 0 then
      match text
      case None => briefing
      case Some(section) => briefing + "\n\n" + section
    else
      var end := EndOf(lines, start, Level(heading));
      var section := match text case None => [] case Some(section) => Lines(section) + [""];
      Trimmed(Rejoined(lines[..start] + section + lines[end..]))
  }

  // Lines and texts.

  lemma {:induction false} RejoinedLines(text: string)
    ensures Rejoined(Lines(text)) == text
    decreases |text|
  {
    var i := D.IndexOf(text, '\n');
    if i < |text| {
      RejoinedLines(text[i + 1..]);
      assert text == text[..i] + "\n" + text[i + 1..];
    }
  }

  lemma {:induction false} LinesOfConcat(a: string, b: string)
    ensures Lines(a + "\n" + b) == Lines(a) + Lines(b)
    decreases |a|
  {
    var all, i := a + "\n" + b, D.IndexOf(a, '\n');
    assert all[..i] == a[..i];
    D.IndexOfFirst(all, '\n', i);
    if i < |a| {
      LinesOfConcat(a[i + 1..], b);
      assert all[i + 1..] == a[i + 1..] + "\n" + b;
    } else {
      assert all[i + 1..] == b && a[..i] == a;
    }
  }

  lemma RejoinedAndEmpty(text: string)
    ensures Rejoined(Lines(text) + [""]) == text + "\n"
  {
    LinesOfConcat(text, "");
    assert Lines("") == [""];
    RejoinedLines(text + "\n" + "");
    assert text + "\n" + "" == text + "\n";
  }

  lemma HeadingIsFirstLine(text: string)
    ensures Lines(text)[0] == Heading(text)
  {
    var i := D.IndexOf(text, '\n');
    assert i == |text| ==> text[..i] == text;
  }

  lemma {:induction false} FirstBeyond(a: seq<string>, b: seq<string>, wanted: string -> bool)
    requires forall line <- a :: !wanted(line)
    ensures First(a + b, wanted) == |a| + First(b, wanted)
  {
    if a == [] {
      assert a + b == b;
    } else {
      assert (a + b)[0] == a[0] && (a + b)[1..] == a[1..] + b;
      FirstBeyond(a[1..], b, wanted);
    }
  }

  // What a heading says.

  /** A heading's level is the number of its hashes, with a space after them. */
  lemma {:induction false} LevelExactly(line: string, n: nat)
    requires n > 0
    ensures Level(line) == n <==> n < |line| && line[n] == ' ' && forall i | 0 <= i < n :: line[i] == '#'
  {
    HashesAre(line);
    var hashes := Hashes(line);
    if hashes < n < |line| {
      assert line[hashes] != '#';
    }
  }

  lemma {:induction false} HashesAre(line: string)
    ensures var n := Hashes(line); (forall i | 0 <= i < n :: line[i] == '#') && (n < |line| ==> line[n] != '#')
  {
    if line != "" && line[0] == '#' {
      HashesAre(line[1..]);
      assert forall i | 0 < i < |line| :: line[i] == line[1..][i - 1];
    }
  }

  predicate NoSpaceAtEnds(text: string) { text != "" ==> !D.IsSpace(text[0]) && !D.IsSpace(text[|text| - 1]) }

  lemma {:induction false} LeadingGone(text: string) returns (before: string)
    ensures D.Blank(before) && text == before + WithoutLeadingSpace(text)
    ensures var kept := WithoutLeadingSpace(text); kept != "" ==> !D.IsSpace(kept[0])
  {
    before := "";
    if text != "" && D.IsSpace(text[0]) {
      var more := LeadingGone(text[1..]);
      before := [text[0]] + more;
      assert text == [text[0]] + text[1..];
    }
  }

  lemma {:induction false} TrailingGone(text: string) returns (after: string)
    ensures D.Blank(after) && text == WithoutTrailingSpace(text) + after
    ensures var kept := WithoutTrailingSpace(text); kept != "" ==> !D.IsSpace(kept[|kept| - 1]) && kept[0] == text[0]
  {
    after := "";
    if text != "" && D.IsSpace(text[|text| - 1]) {
      var front := text[..|text| - 1];
      var more := TrailingGone(front);
      after := more + [text[|text| - 1]];
      assert text == front + [text[|text| - 1]];
    }
  }

  /** Stripping takes white space from the ends, all of it and nothing else. */
  lemma StrippedExactly(text: string) returns (before: string, after: string)
    ensures D.Blank(before) && D.Blank(after) && text == before + Stripped(text) + after && NoSpaceAtEnds(Stripped(text))
  {
    before := LeadingGone(text);
    after := TrailingGone(WithoutLeadingSpace(text));
  }

  lemma {:induction false} OverTrailingSpace(text: string, blank: string)
    requires D.Blank(blank)
    ensures WithoutTrailingSpace(text + blank) == WithoutTrailingSpace(text)
  {
    if blank == "" {
      assert text + blank == text;
    } else {
      var front := blank[..|blank| - 1];
      assert (text + blank)[..|text + blank| - 1] == text + front;
      assert forall c <- front :: c in blank;
      assert blank[|blank| - 1] in blank;
      OverTrailingSpace(text, front);
    }
  }

  lemma {:induction false} NoneIsLast(text: string, c: char)
    requires c !in text
    ensures AfterLast(text, c) == 0
  {
    if text != "" {
      NoneIsLast(text[..|text| - 1], c);
    }
  }

  lemma {:induction false} BlankIsStripped(text: string)
    requires D.Blank(text)
    ensures WithoutLeadingSpace(text) == ""
  {
    if text != "" {
      assert text[0] in text;
      assert forall c <- text[1..] :: c in text;
      BlankIsStripped(text[1..]);
    }
  }

  lemma {:induction false} StrippedOverGap(text: string, gap: string)
    requires D.Blank(gap)
    ensures Stripped(text + gap) == Stripped(text)
  {
    if text == "" {
      assert text + gap == gap;
      BlankIsStripped(gap);
    } else {
      assert (text + gap)[0] == text[0] && (text + gap)[1..] == text[1..] + gap;
      if D.IsSpace(text[0]) {
        StrippedOverGap(text[1..], gap);
      } else {
        OverTrailingSpace(text, gap);
      }
    }
  }

  lemma NoCountNoCut(name: string)
    requires ')' !in name
    ensures SectionKey(name) == Stripped(name)
  {
    var after := TrailingGone(name);
    var body := WithoutTrailingSpace(name);
    assert body != "" ==> body[|body| - 1] == name[|body| - 1] && name[|body| - 1] in name;
  }

  /** What counts in a heading names nothing: the section is the same with it and without. */
  lemma CountsNameNothing(name: string, gap: string, count: string, end: string)
    requires '(' !in name && ')' !in name && ')' !in count && D.Blank(gap) && D.Blank(end)
    ensures SectionKey(name + gap + "(" + count + ")" + end) == SectionKey(name) == Stripped(name)
  {
    var inner := name + gap + "(" + count;
    var line := inner + ")" + end;
    assert WithoutTrailingSpace(line) == inner + ")" by { OverTrailingSpace(inner + ")", end); }
    assert (inner + ")")[..|inner|] == inner;
    assert ')' !in gap && '(' !in gap;
    NoneIsLast(inner, ')');
    assert inner[0..] == inner && inner[..|name + gap|] == name + gap;
    D.IndexOfFirst(inner, '(', |name + gap|);
    assert line[..|name + gap|] == name + gap;
    StrippedOverGap(name, gap);
    NoCountNoCut(name);
  }

  // A briefing laid out in sections.

  predicate NoNewlineAtEnds(text: string) { text != "" && text[0] != '\n' && text[|text| - 1] != '\n' }

  /** A line inside a section: no heading of a level that ends it, and none that names another. */
  predicate Inner(line: string, level: nat, names: iset<string>) {
    Level(line) == 0 || (Level(line) > level && SectionKey(line) !in names)
  }

  function LevelOf(text: string): nat { Level(Heading(text)) }

  /** A section's text: its heading, and inner lines. */
  predicate IsSection(text: string, names: iset<string>) {
    && NoNewlineAtEnds(text)
    && LevelOf(text) > 0 && KeyOf(text) in names
    && forall i | 0 < i < |Lines(text)| :: Inner(Lines(text)[i], LevelOf(text), names)
  }

  /** What stands before the sections: it holds none of their headings. */
  predicate IsPreamble(text: string, names: iset<string>) {
    NoNewlineAtEnds(text) && forall line <- Lines(text) :: Level(line) == 0 || SectionKey(line) !in names
  }

  predicate AreSections(texts: seq<string>, names: iset<string>) {
    forall text <- texts :: IsSection(text, names)
  }

  predicate KeysDiffer(texts: seq<string>) {
    forall i, j | 0 <= i < j < |texts| :: KeyOf(texts[i]) != KeyOf(texts[j])
  }

  /** The preamble, and each section after an empty line. */
  function Laid(preamble: string, texts: seq<string>): string {
    if texts == [] then preamble else Laid(preamble, texts[..|texts| - 1]) + "\n\n" + texts[|texts| - 1]
  }

  function Spread(texts: seq<string>): seq<string> {
    if texts == [] then [] else [""] + Lines(texts[0]) + Spread(texts[1..])
  }

  function Given(text: Option<string>): seq<string> { if text.Some? then [text.value] else [] }

  /** The sections with the one of `key` replaced in its place, taken out, or added at the end. */
  function Put(texts: seq<string>, key: string, text: Option<string>): seq<string> {
    if texts == [] then Given(text)
    else if KeyOf(texts[0]) == key then Given(text) + texts[1..]
    else [texts[0]] + Put(texts[1..], key, text)
  }

  lemma {:induction false} SpreadConcat(a: seq<string>, b: seq<string>)
    ensures Spread(a + b) == Spread(a) + Spread(b)
  {
    if a == [] {
      assert a + b == b;
    } else {
      assert (a + b)[1..] == a[1..] + b;
      SpreadConcat(a[1..], b);
    }
  }

  lemma SpreadOne(text: string)
    ensures Spread([text]) == [""] + Lines(text)
  {
    assert [text][1..] == [];
  }

  lemma {:induction false} LinesOfLaid(preamble: string, texts: seq<string>)
    ensures Lines(Laid(preamble, texts)) == Lines(preamble) + Spread(texts)
  {
    if texts != [] {
      var front, last := texts[..|texts| - 1], texts[|texts| - 1];
      LinesOfLaid(preamble, front);
      SpreadConcat(front, [last]);
      SpreadOne(last);
      assert front + [last] == texts;
      var before := Laid(preamble, front);
      LinesOfConcat(before, "");
      LinesOfConcat(before + "\n" + "", last);
      assert before + "\n\n" + last == (before + "\n" + "") + "\n" + last;
      assert Lines("") == [""];
    }
  }

  lemma {:induction false} LaidEnds(preamble: string, texts: seq<string>)
    requires NoNewlineAtEnds(preamble) && forall text <- texts :: NoNewlineAtEnds(text)
    ensures NoNewlineAtEnds(Laid(preamble, texts))
  {
    if texts != [] {
      LaidEnds(preamble, texts[..|texts| - 1]);
      assert texts[|texts| - 1] in texts;
    }
  }

  lemma TrimmedKeeps(text: string)
    requires NoNewlineAtEnds(text)
    ensures Trimmed(text) == text && Trimmed(text + "\n") == text
  {
    assert (text + "\n")[..|text|] == text;
  }

  // Replacing a section of a briefing so laid out.

  lemma SectionLines(text: string, names: iset<string>)
    requires IsSection(text, names)
    ensures Lines(text)[0] == Heading(text)
    ensures forall line <- Lines(text)[1..] :: Inner(line, LevelOf(text), names)
  {
    HeadingIsFirstLine(text);
    forall line <- Lines(text)[1..] ensures Inner(line, LevelOf(text), names) {
      var k: nat :| k < |Lines(text)[1..]| && Lines(text)[1..][k] == line;
      assert Lines(text)[k + 1] == line;
    }
  }

  lemma {:induction false} OthersDoNotOpen(texts: seq<string>, key: string, names: iset<string>)
    requires AreSections(texts, names) && key in names && forall text <- texts :: KeyOf(text) != key
    ensures forall line <- Spread(texts) :: !Opens(key)(line)
  {
    if texts != [] {
      var text := texts[0];
      OthersDoNotOpen(texts[1..], key, names);
      SectionLines(text, names);
      assert Lines(text) == [Heading(text)] + Lines(text)[1..];
      assert Level("") == 0;
    }
  }

  /** The lines before a section: the preamble, the sections before it, and the empty line. */
  function LinesBefore(preamble: string, before: seq<string>): seq<string> { Lines(preamble) + Spread(before) + [""] }

  lemma BeforeDoesNotOpen(preamble: string, before: seq<string>, key: string, names: iset<string>)
    requires IsPreamble(preamble, names) && AreSections(before, names) && key in names
    requires forall text <- before :: KeyOf(text) != key
    ensures forall line <- LinesBefore(preamble, before) :: !Opens(key)(line)
    ensures forall line <- Lines(Laid(preamble, before)) :: !Opens(key)(line)
  {
    OthersDoNotOpen(before, key, names);
    LinesOfLaid(preamble, before);
    assert Level("") == 0;
  }

  lemma LinesAround(preamble: string, before: seq<string>, text: string, after: seq<string>)
    ensures Lines(Laid(preamble, before + [text] + after)) == LinesBefore(preamble, before) + (Lines(text) + Spread(after))
  {
    LinesOfLaid(preamble, before + [text] + after);
    SpreadConcat(before + [text], after);
    SpreadConcat(before, [text]);
    SpreadOne(text);
  }

  lemma StartOfSection(preamble: string, before: seq<string>, text: string, after: seq<string>, names: iset<string>)
    requires IsPreamble(preamble, names) && AreSections(before, names) && IsSection(text, names)
    requires forall other <- before :: KeyOf(other) != KeyOf(text)
    ensures StartOf(Lines(Laid(preamble, before + [text] + after)), KeyOf(text)) == |LinesBefore(preamble, before)|
  {
    BeforeDoesNotOpen(preamble, before, KeyOf(text), names);
    LinesAround(preamble, before, text, after);
    SectionLines(text, names);
    FirstBeyond(LinesBefore(preamble, before), Lines(text) + Spread(after), Opens(KeyOf(text)));
  }

  /** Where the lines of the next section start, its empty line before them left to the one replaced. */
  function LinesAfter(after: seq<string>): seq<string> { if after == [] then [] else Lines(after[0]) + Spread(after[1..]) }

  lemma Beyond(a: seq<string>, b: seq<string>, k: nat)
    requires k <= |b|
    ensures (a + b)[|a| + k..] == b[k..]
  {
  }

  lemma UpTo(a: seq<string>, b: seq<string>)
    ensures (a + b)[..|a|] == a
  {
  }

  lemma Regrouped(a: seq<string>, b: seq<string>, c: seq<string>)
    ensures (a + b) + c == a + (b + c)
  {
  }

  lemma FirstAfter(after: seq<string>, level: nat, names: iset<string>)
    requires after != [] ==> IsSection(after[0], names) && LevelOf(after[0]) <= level
    ensures var end := First(Spread(after), Ends(level)); Spread(after)[end..] == LinesAfter(after)
  {
    if after != [] {
      HeadingIsFirstLine(after[0]);
      Regrouped([""], Lines(after[0]), Spread(after[1..]));
      assert !Ends(level)("") && Ends(level)(LinesAfter(after)[0]);
      FirstBeyond([""], LinesAfter(after), Ends(level));
      Beyond([""], LinesAfter(after), 0);
    }
  }

  lemma HeadThenTail(first: seq<string>, own: seq<string>, spread: seq<string>)
    requires own != []
    ensures first + (own + spread) == (first + [own[0]]) + (own[1..] + spread)
  {
    assert own == [own[0]] + own[1..];
    Regrouped([own[0]], own[1..], spread);
    Regrouped(first, [own[0]], own[1..] + spread);
  }

  lemma EndAmong(lines: seq<string>, first: seq<string>, line: string, inner: seq<string>, spread: seq<string>, level: nat)
    requires lines == (first + [line]) + (inner + spread) && forall other <- inner :: !Ends(level)(other)
    ensures lines[..|first|] == first
    ensures lines[EndOf(lines, |first|, level)..] == spread[First(spread, Ends(level))..]
  {
    var more := First(spread, Ends(level));
    assert |first + [line]| == |first| + 1;
    assert lines[..|first|] == first by { Regrouped(first, [line], inner + spread); UpTo(first, [line] + (inner + spread)); }
    Beyond(first + [line], inner + spread, 0);
    assert (inner + spread)[0..] == inner + spread;
    FirstBeyond(inner, spread, Ends(level));
    Beyond(first + [line], inner + spread, |inner| + more);
    Beyond(inner, spread, more);
  }

  lemma EndOfSection(preamble: string, before: seq<string>, text: string, after: seq<string>, names: iset<string>)
    requires IsSection(text, names) && (after != [] ==> IsSection(after[0], names) && LevelOf(after[0]) <= LevelOf(text))
    ensures var lines, start := Lines(Laid(preamble, before + [text] + after)), |LinesBefore(preamble, before)|;
            start < |lines| && lines[..start] == LinesBefore(preamble, before) &&
            lines[EndOf(lines, start, LevelOf(text))..] == LinesAfter(after)
  {
    var first, own, spread := LinesBefore(preamble, before), Lines(text), Spread(after);
    LinesAround(preamble, before, text, after);
    SectionLines(text, names);
    FirstAfter(after, LevelOf(text), names);
    HeadThenTail(first, own, spread);
    EndAmong(Lines(Laid(preamble, before + [text] + after)), first, own[0], own[1..], spread, LevelOf(text));
  }

  /** The lines of the briefing with a section put in its place, or left out. */
  function LinesWith(preamble: string, before: seq<string>, now: seq<string>, after: seq<string>): seq<string> {
    LinesBefore(preamble, before) + (if now == [] then [] else Lines(now[0]) + [""]) + LinesAfter(after)
  }

  lemma LinesOfThree(preamble: string, before: seq<string>, now: seq<string>, after: seq<string>)
    ensures Lines(Laid(preamble, before + now + after)) == Lines(preamble) + Spread(before) + Spread(now) + Spread(after)
  {
    LinesOfLaid(preamble, before + now + after);
    SpreadConcat(before + now, after);
    SpreadConcat(before, now);
  }

  lemma Moved(a: seq<string>, b: seq<string>, c: seq<string>)
    ensures a + [""] + (b + [""]) + c == a + ([""] + b) + ([""] + c)
    ensures a + [""] + [] + c == a + [] + ([""] + c)
  {
  }

  /** They are the lines of that briefing, and an empty one more where no section follows. */
  lemma LinesWithAre(preamble: string, before: seq<string>, now: seq<string>, after: seq<string>)
    requires |now| <= 1
    ensures LinesWith(preamble, before, now, after) ==
            Lines(Laid(preamble, before + now + after)) + if after == [] then [""] else []
  {
    LinesOfThree(preamble, before, now, after);
    if now != [] {
      assert now == [now[0]];
      SpreadOne(now[0]);
      Moved(Lines(preamble) + Spread(before), Lines(now[0]), LinesAfter(after));
    } else {
      Moved(Lines(preamble) + Spread(before), [], LinesAfter(after));
    }
    assert after != [] ==> Spread(after) == [""] + LinesAfter(after);
  }

  lemma KeptLines(preamble: string, before: seq<string>, now: seq<string>, after: seq<string>)
    requires NoNewlineAtEnds(preamble) && (forall text <- before + now + after :: NoNewlineAtEnds(text)) && |now| <= 1
    ensures Trimmed(Rejoined(LinesWith(preamble, before, now, after))) == Laid(preamble, before + now + after)
  {
    var laid := Laid(preamble, before + now + after);
    LinesWithAre(preamble, before, now, after);
    LaidEnds(preamble, before + now + after);
    TrimmedKeeps(laid);
    RejoinedAndEmpty(laid);
    RejoinedLines(laid);
    assert Lines(laid) + [] == Lines(laid);
  }

  lemma PutNext(other: string, rest: seq<string>, key: string, text: Option<string>)
    requires KeyOf(other) != key
    ensures Put([other] + rest, key, text) == [other] + Put(rest, key, text)
  {
    assert ([other] + rest)[1..] == rest;
  }

  lemma {:induction false} PutBeyond(before: seq<string>, rest: seq<string>, key: string, text: Option<string>)
    requires forall other <- before :: KeyOf(other) != key
    ensures Put(before + rest, key, text) == before + Put(rest, key, text)
  {
    if before == [] {
      assert before + rest == rest;
    } else {
      var other, more := before[0], before[1..];
      assert before == [other] + more;
      PutBeyond(more, rest, key, text);
      PutNext(other, more + rest, key, text);
      Regrouped([other], more, rest);
      Regrouped([other], more, Put(rest, key, text));
    }
  }

  lemma PutAt(before: seq<string>, stale: string, after: seq<string>, text: Option<string>)
    requires forall other <- before :: KeyOf(other) != KeyOf(stale)
    ensures Put(before + [stale] + after, KeyOf(stale), text) == before + Given(text) + after
  {
    PutBeyond(before, [stale] + after, KeyOf(stale), text);
    assert before + [stale] + after == before + ([stale] + after);
    assert ([stale] + after)[1..] == after;
  }

  lemma PutNew(texts: seq<string>, key: string, text: Option<string>)
    requires forall other <- texts :: KeyOf(other) != key
    ensures Put(texts, key, text) == texts + Given(text)
  {
    PutBeyond(texts, [], key, text);
    assert texts + [] == texts;
  }

  lemma SectionsAround(before: seq<string>, stale: string, after: seq<string>, now: seq<string>, names: iset<string>)
    requires AreSections(before + [stale] + after, names) && forall text <- now :: NoNewlineAtEnds(text)
    ensures AreSections(before, names) && IsSection(stale, names) && AreSections(after, names)
    ensures forall text <- before + now + after :: NoNewlineAtEnds(text)
  {
    var all := before + [stale] + after;
    assert stale in all && (forall text <- before :: text in all) && (forall text <- after :: text in all);
  }

  lemma ReplacedFrom(briefing: string, heading: string, text: Option<string>, first: seq<string>, rest: seq<string>)
    requires var lines, start := Lines(briefing), |first|;
             start < |lines| && StartOf(lines, SectionKey(heading)) == start && Level(heading) > 0 &&
             lines[..start] == first && lines[EndOf(lines, start, Level(heading))..] == rest
    ensures Replaced(briefing, heading, text) ==
            Trimmed(Rejoined(first + (if Given(text) == [] then [] else Lines(Given(text)[0]) + [""]) + rest))
  {
  }

  lemma ReplacedInPlace(preamble: string, before: seq<string>, stale: string, after: seq<string>, heading: string,
                        text: Option<string>, names: iset<string>)
    requires IsPreamble(preamble, names) && AreSections(before + [stale] + after, names)
    requires forall other <- before :: KeyOf(other) != KeyOf(stale)
    requires Level(heading) == LevelOf(stale) && SectionKey(heading) == KeyOf(stale)
    requires after != [] ==> LevelOf(after[0]) <= LevelOf(stale)
    requires text.Some? ==> NoNewlineAtEnds(text.value)
    ensures Replaced(Laid(preamble, before + [stale] + after), heading, text) == Laid(preamble, before + Given(text) + after)
  {
    SectionsAround(before, stale, after, Given(text), names);
    StartOfSection(preamble, before, stale, after, names);
    EndOfSection(preamble, before, stale, after, names);
    ReplacedFrom(Laid(preamble, before + [stale] + after), heading, text, LinesBefore(preamble, before), LinesAfter(after));
    KeptLines(preamble, before, Given(text), after);
  }

  lemma ReplacedAtEnd(preamble: string, texts: seq<string>, heading: string, text: Option<string>, names: iset<string>)
    requires IsPreamble(preamble, names) && AreSections(texts, names) && SectionKey(heading) in names
    requires forall other <- texts :: KeyOf(other) != SectionKey(heading)
    ensures Replaced(Laid(preamble, texts), heading, text) == Laid(preamble, texts + Given(text))
  {
    var lines := Lines(Laid(preamble, texts));
    BeforeDoesNotOpen(preamble, texts, SectionKey(heading), names);
    FirstBeyond(lines, [], Opens(SectionKey(heading)));
    assert lines + [] == lines;
    if text.Some? {
      assert (texts + Given(text))[..|texts|] == texts;
    } else {
      assert texts + Given(text) == texts;
    }
  }

  /** The section after one of `key` ends it: its heading is of the same level or higher. */
  predicate EndsWhereNextBegins(texts: seq<string>, key: string) {
    forall i: nat | i + 1 < |texts| && KeyOf(texts[i]) == key :: LevelOf(texts[i + 1]) <= LevelOf(texts[i])
  }

  /** Replacing a section of a briefing laid out in sections gives that briefing with the one section in its
      latest text, every other as it was: the place of a section that stays, the end for one that is new. */
  lemma ReplacedPuts(preamble: string, texts: seq<string>, heading: string, text: Option<string>, names: iset<string>)
    requires IsPreamble(preamble, names) && AreSections(texts, names) && KeysDiffer(texts)
    requires SectionKey(heading) in names && EndsWhereNextBegins(texts, SectionKey(heading))
    requires forall other <- texts | KeyOf(other) == SectionKey(heading) :: LevelOf(other) == Level(heading)
    requires text.Some? ==> NoNewlineAtEnds(text.value)
    ensures Replaced(Laid(preamble, texts), heading, text) == Laid(preamble, Put(texts, SectionKey(heading), text))
  {
    var key := SectionKey(heading);
    if i: nat :| i < |texts| && KeyOf(texts[i]) == key {
      var before, stale, after := texts[..i], texts[i], texts[i + 1..];
      assert texts == before + [stale] + after;
      ReplacedInPlace(preamble, before, stale, after, heading, text, names);
      PutAt(before, stale, after, text);
    } else {
      ReplacedAtEnd(preamble, texts, heading, text, names);
      PutNew(texts, key, text);
    }
  }

  // A section of a lower level is not told apart from the lines of the section before it.

  lemma {:induction false} TrimmedIsNoLonger(text: string)
    ensures |WithoutLeadingNewlines(text)| <= |text| && |WithoutTrailingNewlines(text)| <= |text|
  {
    if text != "" {
      TrimmedIsNoLonger(text[1..]);
      TrimmedIsNoLonger(text[..|text| - 1]);
    }
  }

  lemma RestCosts(dropped: seq<string>, rest: seq<string>, m: nat)
    requires dropped != [] && m <= |rest|
    ensures D.Cost(rest[m..]) < D.Cost(dropped + rest)
  {
    D.CostOfConcat(dropped, rest);
    D.CostOfConcat(rest[..m], rest[m..]);
    assert rest == rest[..m] + rest[m..];
    assert D.Cost(dropped) > 0;
  }

  /** Without a section's lines, whatever else is cut after them, the text is shorter. */
  lemma ShorterWithout(kept: seq<string>, rest: seq<string>, more: seq<string>)
    requires kept != [] && D.Cost(rest) < D.Cost(more)
    ensures |Trimmed(Rejoined(kept + rest))| < |Rejoined(kept + more)|
  {
    var short := Rejoined(kept + rest);
    TrimmedIsNoLonger(short);
    TrimmedIsNoLonger(WithoutLeadingNewlines(short));
    D.JoinedLength(kept + rest, "\n");
    D.JoinedLength(kept + more, "\n");
    D.CostOfConcat(kept, rest);
    D.CostOfConcat(kept, more);
  }

  lemma LowerDoesNotEnd(next: string, after: seq<string>, level: nat, names: iset<string>)
    requires IsSection(next, names) && LevelOf(next) > level
    ensures var end := First(Spread([next] + after), Ends(level));
            exists m: nat :: m <= |Spread(after)| && Spread([next] + after)[end..] == Spread(after)[m..]
  {
    SectionLines(next, names);
    var lower, rest := [""] + Lines(next), Spread(after);
    assert ([next] + after)[1..] == after;
    assert Spread([next] + after) == lower + rest;
    HeadThenTail([""], Lines(next), []);
    forall line <- lower ensures !Ends(level)(line) {
      assert line == "" || line == Lines(next)[0] || line in Lines(next)[1..];
    }
    FirstBeyond(lower, rest, Ends(level));
    Beyond(lower, rest, First(rest, Ends(level)));
  }

  /** The lines after the section that a lower one follows: what is left once it is cut with it. */
  lemma CutWithTheNext(preamble: string, before: seq<string>, stale: string, next: string, after: seq<string>,
                       names: iset<string>) returns (m: nat)
    requires IsSection(stale, names) && IsSection(next, names) && LevelOf(next) > LevelOf(stale)
    ensures var lines, start := Lines(Laid(preamble, before + [stale] + ([next] + after))), |LinesBefore(preamble, before)|;
            m <= |Spread(after)| && start < |lines| && lines[..start] == LinesBefore(preamble, before) &&
            lines[EndOf(lines, start, LevelOf(stale))..] == Spread(after)[m..]
  {
    var first, own, spread := LinesBefore(preamble, before), Lines(stale), Spread([next] + after);
    LinesAround(preamble, before, stale, [next] + after);
    SectionLines(stale, names);
    HeadThenTail(first, own, spread);
    EndAmong(Lines(Laid(preamble, before + [stale] + ([next] + after))), first, own[0], own[1..], spread, LevelOf(stale));
    LowerDoesNotEnd(next, after, LevelOf(stale), names);
    m :| m <= |Spread(after)| && spread[First(spread, Ends(LevelOf(stale)))..] == Spread(after)[m..];
  }

  lemma SwallowsTheNext(preamble: string, before: seq<string>, stale: string, next: string, after: seq<string>,
                        text: string, names: iset<string>)
    requires IsPreamble(preamble, names) && AreSections(before + [stale] + ([next] + after), names)
    requires forall other <- before :: KeyOf(other) != KeyOf(stale)
    requires NoNewlineAtEnds(text) && LevelOf(text) == LevelOf(stale) && KeyOf(text) == KeyOf(stale)
    requires LevelOf(next) > LevelOf(stale)
    ensures |Replaced(Laid(preamble, before + [stale] + ([next] + after)), Heading(text), Some(text))| <
            |Laid(preamble, before + [text] + ([next] + after))|
  {
    var follow, laid := [next] + after, Laid(preamble, before + [text] + ([next] + after));
    SectionsAround(before, stale, follow, [text], names);
    assert IsSection(follow[0], names);
    StartOfSection(preamble, before, stale, follow, names);
    var m := CutWithTheNext(preamble, before, stale, next, after, names);
    ReplacedFrom(Laid(preamble, before + [stale] + follow), Heading(text), Some(text), LinesBefore(preamble, before), Spread(after)[m..]);
    LinesWithAre(preamble, before, [text], follow);
    RejoinedLines(laid);
    assert follow[1..] == after;
    RestCosts(Lines(next), Spread(after), m);
    ShorterWithout(LinesBefore(preamble, before) + (Lines(text) + [""]), Spread(after)[m..], LinesAfter(follow));
    assert Lines(laid) + [] == Lines(laid);
  }

  /** A section sent again leaves the one after it in the briefing exactly when that one's heading is of the
      same level or higher; otherwise it is cut out with the stale text. */
  lemma TheNextIsKeptExactly(preamble: string, before: seq<string>, stale: string, next: string, after: seq<string>,
                             text: string, names: iset<string>)
    requires IsPreamble(preamble, names) && AreSections(before + [stale] + ([next] + after), names)
    requires forall other <- before :: KeyOf(other) != KeyOf(stale)
    requires NoNewlineAtEnds(text) && LevelOf(text) == LevelOf(stale) && KeyOf(text) == KeyOf(stale)
    ensures (Replaced(Laid(preamble, before + [stale] + ([next] + after)), Heading(text), Some(text)) ==
             Laid(preamble, before + [text] + ([next] + after))) <==> LevelOf(next) <= LevelOf(stale)
  {
    if LevelOf(next) <= LevelOf(stale) {
      ReplacedInPlace(preamble, before, stale, [next] + after, Heading(text), Some(text), names);
    } else {
      SwallowsTheNext(preamble, before, stale, next, after, text, names);
    }
  }

  // What putting a section in its place changes.

  /** The text of a section, if it is there. */
  function Find(texts: seq<string>, key: string): Option<string> {
    if texts == [] then None else if KeyOf(texts[0]) == key then Some(texts[0]) else Find(texts[1..], key)
  }

  lemma {:induction false} FindMeans(texts: seq<string>, key: string)
    ensures Find(texts, key).None? <==> forall text <- texts :: KeyOf(text) != key
    ensures Find(texts, key).Some? ==> Find(texts, key).value in texts && KeyOf(Find(texts, key).value) == key
  {
    if texts != [] {
      FindMeans(texts[1..], key);
    }
  }

  lemma DiffersFromRest(texts: seq<string>)
    requires KeysDiffer(texts) && texts != []
    ensures KeysDiffer(texts[1..]) && forall text <- texts[1..] :: KeyOf(text) != KeyOf(texts[0])
  {
    forall text <- texts[1..] ensures KeyOf(text) != KeyOf(texts[0]) {
      var k: nat :| k < |texts[1..]| && texts[1..][k] == text;
      assert texts[k + 1] == text;
    }
  }

  lemma DiffersWith(text: string, rest: seq<string>)
    requires KeysDiffer(rest) && forall other <- rest :: KeyOf(other) != KeyOf(text)
    ensures KeysDiffer([text] + rest)
  {
  }

  /** It changes that section and no other: the keys still differ, and no text comes from elsewhere. */
  lemma {:induction false} PutChangesOne(texts: seq<string>, key: string, text: Option<string>)
    requires KeysDiffer(texts) && (text.Some? ==> KeyOf(text.value) == key)
    ensures KeysDiffer(Put(texts, key, text))
    ensures forall other <- Put(texts, key, text) :: other in texts || text == Some(other)
    ensures forall other :: Find(Put(texts, key, text), other) == if other == key then text else Find(texts, other)
  {
    if texts != [] {
      var first, rest := texts[0], texts[1..];
      DiffersFromRest(texts);
      PutChangesOne(rest, key, text);
      FindMeans(rest, key);
      if KeyOf(first) == key {
        if text.Some? { DiffersWith(text.value, rest); }
        assert Put(texts, key, text) == Given(text) + rest;
        assert (Given(text) + rest)[|Given(text)|..] == rest;
      } else {
        var put := Put(rest, key, text);
        DiffersWith(first, put);
        assert ([first] + put)[1..] == put;
      }
    }
  }
}
