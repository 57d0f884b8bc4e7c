/** The text one update is sent as: the changed sections joined after its lead, and how they are read back. */
module UpdateTexts {
  import opened Wrappers
  import D = Digest
  import B = Briefings

  const SECTION_SEPARATOR := "\n\n---\n\n"
  const GONE_LEAD := "The section "
  const GONE_END := " no longer applies."

  function SectionUpdate(items: seq<string>): string {
    D.SECTION_UPDATE_LEAD + "\n\n" + D.Joined(items, SECTION_SEPARATOR)
  }

  /** The item sent for a section that renders as nothing any more. */
  function GoneText(heading: string): string { GONE_LEAD + heading + GONE_END }

  /** The pieces of `text` between separators, `piece` being the one under way. */
  function Sections(text: string, separator: string, piece: string): (items: seq<string>)
    requires separator != ""
    ensures items != []
    decreases |text|
  {
    if text == "" then [piece]
    else if separator <= text then [piece] + Sections(text[|separator|..], separator, "")
    else Sections(text[1..], separator, piece + [text[0]])
  }

  /** The sections an update's text sends after its lead, in order. */
  function ItemsOf(text: string): seq<string> {
    var after := if D.StartsWith(text, D.SECTION_UPDATE_LEAD) then text[|D.SECTION_UPDATE_LEAD|..] else text;
    Sections(B.WithoutLeadingNewlines(after), SECTION_SEPARATOR, "")
  }

  /** The heading an item says no longer applies: one line of that form, whatever newline ends it. */
  function GoneHeading(item: string): Option<string> {
    var line := if item != "" && item[|item| - 1] == '\n' then item[..|item| - 1] else item;
    var end := |line| - |GONE_END|;
    if '\n' !in line && GONE_LEAD <= line && end > |GONE_LEAD| && line[end..] == GONE_END
    then Some(line[|GONE_LEAD|..end]) else None
  }

  // Joined sections are read back.

  /** Where `separator` first stands in `text`, or its length. */
  function FirstAt(text: string, separator: string): (i: nat)
    ensures i <= |text|
  {
    if text == "" || separator <= text then 0 else 1 + FirstAt(text[1..], separator)
  }

  /** The first piece ends where the separator first stands, and the others come after it. */
  ghost predicate CutAt(text: string, separator: string, piece: string, i: nat)
    requires separator != "" && i <= |text|
  {
    if i == |text| then Sections(text, separator, piece) == [piece + text]
    else
      separator <= text[i..] &&
      Sections(text, separator, piece) == [piece + text[..i]] + Sections(text[i + |separator|..], separator, "")
  }

  lemma CutLater(text: string, separator: string, piece: string, i: nat)
    requires separator != "" && text != "" && !(separator <= text) && i < |text|
    requires CutAt(text[1..], separator, piece + [text[0]], i)
    ensures CutAt(text, separator, piece, i + 1)
  {
    var rest := text[1..];
    assert piece + [text[0]] + rest[..i] == piece + text[..i + 1] && rest[i..] == text[i + 1..];
    if i == |rest| {
      assert rest[..i] == rest && text[..i + 1] == text;
    } else {
      assert rest[i + |separator|..] == text[i + 1 + |separator|..];
    }
  }

  lemma {:induction false} SectionsBegin(text: string, separator: string, piece: string)
    requires separator != ""
    ensures CutAt(text, separator, piece, FirstAt(text, separator))
    decreases |text|
  {
    if text == "" {
      assert piece + text == piece;
    } else if separator <= text {
      assert piece + text[..0] == piece && text[0..] == text;
    } else {
      SectionsBegin(text[1..], separator, piece + [text[0]]);
      CutLater(text, separator, piece, FirstAt(text[1..], separator));
    }
  }

  lemma {:induction false} JoinUndoesSections(text: string, separator: string, piece: string)
    requires separator != ""
    ensures D.Joined(Sections(text, separator, piece), separator) == piece + text
    decreases |text|
  {
    if text == "" {
      assert piece + text == piece;
    } else if separator <= text {
      JoinUndoesSections(text[|separator|..], separator, "");
      assert text == separator + text[|separator|..];
    } else {
      JoinUndoesSections(text[1..], separator, piece + [text[0]]);
      assert piece + [text[0]] + text[1..] == piece + text;
    }
  }

  /** No separator begins inside an item, even one that would end in the separator after it. */
  predicate Separable(items: seq<string>, separator: string) {
    items != [] ==>
      if |items| == 1 then FirstAt(items[0], separator) == |items[0]|
      else FirstAt(items[0] + separator, separator) == |items[0]| && Separable(items[1..], separator)
  }

  lemma {:induction false} FirstAtWithin(item: string, separator: string, rest: string)
    requires separator != ""
    ensures FirstAt(item + separator + rest, separator) == FirstAt(item + separator, separator) <= |item|
  {
    var all := item + separator + rest;
    if item == "" {
      assert all == separator + rest && item + separator == separator;
    } else {
      assert all[1..] == item[1..] + separator + rest;
      assert (item + separator)[1..] == item[1..] + separator;
      assert separator <= all <==> separator <= item + separator by {
        assert all[..|separator|] == (item + separator)[..|separator|];
      }
      FirstAtWithin(item[1..], separator, rest);
    }
  }

  /** Sections joined are read back as they were exactly when they are separable. */
  lemma {:induction false} SectionsUndoJoinedExactly(items: seq<string>, separator: string)
    requires items != [] && separator != ""
    ensures Sections(D.Joined(items, separator), separator, "") == items <==> Separable(items, separator)
  {
    var text := D.Joined(items, separator);
    SectionsBegin(text, separator, "");
    var i := FirstAt(text, separator);
    if |items| == 1 {
      assert "" + text == items[0];
    } else {
      var more := D.Joined(items[1..], separator);
      SectionsUndoJoinedExactly(items[1..], separator);
      FirstAtWithin(items[0], separator, more);
      assert text == items[0] + separator + more;
      assert "" + text[..i] == text[..i];
      if i == |items[0]| {
        assert text[..i] == items[0] && text[i + |separator|..] == more;
        assert [items[0]] + items[1..] == items;
      }
    }
  }

  lemma {:induction false} LeadingNewlines(text: string)
    ensures |B.WithoutLeadingNewlines(text)| <= |text|
    ensures B.WithoutLeadingNewlines(text) == text <==> !(text != "" && text[0] == '\n')
    ensures B.WithoutLeadingNewlines("\n\n" + text) == B.WithoutLeadingNewlines(text)
  {
    if text != "" && text[0] == '\n' {
      LeadingNewlines(text[1..]);
    }
    assert ("\n\n" + text)[1..] == "\n" + text && ("\n" + text)[1..] == text;
  }

  lemma AfterLead(text: string)
    ensures ItemsOf(D.SECTION_UPDATE_LEAD + "\n\n" + text) == Sections(B.WithoutLeadingNewlines(text), SECTION_SEPARATOR, "")
  {
    var lead := D.SECTION_UPDATE_LEAD;
    assert lead + "\n\n" + text == lead + ("\n\n" + text);
    assert (lead + ("\n\n" + text))[|lead|..] == "\n\n" + text;
    LeadingNewlines(text);
  }

  /** An update's text is read back as the sections it was made of exactly when they are separable and the
      first begins with no newline. */
  lemma UpdateReadsBackExactly(items: seq<string>)
    requires items != []
    ensures var joined := D.Joined(items, SECTION_SEPARATOR);
            ItemsOf(SectionUpdate(items)) == items <==>
            Separable(items, SECTION_SEPARATOR) && !(joined != "" && joined[0] == '\n')
  {
    var joined := D.Joined(items, SECTION_SEPARATOR);
    AfterLead(joined);
    LeadingNewlines(joined);
    SectionsUndoJoinedExactly(items, SECTION_SEPARATOR);
    JoinUndoesSections(B.WithoutLeadingNewlines(joined), SECTION_SEPARATOR, "");
  }

  /** No separator begins inside the text, even one that would end in a separator after it. */
  predicate Clean(text: string) { FirstAt(text + SECTION_SEPARATOR, SECTION_SEPARATOR) == |text| }

  lemma {:induction false} CleanAlone(text: string)
    requires Clean(text)
    ensures FirstAt(text, SECTION_SEPARATOR) == |text|
  {
    var longer := text + SECTION_SEPARATOR;
    if text != "" {
      assert longer[1..] == text[1..] + SECTION_SEPARATOR;
      CleanAlone(text[1..]);
      assert SECTION_SEPARATOR <= text ==> SECTION_SEPARATOR <= longer;
    }
  }

  lemma {:induction false} CleanAreSeparable(items: seq<string>)
    requires forall item <- items :: Clean(item)
    ensures Separable(items, SECTION_SEPARATOR)
  {
    if items != [] {
      CleanAlone(items[0]);
      CleanAreSeparable(items[1..]);
    }
  }

  lemma {:induction false} OneLineIsClean(text: string)
    requires '\n' !in text
    ensures Clean(text)
  {
    var longer := text + SECTION_SEPARATOR;
    if text != "" {
      assert longer[1..] == text[1..] + SECTION_SEPARATOR;
      OneLineIsClean(text[1..]);
      assert longer[0] == text[0] && SECTION_SEPARATOR[0] == '\n';
    }
  }

  /** So clean items, the first of them with a character that is no newline to begin with, are read back. */
  lemma UpdateReadsBack(items: seq<string>)
    requires items != [] && items[0] != "" && items[0][0] != '\n' && forall item <- items :: Clean(item)
    ensures ItemsOf(SectionUpdate(items)) == items
  {
    UpdateReadsBackExactly(items);
    CleanAreSeparable(items);
    assert D.Joined(items, SECTION_SEPARATOR)[0] == items[0][0];
  }

  // A section that is gone is told apart from one that is sent whole.

  lemma GoneReadsBack(heading: string)
    requires heading != "" && '\n' !in heading
    ensures GoneHeading(GoneText(heading)) == Some(heading) && Clean(GoneText(heading)) && GoneText(heading)[0] == 'T'
  {
    var item := GoneText(heading);
    assert item == GONE_LEAD + (heading + GONE_END);
    assert item[|GONE_LEAD|..] == heading + GONE_END;
    assert item[|item| - |GONE_END|..] == GONE_END;
    assert item[|GONE_LEAD|..|item| - |GONE_END|] == heading;
    assert '\n' !in GONE_LEAD && '\n' !in GONE_END && '\n' !in item;
    OneLineIsClean(item);
  }

  lemma SectionIsNotGone(text: string)
    requires B.Level(B.Heading(text)) > 0
    ensures GoneHeading(text) == None && text[0] == '#'
  {
    assert B.Heading(text)[0] == '#';
  }
}
