/** The digest a compaction folds older steps into: its lines, its cap, and how the next digest
    carries it. */
module Digest {
  import opened Messages

  const DIGEST_CHAR_CAP := 4000
  const OPENING := "Earlier steps were compacted " + "to save context. " + "What happened, oldest first:"
  const CLOSING := "The workspace state (spec draft, notes) " + "already reflects all of this; " + "do not redo these calls."
  const OMITTED := "(oldest lines omitted)"
  const USER_LINE_PREFIX := "- user said: "
  const SECTION_UPDATE_LEAD := "Briefing update, " + "not a message from the user. " +
    "The call above changed these sections of your instructions; each one below replaces the section of the same heading."
  const ARGS_HEAD_CHARS := 80
  const RESULT_HEAD_CHARS := 160

  predicate StartsWith(text: string, prefix: string) { prefix <= text }

  /** The characters that separate words where a text is split at white space. */
  predicate IsSpace(c: char) {
    '\t' <= c <= '\r' || '\U{1c}' <= c <= ' ' || c == '\U{85}' || c == '\U{a0}' || c == '\U{1680}' ||
    '\U{2000}' <= c <= '\U{200a}' || c == '\U{2028}' || c == '\U{2029}' || c == '\U{202f}' ||
    c == '\U{205f}' || c == '\U{3000}'
  }

  predicate Blank(text: string) { forall c <- text :: IsSpace(c) }

  /** `text` with every run of whitespace between words as one space, and none at the ends. */
  function Collapsed(text: string, gap: bool, started: bool): string {
    if text == "" then ""
    else if IsSpace(text[0]) then Collapsed(text[1..], true, started)
    else (if gap && started then " " else "") + [text[0]] + Collapsed(text[1..], false, true)
  }

  function Flat(text: string, limit: nat): string {
    var flat := Collapsed(text, false, false);
    if |flat| <= limit then flat else flat[..limit]
  }

  // The section updates of the stable instructions.

  function PlainTexts(items: seq<Item>): seq<string> {
    if items == [] then []
    else (if items[0].Str? then [items[0].text] else []) + PlainTexts(items[1..])
  }

  function Texts(content: Content): seq<string> {
    match content
    case Text(text) => [text]
    case Items(items, _) => PlainTexts(items)
  }

  function FirstUpdate(texts: seq<string>): seq<string> {
    if texts == [] then []
    else if StartsWith(texts[0], SECTION_UPDATE_LEAD) then [texts[0]]
    else FirstUpdate(texts[1..])
  }

  /** The update text a prompt part carries, as a list of none or one. */
  function UpdateText(p: ReqPart): seq<string> {
    if p.UserPrompt? || p.SystemPrompt? then FirstUpdate(Texts(p.content)) else []
  }

  predicate IsSectionUpdate(p: ReqPart) { UpdateText(p) != [] }

  // The digest's lines.

  function ItemWords(items: seq<Item>): seq<string> {
    if items == [] then []
    else
      (match items[0]
       case Str(text) => [text]
       case Words(text) => [text]
       case File(mediaType) => ["(attached " + mediaType + ")"]
       case CachePoint => []) + ItemWords(items[1..])
  }

  function Joined(parts: seq<string>, separator: string): string {
    if parts == [] then "" else if |parts| == 1 then parts[0]
    else parts[0] + separator + Joined(parts[1..], separator)
  }

  function UserText(content: Content): string {
    match content
    case Text(text) => text
    case Items(items, _) => Joined(ItemWords(items), " ")
  }

  function ResultLine(p: ReqPart): string
    requires p.Return?
  {
    var head := Flat(Rendered(p.body), RESULT_HEAD_CHARS);
    if p.retried then "retry: " + head else head
  }

  function ResultsOfParts(parts: seq<ReqPart>): map<string, string> {
    if parts == [] then map[]
    else
      var before, p := ResultsOfParts(parts[..|parts| - 1]), parts[|parts| - 1];
      if p.Return? then before[p.id := ResultLine(p)] else before
  }

  /** The last recorded result line of every returned id. */
  function MiddleResults(middle: seq<Message>): map<string, string> {
    if middle == [] then map[]
    else
      var before, m := MiddleResults(middle[..|middle| - 1]), middle[|middle| - 1];
      if m.Request? then before + ResultsOfParts(m.req) else before
  }

  function RequestLine(p: ReqPart): seq<string> {
    if p.UserPrompt? && !IsSectionUpdate(p) && !Blank(UserText(p.content))
    then [USER_LINE_PREFIX + Flat(UserText(p.content), RESULT_HEAD_CHARS)] else []
  }

  function ResponseLine(p: RespPart, results: map<string, string>): seq<string> {
    match p
    case Said(text) => if Blank(text) then [] else ["- said: " + Flat(text, RESULT_HEAD_CHARS)]
    case Call(id, tool, args) => [CallLine(id, tool, args, results)]
    case NativeCall(id, tool, args) => [CallLine(id, tool, args, results)]
    case _ => []
  }

  function CallLine(id: string, tool: string, args: string, results: map<string, string>): string {
    "- " + tool + "(" + Flat(args, ARGS_HEAD_CHARS) + ") -> " + (if id in results then results[id] else "(no result recorded)")
  }

  function RequestLines(parts: seq<ReqPart>): seq<string> {
    if parts == [] then [] else RequestLines(parts[..|parts| - 1]) + RequestLine(parts[|parts| - 1])
  }

  function ResponseLines(parts: seq<RespPart>, results: map<string, string>): seq<string> {
    if parts == [] then [] else ResponseLines(parts[..|parts| - 1], results) + ResponseLine(parts[|parts| - 1], results)
  }

  function LinesWith(middle: seq<Message>, results: map<string, string>): seq<string> {
    if middle == [] then []
    else
      LinesWith(middle[..|middle| - 1], results) +
      match middle[|middle| - 1]
      case Request(parts) => RequestLines(parts)
      case Response(parts) => ResponseLines(parts, results)
  }

  function DigestLines(middle: seq<Message>): seq<string> {
    LinesWith(middle, MiddleResults(middle))
  }

  // Assembling under the cap.

  function Assembled(lines: seq<string>, omitted: bool): string {
    Joined((if omitted then [OPENING, OMITTED] else [OPENING]) + lines + [CLOSING], "\n")
  }

  predicate IsUserLine(line: string) { StartsWith(line, USER_LINE_PREFIX) }

  function UserLines(lines: seq<string>): seq<string> {
    if lines == [] then []
    else if IsUserLine(lines[|lines| - 1]) then UserLines(lines[..|lines| - 1]) + [lines[|lines| - 1]]
    else UserLines(lines[..|lines| - 1])
  }

  function OtherLines(lines: seq<string>): seq<string> {
    if lines == [] then []
    else if IsUserLine(lines[|lines| - 1]) then OtherLines(lines[..|lines| - 1])
    else OtherLines(lines[..|lines| - 1]) + [lines[|lines| - 1]]
  }

  /** What lines cost once joined: each one and the newline before it. */
  function Cost(lines: seq<string>): nat {
    if lines == [] then 0 else Cost(lines[..|lines| - 1]) + |lines[|lines| - 1]| + 1
  }

  function Budget(): int { DIGEST_CHAR_CAP - |Assembled([], true)| }

  /** The lines kept newest first: every user line, and the others until one would pass the budget. */
  function KeptWithin(lines: seq<string>, used: nat, budget: int): seq<string> {
    if lines == [] then []
    else
      var front, line := lines[..|lines| - 1], lines[|lines| - 1];
      if IsUserLine(line) then KeptWithin(front, used, budget) + [line]
      else if used + |line| + 1 > budget then UserLines(front)
      else KeptWithin(front, used + |line| + 1, budget) + [line]
  }

  predicate OverCap(lines: seq<string>) { |Assembled(lines, false)| > DIGEST_CHAR_CAP }

  /** The lines a digest carries. */
  function CappedLines(lines: seq<string>): seq<string> { CappedWithin(lines, OverCap(lines), Budget()) }

  function CappedWithin(lines: seq<string>, over: bool, budget: int): seq<string> {
    if over then KeptWithin(lines, Cost(UserLines(lines)), budget) else lines
  }

  function Capped(lines: seq<string>): string { Assembled(CappedLines(lines), OverCap(lines)) }

  function Selected(lines: seq<string>, keep: seq<bool>): seq<string>
    requires |lines| == |keep|
  {
    if lines == [] then []
    else Selected(lines[..|lines| - 1], keep[..|keep| - 1]) + (if keep[|keep| - 1] then [lines[|lines| - 1]] else [])
  }

  lemma {:induction false} SelectedOfConcat(a: seq<string>, ka: seq<bool>, b: seq<string>, kb: seq<bool>)
    requires |a| == |ka| && |b| == |kb|
    ensures Selected(a + b, ka + kb) == Selected(a, ka) + Selected(b, kb)
  {
    if b == [] {
      assert a + b == a && ka + kb == ka;
    } else {
      assert (a + b)[..|a + b| - 1] == a + b[..|b| - 1];
      assert (ka + kb)[..|ka + kb| - 1] == ka + kb[..|kb| - 1];
      SelectedOfConcat(a, ka, b[..|b| - 1], kb[..|kb| - 1]);
    }
  }

  lemma {:induction false} SelectedUsers(lines: seq<string>, keep: seq<bool>)
    requires |lines| == |keep| && forall i | 0 <= i < |lines| :: keep[i] == IsUserLine(lines[i])
    ensures Selected(lines, keep) == UserLines(lines)
  {
    if lines != [] {
      SelectedUsers(lines[..|lines| - 1], keep[..|keep| - 1]);
    }
  }

  lemma SelectedFrom(lines: seq<string>, keep: seq<bool>, i: nat)
    requires i < |lines| == |keep|
    ensures Selected(lines[i..], keep[i..]) == (if keep[i] then [lines[i]] else []) + Selected(lines[i + 1..], keep[i + 1..])
  {
    assert lines[i..] == [lines[i]] + lines[i + 1..] && keep[i..] == [keep[i]] + keep[i + 1..];
    SelectedOfConcat([lines[i]], [keep[i]], lines[i + 1..], keep[i + 1..]);
  }

  lemma KeptUpTo(lines: seq<string>, i: nat, used: nat, budget: int)
    requires i < |lines|
    ensures KeptWithin(lines[..i + 1], used, budget) ==
            if IsUserLine(lines[i]) then KeptWithin(lines[..i], used, budget) + [lines[i]]
            else if used + |lines[i]| + 1 > budget then UserLines(lines[..i])
            else KeptWithin(lines[..i], used + |lines[i]| + 1, budget) + [lines[i]]
  {
    assert lines[..i + 1][..i] == lines[..i];
  }

  lemma {:induction false} SelectedSplit(lines: seq<string>, keep: seq<bool>, i: nat)
    requires i <= |lines| == |keep| && forall j | 0 <= j < i :: keep[j] == IsUserLine(lines[j])
    ensures Selected(lines, keep) == UserLines(lines[..i]) + Selected(lines[i..], keep[i..])
  {
    SelectedUsers(lines[..i], keep[..i]);
    SelectedOfConcat(lines[..i], keep[..i], lines[i..], keep[i..]);
    SplitAt(lines, i);
    SplitAt(keep, i);
  }

  lemma SplitAt<T>(s: seq<T>, i: nat)
    requires i <= |s|
    ensures s[..i] + s[i..] == s
  {
  }

  /** The lines chosen once everything from `i` on has been decided. */
  function Chosen(lines: seq<string>, keep: seq<bool>, i: nat, used: nat, budget: int): seq<string>
    requires i <= |lines| == |keep|
  {
    KeptWithin(lines[..i], used, budget) + Selected(lines[i..], keep[i..])
  }

  lemma ChosenUser(lines: seq<string>, keep: seq<bool>, i: nat, used: nat, budget: int)
    requires i < |lines| == |keep| && keep[i] && IsUserLine(lines[i])
    ensures Chosen(lines, keep, i + 1, used, budget) == Chosen(lines, keep, i, used, budget)
  {
    KeptUpTo(lines, i, used, budget);
    SelectedFrom(lines, keep, i);
  }

  lemma ChosenOther(lines: seq<string>, keep: seq<bool>, i: nat, used: nat, budget: int)
    requires i < |lines| == |keep| && !IsUserLine(lines[i]) && used + |lines[i]| + 1 <= budget
    ensures Chosen(lines, keep, i + 1, used, budget) == Chosen(lines, keep[i := true], i, used + |lines[i]| + 1, budget)
  {
    var more, newer := keep[i := true], Selected(lines[i + 1..], keep[i + 1..]);
    var kept := KeptWithin(lines[..i], used + |lines[i]| + 1, budget);
    assert KeptWithin(lines[..i + 1], used, budget) == kept + [lines[i]] by { KeptUpTo(lines, i, used, budget); }
    assert Selected(lines[i..], more[i..]) == [lines[i]] + newer by {
      SelectedFrom(lines, more, i);
      assert more[i + 1..] == keep[i + 1..];
    }
    assert (kept + [lines[i]]) + newer == kept + ([lines[i]] + newer);
  }

  lemma ChosenUpTo(lines: seq<string>, keep: seq<bool>, i: nat, used: nat, budget: int)
    requires i < |lines| == |keep| && !IsUserLine(lines[i]) && used + |lines[i]| + 1 > budget
    requires forall j | 0 <= j <= i :: keep[j] == IsUserLine(lines[j])
    ensures Chosen(lines, keep, i + 1, used, budget) == Selected(lines, keep)
  {
    var newer := Selected(lines[i + 1..], keep[i + 1..]);
    assert Selected(lines[i..], keep[i..]) == newer by { SelectedFrom(lines, keep, i); }
    assert KeptWithin(lines[..i + 1], used, budget) == UserLines(lines[..i]) by { KeptUpTo(lines, i, used, budget); }
    assert Selected(lines, keep) == UserLines(lines[..i]) + newer by { SelectedSplit(lines, keep, i); }
  }

  method KeepNewest(lines: seq<string>, budget: int) returns (kept: seq<string>)
    ensures kept == KeptWithin(lines, Cost(UserLines(lines)), budget)
  {
    var keep := seq(|lines|, i requires 0 <= i < |lines| => IsUserLine(lines[i]));
    var used: nat := Cost(UserLines(lines));
    ghost var all := Chosen(lines, keep, |lines|, used, budget);
    assert all == KeptWithin(lines, used, budget) by { assert lines[..|lines|] == lines; }
    var i := |lines|;
    while i > 0
      invariant 0 <= i <= |lines| == |keep|
      invariant forall j | 0 <= j < i :: keep[j] == IsUserLine(lines[j])
      invariant all == Chosen(lines, keep, i, used, budget)
    {
      i := i - 1;
      if keep[i] {
        ChosenUser(lines, keep, i, used, budget);
        continue;
      }
      if used + |lines[i]| + 1 > budget {
        ChosenUpTo(lines, keep, i, used, budget);
        return Selected(lines, keep);
      }
      ChosenOther(lines, keep, i, used, budget);
      used := used + |lines[i]| + 1;
      keep := keep[i := true];
    }
    assert lines[0..] == lines && keep[0..] == keep;
    return Selected(lines, keep);
  }

  method BuildDigest(middle: seq<Message>, prior: seq<string>) returns (digest: string)
    ensures digest == Capped(prior + DigestLines(middle))
  {
    var lines := prior + DigestLines(middle);
    var whole := Assembled(lines, false);
    if |whole| <= DIGEST_CHAR_CAP {
      return whole;
    }
    var kept := KeepNewest(lines, Budget());
    return Assembled(kept, true);
  }

  // What the cap keeps.

  lemma {:induction false} CostOfConcat(a: seq<string>, b: seq<string>)
    ensures Cost(a + b) == Cost(a) + Cost(b)
  {
    if b == [] {
      assert a + b == a;
    } else {
      assert (a + b)[..|a + b| - 1] == a + b[..|b| - 1];
      CostOfConcat(a, b[..|b| - 1]);
    }
  }

  lemma {:induction false} UsersOfConcat(a: seq<string>, b: seq<string>)
    ensures UserLines(a + b) == UserLines(a) + UserLines(b)
    ensures OtherLines(a + b) == OtherLines(a) + OtherLines(b)
  {
    if b == [] {
      assert a + b == a;
    } else {
      assert (a + b)[..|a + b| - 1] == a + b[..|b| - 1];
      UsersOfConcat(a, b[..|b| - 1]);
    }
  }

  lemma UsersOfSnoc(front: seq<string>, line: string)
    ensures UserLines(front + [line]) == if IsUserLine(line) then UserLines(front) + [line] else UserLines(front)
    ensures OtherLines(front + [line]) == if IsUserLine(line) then OtherLines(front) else OtherLines(front) + [line]
  {
    assert (front + [line])[..|front + [line]| - 1] == front;
  }

  lemma CostOfSnoc(front: seq<string>, line: string)
    ensures Cost(front + [line]) == Cost(front) + |line| + 1
  {
    assert (front + [line])[..|front + [line]| - 1] == front;
  }

  lemma {:induction false} JoinedLength(parts: seq<string>, separator: string)
    requires parts != [] && |separator| == 1
    ensures |Joined(parts, separator)| + 1 == Cost(parts)
  {
    assert parts == [parts[0]] + parts[1..];
    CostOfConcat([parts[0]], parts[1..]);
    if |parts| > 1 {
      JoinedLength(parts[1..], separator);
    }
  }

  lemma AssembledLength(lines: seq<string>, omitted: bool)
    ensures |Assembled(lines, omitted)| == |Assembled([], omitted)| + Cost(lines)
  {
    var opening, closing := if omitted then [OPENING, OMITTED] else [OPENING], [CLOSING];
    JoinedLength(opening + lines + closing, "\n");
    JoinedLength(opening + [] + closing, "\n");
    CostOfConcat(opening + lines, closing);
    CostOfConcat(opening, lines);
    CostOfConcat(opening + [], closing);
    CostOfConcat(opening, []);
  }

  /** Where the cap stops keeping lines that are not the user's. */
  function Cut(lines: seq<string>, used: nat, budget: int): (cut: nat)
    ensures cut <= |lines|
  {
    if lines == [] then 0
    else
      var front, line := lines[..|lines| - 1], lines[|lines| - 1];
      if IsUserLine(line) then Cut(front, used, budget)
      else if used + |line| + 1 > budget then |lines|
      else Cut(front, used + |line| + 1, budget)
  }

  /** Up to the cut only the user's lines are kept, and after it every line. */
  lemma {:induction false} KeptIsUsersThenAll(lines: seq<string>, used: nat, budget: int)
    ensures var cut := Cut(lines, used, budget);
            KeptWithin(lines, used, budget) == UserLines(lines[..cut]) + lines[cut..]
  {
    if lines != [] {
      var front, line := lines[..|lines| - 1], lines[|lines| - 1];
      var next := if IsUserLine(line) then used else used + |line| + 1;
      if IsUserLine(line) || next <= budget {
        KeptIsUsersThenAll(front, next, budget);
        var cut := Cut(front, next, budget);
        assert front[..cut] == lines[..cut] && front[cut..] + [line] == lines[cut..];
      } else {
        assert lines[..|lines|] == lines && lines[|lines|..] == [];
        assert UserLines(lines) == UserLines(front) + [];
      }
    }
  }

  /** The newest of `lines` that fit `room` together. */
  function NewestWithin(lines: seq<string>, room: int): seq<string> {
    if lines == [] || |lines[|lines| - 1]| + 1 > room then []
    else NewestWithin(lines[..|lines| - 1], room - |lines[|lines| - 1]| - 1) + [lines[|lines| - 1]]
  }

  lemma {:induction false} NewestIsSuffix(lines: seq<string>, room: int)
    ensures var kept := NewestWithin(lines, room); |kept| <= |lines| && kept == lines[|lines| - |kept|..]
  {
    if lines != [] && |lines[|lines| - 1]| + 1 <= room {
      var front, line := lines[..|lines| - 1], lines[|lines| - 1];
      var kept := NewestWithin(front, room - |line| - 1);
      NewestIsSuffix(front, room - |line| - 1);
      assert lines[|front| - |kept|..] == front[|front| - |kept|..] + [line];
    }
  }

  /** They are the longest run of newest lines that fits. */
  lemma {:induction false} NewestWithinIsLongest(lines: seq<string>, room: int, from: nat)
    requires from <= |lines| && room >= 0
    ensures Cost(lines[from..]) <= room <==> |lines| - from <= |NewestWithin(lines, room)|
  {
    if from == |lines| {
      assert lines[from..] == [];
    } else {
      var front, line := lines[..|lines| - 1], lines[|lines| - 1];
      assert lines[from..] == front[from..] + [line];
      CostOfSnoc(front[from..], line);
      if |line| + 1 <= room {
        NewestWithinIsLongest(front, room - |line| - 1, from);
      }
    }
  }

  lemma {:induction false} KeptUsers(lines: seq<string>, used: nat, budget: int)
    ensures UserLines(KeptWithin(lines, used, budget)) == UserLines(lines)
  {
    if lines != [] {
      var front, line := lines[..|lines| - 1], lines[|lines| - 1];
      if !IsUserLine(line) && used + |line| + 1 > budget {
        assert UserLines(UserLines(front)) == UserLines(front) by { UsersOfUsers(front); }
      } else {
        var next := if IsUserLine(line) then used else used + |line| + 1;
        var kept := KeptWithin(front, next, budget);
        assert KeptWithin(lines, used, budget) == kept + [line];
        assert UserLines(kept) == UserLines(front) by { KeptUsers(front, next, budget); }
        UsersOfSnoc(kept, line);
      }
    }
  }

  lemma KeptWithinUser(front: seq<string>, line: string, used: nat, budget: int)
    requires IsUserLine(line)
    ensures KeptWithin(front + [line], used, budget) == KeptWithin(front, used, budget) + [line]
  {
    assert (front + [line])[..|front|] == front;
  }

  lemma KeptWithinOther(front: seq<string>, line: string, used: nat, budget: int)
    requires !IsUserLine(line)
    ensures KeptWithin(front + [line], used, budget) ==
            if used + |line| + 1 > budget then UserLines(front) else KeptWithin(front, used + |line| + 1, budget) + [line]
  {
    assert (front + [line])[..|front|] == front;
  }

  /** The other lines kept are the newest that fit what the budget leaves. */
  predicate OthersFit(lines: seq<string>, used: nat, budget: int) {
    OtherLines(KeptWithin(lines, used, budget)) == NewestWithin(OtherLines(lines), budget - used)
  }

  lemma {:induction false} OthersFitUser(front: seq<string>, line: string, used: nat, budget: int)
    requires IsUserLine(line) && OthersFit(front, used, budget)
    ensures OthersFit(front + [line], used, budget)
  {
    var all, kept := front + [line], KeptWithin(front, used, budget);
    assert KeptWithin(all, used, budget) == kept + [line] by { KeptWithinUser(front, line, used, budget); }
    assert OtherLines(kept + [line]) == OtherLines(kept) by { UsersOfSnoc(kept, line); }
    assert OtherLines(all) == OtherLines(front) by { UsersOfSnoc(front, line); }
  }

  lemma OthersOfSnoc(front: seq<string>, line: string)
    requires !IsUserLine(line)
    ensures OtherLines(front + [line]) == OtherLines(front) + [line]
  {
    UsersOfSnoc(front, line);
  }

  lemma {:induction false} OthersKeptOfSnoc(front: seq<string>, line: string, used: nat, budget: int)
    requires !IsUserLine(line) && used + |line| + 1 <= budget
    ensures OtherLines(KeptWithin(front + [line], used, budget)) ==
            OtherLines(KeptWithin(front, used + |line| + 1, budget)) + [line]
  {
    KeptWithinOther(front, line, used, budget);
    OthersOfSnoc(KeptWithin(front, used + |line| + 1, budget), line);
  }

  lemma {:induction false} NewestOthersOfSnoc(front: seq<string>, line: string, room: int)
    requires !IsUserLine(line) && |line| + 1 <= room
    ensures NewestWithin(OtherLines(front + [line]), room) == NewestWithin(OtherLines(front), room - |line| - 1) + [line]
  {
    OthersOfSnoc(front, line);
    NewestWithinOfSnoc(OtherLines(front), line, room);
  }

  lemma {:induction false} OthersFitOther(front: seq<string>, line: string, used: nat, budget: int)
    requires !IsUserLine(line) && used + |line| + 1 <= budget && OthersFit(front, used + |line| + 1, budget)
    ensures OthersFit(front + [line], used, budget)
  {
    OthersKeptOfSnoc(front, line, used, budget);
    NewestOthersOfSnoc(front, line, budget - used);
    assert budget - used - |line| - 1 == budget - (used + |line| + 1);
  }

  lemma {:induction false} OthersFitNone(front: seq<string>, line: string, used: nat, budget: int)
    requires !IsUserLine(line) && used + |line| + 1 > budget
    ensures OthersFit(front + [line], used, budget)
  {
    var all, others := front + [line], OtherLines(front);
    assert KeptWithin(all, used, budget) == UserLines(front) by { KeptWithinOther(front, line, used, budget); }
    assert OtherLines(UserLines(front)) == [] by { UsersOfUsers(front); }
    assert OtherLines(all) == others + [line] by { UsersOfSnoc(front, line); }
    assert NewestWithin(others + [line], budget - used) == [] by { NewestWithinOfSnoc(others, line, budget - used); }
  }

  lemma {:induction false} KeptOthers(lines: seq<string>, used: nat, budget: int)
    ensures OthersFit(lines, used, budget)
  {
    if lines != [] {
      var front, line := lines[..|lines| - 1], lines[|lines| - 1];
      if IsUserLine(line) {
        KeptOthers(front, used, budget);
        OthersFitUser(front, line, used, budget);
      } else if used + |line| + 1 <= budget {
        KeptOthers(front, used + |line| + 1, budget);
        OthersFitOther(front, line, used, budget);
      } else {
        OthersFitNone(front, line, used, budget);
      }
      assert front + [line] == lines;
    }
  }

  lemma NewestWithinOfSnoc(front: seq<string>, line: string, room: int)
    ensures NewestWithin(front + [line], room) ==
            if |line| + 1 > room then [] else NewestWithin(front, room - |line| - 1) + [line]
  {
    assert (front + [line])[..|front + [line]| - 1] == front;
  }

  lemma {:induction false} UsersOfUsers(lines: seq<string>)
    ensures UserLines(UserLines(lines)) == UserLines(lines) && OtherLines(UserLines(lines)) == []
  {
    if lines != [] {
      var front, line := lines[..|lines| - 1], lines[|lines| - 1];
      UsersOfUsers(front);
      UsersOfSnoc(UserLines(front), line);
    }
  }

  lemma {:induction false} CostSplits(lines: seq<string>)
    ensures Cost(lines) == Cost(UserLines(lines)) + Cost(OtherLines(lines))
  {
    if lines != [] {
      var front, line := lines[..|lines| - 1], lines[|lines| - 1];
      CostSplits(front);
      CostOfSnoc(UserLines(front), line);
      CostOfSnoc(OtherLines(front), line);
    }
  }

  lemma NewestWithinFits(lines: seq<string>, room: int)
    ensures Cost(NewestWithin(lines, room)) <= if room >= 0 then room else 0
  {
    if room >= 0 {
      var kept := NewestWithin(lines, room);
      NewestIsSuffix(lines, room);
      NewestWithinIsLongest(lines, room, |lines| - |kept|);
    }
  }

  /** A digest keeps within its cap exactly when everything does, or the user's own lines do. */
  lemma DigestWithinCap(lines: seq<string>)
    ensures |Capped(lines)| <= DIGEST_CHAR_CAP <==>
            !OverCap(lines) || Cost(UserLines(lines)) <= Budget()
  {
    var cap, budget, users := DIGEST_CHAR_CAP, Budget(), Cost(UserLines(lines));
    var kept := KeptWithin(lines, users, budget);
    AssembledLength(kept, true);
    CostSplits(kept);
    CappedKeeps(lines, true, budget);
    NewestWithinFits(OtherLines(lines), budget - users);
  }


  lemma {:induction false} KeptKeeps(lines: seq<string>, used: nat, budget: int)
    ensures var kept := KeptWithin(lines, used, budget);
            UserLines(kept) == UserLines(lines) && OtherLines(kept) == NewestWithin(OtherLines(lines), budget - used)
  {
    KeptUsers(lines, used, budget);
    KeptOthers(lines, used, budget);
  }

  /** The cap never drops or reorders what the user said, and of the other lines it keeps the newest
      that fit beside it. */
  lemma {:induction false} CappedKeeps(lines: seq<string>, over: bool, budget: int)
    ensures var kept := CappedWithin(lines, over, budget);
            UserLines(kept) == UserLines(lines) &&
            OtherLines(kept) ==
            if over then NewestWithin(OtherLines(lines), budget - Cost(UserLines(lines))) else OtherLines(lines)
  {
    if over {
      assert CappedWithin(lines, over, budget) == KeptWithin(lines, Cost(UserLines(lines)), budget);
      KeptKeeps(lines, Cost(UserLines(lines)), budget);
    }
  }

  function Repeated(line: string, n: nat): seq<string> {
    if n == 0 then [] else Repeated(line, n - 1) + [line]
  }

  lemma {:induction false} RepeatedUserLines(line: string, n: nat)
    requires IsUserLine(line)
    ensures UserLines(Repeated(line, n)) == Repeated(line, n) && Cost(Repeated(line, n)) == n * (|line| + 1)
  {
    if n > 0 {
      RepeatedUserLines(line, n - 1);
      UsersOfSnoc(Repeated(line, n - 1), line);
      CostOfSnoc(Repeated(line, n - 1), line);
    }
  }

  predicate OneWord(text: string) { forall c <- text :: !IsSpace(c) }

  lemma {:induction false} WordIsFlat(text: string, started: bool)
    requires OneWord(text)
    ensures Collapsed(text, false, started) == text
  {
    if text != "" {
      assert text[0] in text;
      WordIsFlat(text[1..], true);
      assert [text[0]] + text[1..] == text;
    }
  }

  /** A user who sends `word` again and again. */
  function Prompts(word: string, n: nat): seq<Message> {
    if n == 0 then [] else Prompts(word, n - 1) + [Request([UserPrompt(Text(word))])]
  }

  lemma WordIsNoUpdate(word: string)
    requires OneWord(word) && |word| >= RESULT_HEAD_CHARS
    ensures !IsSectionUpdate(UserPrompt(Text(word)))
  {
    assert !StartsWith(word, SECTION_UPDATE_LEAD) by {
      assert SECTION_UPDATE_LEAD[8] == ' ';
      assert word[8] in word;
    }
    assert FirstUpdate([word][1..]) == [];
    assert FirstUpdate([word]) == [];
    assert Texts(Text(word)) == [word];
  }

  lemma WordIsItsLine(word: string)
    requires OneWord(word) && |word| >= RESULT_HEAD_CHARS
    ensures RequestLines([UserPrompt(Text(word))]) == [USER_LINE_PREFIX + word[..RESULT_HEAD_CHARS]]
  {
    var p := UserPrompt(Text(word));
    WordIsNoUpdate(word);
    WordIsFlat(word, false);
    assert !Blank(word) by { assert word[0] in word; }
    assert Flat(word, RESULT_HEAD_CHARS) == word[..RESULT_HEAD_CHARS];
    assert RequestLine(p) == [USER_LINE_PREFIX + word[..RESULT_HEAD_CHARS]];
    assert [p][..0] == [];
    assert RequestLines([p]) == RequestLines([p][..0]) + RequestLine(p);
  }

  lemma LinesOfSnoc(front: seq<Message>, parts: seq<ReqPart>, results: map<string, string>)
    ensures LinesWith(front + [Request(parts)], results) == LinesWith(front, results) + RequestLines(parts)
  {
    var ms := front + [Request(parts)];
    assert ms[..|ms| - 1] == front;
  }

  lemma {:induction false} PromptLines(word: string, n: nat, results: map<string, string>)
    requires OneWord(word) && |word| >= RESULT_HEAD_CHARS
    ensures LinesWith(Prompts(word, n), results) == Repeated(USER_LINE_PREFIX + word[..RESULT_HEAD_CHARS], n)
  {
    if n > 0 {
      PromptLines(word, n - 1, results);
      WordIsItsLine(word);
      LinesOfSnoc(Prompts(word, n - 1), [UserPrompt(Text(word))], results);
    }
  }

  /** Thirty long messages of the user are enough: none may be dropped, so their digest passes its cap. */
  lemma UserLinesCanPassTheCap(word: string)
    requires OneWord(word) && |word| >= RESULT_HEAD_CHARS
    ensures |Capped(DigestLines(Prompts(word, 30)))| > DIGEST_CHAR_CAP
  {
    var line := USER_LINE_PREFIX + word[..RESULT_HEAD_CHARS];
    PromptLines(word, 30, MiddleResults(Prompts(word, 30)));
    RepeatedUserLines(line, 30);
    AssembledLength(Repeated(line, 30), false);
    DigestWithinCap(Repeated(line, 30));
  }

  lemma CapKeepsUsers(lines: seq<string>)
    ensures UserLines(CappedLines(lines)) == UserLines(lines)
  {
    CappedKeeps(lines, OverCap(lines), Budget());
  }

  /** From some line on it keeps everything, and before that only what the user said, in order. */
  lemma CapCutsOnce(lines: seq<string>) returns (cut: nat)
    ensures cut <= |lines| && CappedLines(lines) == UserLines(lines[..cut]) + lines[cut..]
  {
    if OverCap(lines) {
      cut := Cut(lines, Cost(UserLines(lines)), Budget());
      KeptIsUsersThenAll(lines, Cost(UserLines(lines)), Budget());
    } else {
      cut := 0;
    }
  }

  // Reading a digest back.

  function IndexOf(text: string, c: char): (i: nat)
    ensures i <= |text| && c !in text[..i] && (i < |text| ==> text[i] == c)
  {
    if text == "" || text[0] == c then 0
    else
      var i := IndexOf(text[1..], c) + 1;
      assert text[..i] == [text[0]] + text[1..][..i - 1];
      i
  }

  function Split(text: string, c: char): (parts: seq<string>)
    ensures parts != [] && forall part <- parts :: c !in part
    decreases |text|
  {
    var i := IndexOf(text, c);
    if i == |text| then assert text[..i] == text; [text] else [text[..i]] + Split(text[i + 1..], c)
  }

  const FRAMING: set<string> := {OPENING, OMITTED, CLOSING}

  function Without(lines: seq<string>, framing: set<string>): (kept: seq<string>)
    ensures forall line <- kept :: line in lines && line !in framing
  {
    if lines == [] then []
    else if lines[0] in framing then Without(lines[1..], framing)
    else [lines[0]] + Without(lines[1..], framing)
  }

  /** The lines of a digest, without the framing that wraps them. */
  function DigestBody(digest: string): seq<string> { Without(Split(digest, '\n'), FRAMING) }

  /** A line a digest can hold and give back. */
  predicate Carriable(line: string) { '\n' !in line && line !in FRAMING }

  predicate AllCarriable(lines: seq<string>) { forall line <- lines :: Carriable(line) }

  lemma {:induction false} SplitUndoesJoined(lines: seq<string>, c: char)
    requires lines != [] && forall line <- lines :: c !in line
    ensures Split(Joined(lines, [c]), c) == lines
  {
    var text := Joined(lines, [c]);
    if |lines| == 1 {
      assert text[..|text|] == lines[0];
      IndexOfFirst(text, c, |text|);
    } else {
      SplitUndoesJoined(lines[1..], c);
      assert text[..|lines[0]|] == lines[0];
      IndexOfFirst(text, c, |lines[0]|);
      assert text[|lines[0]| + 1..] == Joined(lines[1..], [c]);
    }
  }

  lemma IndexOfFirst(text: string, c: char, i: nat)
    requires i <= |text| && c !in text[..i] && (i < |text| ==> text[i] == c)
    ensures IndexOf(text, c) == i
  {
    var j := IndexOf(text, c);
    forall k | 0 <= k < i ensures text[k] != c { assert text[..i][k] == text[k]; }
    forall k | 0 <= k < j ensures text[k] != c { assert text[..j][k] == text[k]; }
  }

  lemma {:induction false} WithoutOfConcat(a: seq<string>, b: seq<string>, framing: set<string>)
    ensures Without(a + b, framing) == Without(a, framing) + Without(b, framing)
  {
    if a == [] {
      assert a + b == b;
    } else {
      WithoutOfConcat(a[1..], b, framing);
      assert (a + b)[1..] == a[1..] + b;
    }
  }

  lemma {:induction false} NothingToDrop(lines: seq<string>, framing: set<string>)
    requires forall line <- lines :: line !in framing
    ensures Without(lines, framing) == lines
  {
    if lines != [] {
      NothingToDrop(lines[1..], framing);
    }
  }

  lemma {:induction false} AllDropped(lines: seq<string>, framing: set<string>)
    requires forall line <- lines :: line in framing
    ensures Without(lines, framing) == []
  {
    if lines != [] {
      AllDropped(lines[1..], framing);
    }
  }

  lemma OpeningIsOneLine()
    ensures '\n' !in OPENING
  {
  }

  lemma ClosingIsOneLine()
    ensures '\n' !in CLOSING
  {
  }

  lemma BodyUndoesAssembled(lines: seq<string>, omitted: bool)
    requires AllCarriable(lines)
    ensures DigestBody(Assembled(lines, omitted)) == lines
  {
    OpeningIsOneLine();
    ClosingIsOneLine();
    var opening, closing := if omitted then [OPENING, OMITTED] else [OPENING], [CLOSING];
    SplitUndoesJoined(opening + lines + closing, '\n');
    WithoutOfConcat(opening + lines, closing, FRAMING);
    WithoutOfConcat(opening, lines, FRAMING);
    NothingToDrop(lines, FRAMING);
    AllDropped(opening, FRAMING);
    AllDropped(closing, FRAMING);
  }

  /** Reading a digest back gives exactly the lines the cap kept. */
  lemma BodyUndoesCapped(lines: seq<string>)
    requires AllCarriable(lines)
    ensures DigestBody(Capped(lines)) == CappedLines(lines) && AllCarriable(CappedLines(lines))
  {
    var cut := CapCutsOnce(lines);
    UsersAreLines(lines[..cut]);
    BodyUndoesAssembled(CappedLines(lines), OverCap(lines));
  }

  predicate OneLine(line: string) { '\n' !in line }

  lemma FramedReads(head: seq<string>, lines: seq<string>, tail: string)
    requires (forall line <- head :: OneLine(line)) && (forall line <- lines :: OneLine(line)) && OneLine(tail)
    ensures Split(Joined(head + lines + [tail], "\n"), '\n') == head + lines + [tail]
  {
    var framed := head + lines + [tail];
    assert forall line <- framed :: line in head || line in lines || line == tail;
    SplitUndoesJoined(framed, '\n');
  }

  lemma HeadIsOneLines(omitted: bool)
    ensures forall line <- (if omitted then [OPENING, OMITTED] else [OPENING]) :: OneLine(line)
    ensures OneLine(CLOSING)
  {
    OpeningIsOneLine();
    ClosingIsOneLine();
  }

  /** A digest reads as its opening, the mark that lines were left out where its lines pass the cap, the lines, and its closing. */
  lemma DigestReads(lines: seq<string>)
    requires AllCarriable(lines)
    ensures var over := |OPENING| + 1 + Cost(lines) + |CLOSING| > DIGEST_CHAR_CAP;
            Split(Capped(lines), '\n') == (if over then [OPENING, OMITTED] else [OPENING]) + CappedLines(lines) + [CLOSING] &&
            (!over ==> CappedLines(lines) == lines)
  {
    WholeLength(lines);
    BodyUndoesCapped(lines);
    var kept := CappedLines(lines);
    forall line <- kept ensures OneLine(line) { assert Carriable(line); }
    HeadIsOneLines(OverCap(lines));
    FramedReads(if OverCap(lines) then [OPENING, OMITTED] else [OPENING], kept, CLOSING);
  }

  lemma WholeLength(lines: seq<string>)
    ensures |Assembled(lines, false)| == |OPENING| + 1 + Cost(lines) + |CLOSING|
  {
    AssembledLength(lines, false);
    JoinedLength([OPENING, CLOSING], "\n");
    assert [OPENING] + [] + [CLOSING] == [OPENING, CLOSING];
    OpeningAndClosing();
  }

  lemma OpeningAndClosing()
    ensures Cost([OPENING, CLOSING]) == |OPENING| + |CLOSING| + 2
  {
    CostOfSnoc([OPENING], CLOSING);
    CostOfSnoc([], OPENING);
    assert [OPENING] + [CLOSING] == [OPENING, CLOSING] && [] + [OPENING] == [OPENING];
  }

  lemma {:induction false} UsersAreLines(lines: seq<string>)
    ensures forall line <- UserLines(lines) :: line in lines
  {
    if lines != [] {
      UsersAreLines(lines[..|lines| - 1]);
    }
  }

  // Generated lines are carriable.

  lemma {:induction false} CollapsedIsOneLine(text: string, gap: bool, started: bool)
    ensures '\n' !in Collapsed(text, gap, started)
  {
    if text != "" {
      CollapsedIsOneLine(text[1..], IsSpace(text[0]), started || !IsSpace(text[0]));
    }
  }

  lemma FlatIsOneLine(text: string, limit: nat)
    ensures '\n' !in Flat(text, limit) && |Flat(text, limit)| <= limit
  {
    CollapsedIsOneLine(text, false, false);
  }

  predicate OneLineResults(results: map<string, string>) {
    forall id <- results :: '\n' !in results[id]
  }

  lemma {:induction false} ResultsOfPartsAreOneLine(parts: seq<ReqPart>)
    ensures OneLineResults(ResultsOfParts(parts))
  {
    if parts != [] {
      ResultsOfPartsAreOneLine(parts[..|parts| - 1]);
      var p := parts[|parts| - 1];
      if p.Return? {
        FlatIsOneLine(Rendered(p.body), RESULT_HEAD_CHARS);
      }
    }
  }

  lemma {:induction false} MiddleResultsAreOneLine(middle: seq<Message>)
    ensures OneLineResults(MiddleResults(middle))
  {
    if middle != [] {
      MiddleResultsAreOneLine(middle[..|middle| - 1]);
      if middle[|middle| - 1].Request? {
        ResultsOfPartsAreOneLine(middle[|middle| - 1].req);
      }
    }
  }

  predicate OneLineTool(p: RespPart) { (p.Call? || p.NativeCall?) ==> '\n' !in p.tool }

  /** No tool of the history has a newline in its name. */
  predicate OneLineTools(middle: seq<Message>) {
    forall m <- middle | m.Response? :: forall p <- m.resp :: OneLineTool(p)
  }

  predicate Bullet(line: string) { |line| > 0 && line[0] == '-' && '\n' !in line }

  lemma BulletIsCarriable(line: string)
    requires Bullet(line)
    ensures Carriable(line)
  {
    assert OPENING[0] == 'E' && OMITTED[0] == '(' && CLOSING[0] == 'T';
  }

  lemma {:induction false} RequestLinesAreBullets(parts: seq<ReqPart>)
    ensures forall line <- RequestLines(parts) :: Bullet(line)
  {
    if parts != [] {
      RequestLinesAreBullets(parts[..|parts| - 1]);
      var p := parts[|parts| - 1];
      if p.UserPrompt? {
        FlatIsOneLine(UserText(p.content), RESULT_HEAD_CHARS);
      }
    }
  }

  lemma CallLineIsBullet(id: string, tool: string, args: string, results: map<string, string>)
    requires OneLineResults(results) && '\n' !in tool
    ensures Bullet(CallLine(id, tool, args, results))
  {
    FlatIsOneLine(args, ARGS_HEAD_CHARS);
  }

  lemma {:induction false} ResponseLinesAreBullets(parts: seq<RespPart>, results: map<string, string>)
    requires OneLineResults(results) && forall p <- parts :: OneLineTool(p)
    ensures forall line <- ResponseLines(parts, results) :: Bullet(line)
  {
    if parts != [] {
      ResponseLinesAreBullets(parts[..|parts| - 1], results);
      var last := parts[|parts| - 1];
      assert OneLineTool(last);
      match last
      case Said(text) => FlatIsOneLine(text, RESULT_HEAD_CHARS);
      case Call(id, tool, args) => CallLineIsBullet(id, tool, args, results);
      case NativeCall(id, tool, args) => CallLineIsBullet(id, tool, args, results);
      case _ =>
    }
  }

  lemma {:induction false} LinesWithAreBullets(middle: seq<Message>, results: map<string, string>)
    requires OneLineResults(results) && OneLineTools(middle)
    ensures forall line <- LinesWith(middle, results) :: Bullet(line)
  {
    if middle != [] {
      LinesWithAreBullets(middle[..|middle| - 1], results);
      match middle[|middle| - 1]
      case Request(parts) => RequestLinesAreBullets(parts);
      case Response(parts) => ResponseLinesAreBullets(parts, results);
    }
  }

  /** Every line a digest adds can be read back from it. */
  lemma {:induction false} DigestLinesAreCarriable(middle: seq<Message>)
    requires OneLineTools(middle)
    ensures AllCarriable(DigestLines(middle))
  {
    MiddleResultsAreOneLine(middle);
    LinesWithAreBullets(middle, MiddleResults(middle));
    forall line <- DigestLines(middle) ensures Carriable(line) { BulletIsCarriable(line); }
  }
}
