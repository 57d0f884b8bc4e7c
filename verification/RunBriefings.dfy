/** The briefing a run's history leaves the model with: every section the run read, in its latest text. */
module RunBriefings {
  import opened Wrappers
  import opened Messages
  import D = Digest
  import B = Briefings
  import opened UpdateTexts
  import opened Compaction
  import opened HistoryPipeline
  import opened StableSections

  // One update, sent as an item and applied to a briefing.

  function ItemOf(u: Update): string {
    match u
    case Now(text) => text
    case Gone(heading) => GoneText(heading)
  }

  function TextOf(u: Update): Text {
    match u
    case Now(text) => Some(text)
    case Gone(_) => None
  }

  function ItemsOfAll(updates: seq<Update>): seq<string> {
    if updates == [] then [] else ItemsOfAll(updates[..|updates| - 1]) + [ItemOf(updates[|updates| - 1])]
  }

  /** An update a run's own sections give: a section's text that holds no separator, or its heading. */
  predicate Proper(u: Update, level: nat, names: iset<string>) {
    match u
    case Now(text) => B.IsSection(text, names) && B.LevelOf(text) == level && Clean(text)
    case Gone(heading) => B.Level(heading) == level > 0 && B.SectionKey(heading) in names && '\n' !in heading
  }

  predicate OneLevel(texts: seq<string>, level: nat, names: iset<string>) {
    B.AreSections(texts, names) && forall text <- texts :: B.LevelOf(text) == level
  }

  /** A briefing of sections: distinct names, one level, and a preamble that holds none of them. */
  predicate Ordered(preamble: string, texts: seq<string>, level: nat, names: iset<string>) {
    B.IsPreamble(preamble, names) && OneLevel(texts, level, names) && B.KeysDiffer(texts)
  }

  function PutAll(texts: seq<string>, updates: seq<Update>): seq<string> {
    if updates == [] then texts
    else
      var u := updates[|updates| - 1];
      B.Put(PutAll(texts, updates[..|updates| - 1]), NameOf(u), TextOf(u))
  }

  lemma ItemIsRead(u: Update, level: nat, names: iset<string>)
    requires Proper(u, level, names)
    ensures ItemOf(u) != "" && ItemOf(u)[0] != '\n' && Clean(ItemOf(u))
    ensures GoneHeading(ItemOf(u)) == match u case Now(_) => None case Gone(heading) => Some(heading)
  {
    match u
    case Now(text) => SectionIsNotGone(text);
    case Gone(heading) => GoneReadsBack(heading);
  }

  lemma AppliedPuts(preamble: string, texts: seq<string>, u: Update, level: nat, names: iset<string>)
    requires Ordered(preamble, texts, level, names) && Proper(u, level, names)
    ensures Applied(B.Laid(preamble, texts), ItemOf(u)) == B.Laid(preamble, B.Put(texts, NameOf(u), TextOf(u)))
    ensures Ordered(preamble, B.Put(texts, NameOf(u), TextOf(u)), level, names)
  {
    ItemIsRead(u, level, names);
    var heading := match u case Now(text) => B.Heading(text) case Gone(heading) => heading;
    assert forall i | 0 <= i < |texts| :: texts[i] in texts;
    B.ReplacedPuts(preamble, texts, heading, TextOf(u), names);
    B.PutChangesOne(texts, NameOf(u), TextOf(u));
  }

  lemma {:induction false} AllAppliedPut(preamble: string, texts: seq<string>, updates: seq<Update>, level: nat, names: iset<string>)
    requires Ordered(preamble, texts, level, names) && forall u <- updates :: Proper(u, level, names)
    ensures AfterItems(B.Laid(preamble, texts), ItemsOfAll(updates)) == B.Laid(preamble, PutAll(texts, updates))
    ensures Ordered(preamble, PutAll(texts, updates), level, names)
  {
    if updates != [] {
      var front, u := updates[..|updates| - 1], updates[|updates| - 1];
      AllAppliedPut(preamble, texts, front, level, names);
      assert u in updates;
      AppliedPuts(preamble, PutAll(texts, front), u, level, names);
      assert (ItemsOfAll(front) + [ItemOf(u)])[..|ItemsOfAll(front)|] == ItemsOfAll(front);
    }
  }

  lemma {:induction false} PutAllConcat(texts: seq<string>, a: seq<Update>, b: seq<Update>)
    ensures PutAll(texts, a + b) == PutAll(PutAll(texts, a), b)
  {
    if b == [] {
      assert a + b == a;
    } else {
      assert (a + b)[..|a + b| - 1] == a + b[..|b| - 1];
      PutAllConcat(texts, a, b[..|b| - 1]);
    }
  }

  // The parts that carry a run's updates.

  /** A part that sends `batch`, the sections one tool changed. */
  ghost predicate Carries(p: ReqPart, batch: seq<Update>) {
    batch != [] && D.UpdateText(p) == [SectionUpdate(ItemsOfAll(batch))]
  }

  /** Parts that send `sent` between them, in order. */
  ghost predicate CarryAll(parts: seq<ReqPart>, sent: seq<Update>) {
    if parts == [] then sent == []
    else exists k: nat :: k <= |sent| && Carries(parts[|parts| - 1], sent[k..]) && CarryAll(parts[..|parts| - 1], sent[..k])
  }

  lemma {:induction false} ItemsAreRead(updates: seq<Update>, level: nat, names: iset<string>)
    requires forall u <- updates :: Proper(u, level, names)
    ensures |ItemsOfAll(updates)| == |updates|
    ensures forall item <- ItemsOfAll(updates) :: item != "" && item[0] != '\n' && Clean(item)
  {
    if updates != [] {
      ItemsAreRead(updates[..|updates| - 1], level, names);
      assert updates[|updates| - 1] in updates;
      ItemIsRead(updates[|updates| - 1], level, names);
    }
  }

  lemma CarriedIsRead(p: ReqPart, batch: seq<Update>, level: nat, names: iset<string>)
    requires Carries(p, batch) && forall u <- batch :: Proper(u, level, names)
    ensures UpdateItems(p) == ItemsOfAll(batch)
  {
    ItemsAreRead(batch, level, names);
    var items := ItemsOfAll(batch);
    assert items[0] in items;
    UpdateReadsBack(items);
  }

  /** The briefing after `parts` lays out the sections after `sent`. */
  ghost predicate LaysOut(preamble: string, texts: seq<string>, parts: seq<ReqPart>, sent: seq<Update>, level: nat, names: iset<string>) {
    && AfterParts(B.Laid(preamble, texts), parts) == B.Laid(preamble, PutAll(texts, sent))
    && Ordered(preamble, PutAll(texts, sent), level, names)
  }

  lemma CarriedPutNext(preamble: string, texts: seq<string>, front: seq<ReqPart>, p: ReqPart, a: seq<Update>, b: seq<Update>,
                       level: nat, names: iset<string>)
    requires LaysOut(preamble, texts, front, a, level, names) && Carries(p, b) && forall u <- b :: Proper(u, level, names)
    ensures LaysOut(preamble, texts, front + [p], a + b, level, names)
  {
    CarriedIsRead(p, b, level, names);
    AllAppliedPut(preamble, PutAll(texts, a), b, level, names);
    PutAllConcat(texts, a, b);
    assert (front + [p])[..|front|] == front;
  }

  lemma CutTogether(sent: seq<Update>, k: nat, level: nat, names: iset<string>)
    requires k <= |sent| && forall u <- sent :: Proper(u, level, names)
    ensures sent[..k] + sent[k..] == sent
    ensures (forall u <- sent[..k] :: Proper(u, level, names)) && forall u <- sent[k..] :: Proper(u, level, names)
  {
  }

  lemma {:induction false} CarriedPut(preamble: string, texts: seq<string>, parts: seq<ReqPart>, sent: seq<Update>,
                                      level: nat, names: iset<string>)
    requires Ordered(preamble, texts, level, names) && CarryAll(parts, sent)
    requires forall u <- sent :: Proper(u, level, names)
    ensures LaysOut(preamble, texts, parts, sent, level, names)
  {
    if parts != [] {
      var front, p := parts[..|parts| - 1], parts[|parts| - 1];
      var k: nat :| k <= |sent| && Carries(p, sent[k..]) && CarryAll(front, sent[..k]);
      CutTogether(sent, k, level, names);
      CarriedPut(preamble, texts, front, sent[..k], level, names);
      CarriedPutNext(preamble, texts, front, p, sent[..k], sent[k..], level, names);
      Whole(parts);
    }
  }

  lemma Whole(parts: seq<ReqPart>)
    requires parts != []
    ensures parts[..|parts| - 1] + [parts[|parts| - 1]] == parts
  {
  }

  // What the run reads and is sent.

  /** Whatever a section renders as, it is a section of the one level, and holds no separator. */
  ghost predicate Renders(e: Event, level: nat, names: iset<string>) {
    match e
    case Reads(_, rendered) => rendered.Some? ==> Proper(Now(rendered.value), level, names)
    case Tools(now) => forall key :: now(key).Some? ==> Proper(Now(now(key).value), level, names)
  }

  predicate TextsProper(texts: map<string, Text>, level: nat, names: iset<string>) {
    forall key <- texts :: texts[key].Some? ==> Proper(Now(texts[key].value), level, names)
  }

  lemma UpdateIsProper(before: Text, now: Text, level: nat, names: iset<string>)
    requires before.Some? ==> Proper(Now(before.value), level, names)
    requires now.Some? ==> Proper(Now(now.value), level, names)
    ensures forall u <- UpdateOf(before, now) :: Proper(u, level, names)
  {
  }

  lemma {:induction false} ChangedAreProper(order: seq<string>, latest: map<string, Text>, now: string -> Text, level: nat, names: iset<string>)
    requires (forall key <- order :: key in latest) && TextsProper(latest, level, names) && Renders(Tools(now), level, names)
    ensures forall u <- Changed(order, latest, now) :: Proper(u, level, names)
  {
    if order != [] {
      var key := order[|order| - 1];
      ChangedAreProper(order[..|order| - 1], latest, now, level, names);
      UpdateIsProper(latest[key], now(key), level, names);
    }
  }

  lemma {:induction false} SentAreProper(events: seq<Event>, level: nat, names: iset<string>)
    requires forall e <- events :: Renders(e, level, names)
    ensures var run := RunOf(events);
            && TextsProper(run.latest, level, names) && TextsProper(run.held, level, names)
            && forall u <- run.sent :: Proper(u, level, names)
    ensures Consistent(RunOf(events))
  {
    if events != [] {
      var front, e := events[..|events| - 1], events[|events| - 1];
      assert e in events;
      SentAreProper(front, level, names);
      var before := RunOf(front);
      if e.Tools? {
        RefreshedHolds(before.order, before.latest, e.now);
        ChangedAreProper(before.order, before.latest, e.now, level, names);
      }
    }
  }

  // The sections the run first read, and those the briefing ends with.

  /** The texts the run's instructions lay out: its sections as first read, in that order. */
  function FirstRead(order: seq<string>, held: map<string, Text>): seq<string>
    requires forall key <- order :: key in held
  {
    if order == [] then [] else FirstRead(order[..|order| - 1], held) + B.Given(held[order[|order| - 1]])
  }

  lemma {:induction false} FindOfConcat(a: seq<string>, b: seq<string>, key: string)
    ensures B.Find(a + b, key) == if B.Find(a, key).Some? then B.Find(a, key) else B.Find(b, key)
  {
    if a == [] {
      assert a + b == b;
    } else {
      assert (a + b)[1..] == a[1..] + b;
      FindOfConcat(a[1..], b, key);
    }
  }

  lemma FindOfOne(text: Text, key: string)
    ensures B.Find(B.Given(text), key) == if text.Some? && B.KeyOf(text.value) == key then text else None
  {
  }

  lemma DiffersThen(texts: seq<string>, text: string)
    requires B.KeysDiffer(texts) && B.Find(texts, B.KeyOf(text)).None?
    ensures B.KeysDiffer(texts + [text])
  {
    B.FindMeans(texts, B.KeyOf(text));
  }

  ghost predicate FindsFirst(order: seq<string>, held: map<string, Text>, name: string -> string)
    requires forall key <- order :: key in held
  {
    && B.KeysDiffer(FirstRead(order, held))
    && (forall key <- held :: B.Find(FirstRead(order, held), name(key)) == if key in order then held[key] else None)
    && forall text <- FirstRead(order, held) :: exists key <- order :: held[key] == Some(text)
  }

  lemma {:induction false} FirstReadHolds(order: seq<string>, held: map<string, Text>, name: string -> string)
    requires Injective(name) && TextsNamed(held, name) && forall key <- order :: key in held
    requires forall i, j | 0 <= i < j < |order| :: order[i] != order[j]
    ensures FindsFirst(order, held, name)
  {
    if order != [] {
      var front, last := order[..|order| - 1], order[|order| - 1];
      FirstReadHolds(front, held, name);
      var texts := FirstRead(front, held);
      forall key <- held
        ensures B.Find(FirstRead(order, held), name(key)) == if key in order then held[key] else None
      {
        FindOfConcat(texts, B.Given(held[last]), name(key));
        FindOfOne(held[last], name(key));
        assert key in order <==> key in front || key == last;
      }
      if held[last].Some? { DiffersThen(texts, held[last].value); }
    }
  }

  /** Applied to sections laid out, updates change what applied by name they change. */
  ghost predicate FindsAsRead(read: map<string, Text>, texts: seq<string>) {
    && B.KeysDiffer(texts)
    && forall key <- read :: B.Find(texts, key) == read[key]
  }

  lemma {:induction false} PutAllFindsAsRead(read: map<string, Text>, texts: seq<string>, updates: seq<Update>)
    requires FindsAsRead(read, texts)
    ensures FindsAsRead(Replayed(read, updates), PutAll(texts, updates))
    ensures forall text <- PutAll(texts, updates) :: text in texts || exists u <- updates :: TextOf(u) == Some(text)
  {
    if updates != [] {
      var front, u := updates[..|updates| - 1], updates[|updates| - 1];
      PutAllFindsAsRead(read, texts, front);
      B.PutChangesOne(PutAll(texts, front), NameOf(u), TextOf(u));
    }
  }

  /** The sections of a run in their latest texts: in the place each was first read, new ones after them. */
  ghost function LatestTexts(run: Run): seq<string>
    requires Consistent(run)
  {
    PutAll(FirstRead(run.order, run.held), run.sent)
  }

  /** `texts` are the run's sections as they now stand, each under its name, and nothing else. */
  ghost predicate AreLatest(texts: seq<string>, latest: map<string, Text>, name: string -> string) {
    && B.KeysDiffer(texts)
    && (forall key <- latest :: B.Find(texts, name(key)) == latest[key])
    && forall text <- texts :: exists key <- latest :: latest[key] == Some(text)
  }

  lemma LatestAreFound(events: seq<Event>, name: string -> string)
    requires Injective(name) && forall e <- events :: Named(e, name)
    ensures var run := RunOf(events);
            && WellNamed(run, name) && FindsFirst(run.order, run.held, name) && B.KeysDiffer(LatestTexts(run))
            && forall key <- run.latest :: B.Find(LatestTexts(run), name(key)) == run.latest[key]
  {
    var run := RunOf(events);
    StaysWellNamed(events, name);
    HeldNamed(events, name);
    var first := FirstRead(run.order, run.held);
    FirstReadHolds(run.order, run.held, name);
    var read := map key <- set k <- run.held :: name(k) :: B.Find(first, key);
    assert ReadsAs(read, run.held, name);
    UpdatesKeepUpToDate(events, name, read);
    PutAllFindsAsRead(read, first, run.sent);
  }

  /** A text comes from a section the run read, or from an update, which names one. */
  lemma TextNamesASection(run: Run, text: string, name: string -> string)
    requires WellNamed(run, name) && FindsFirst(run.order, run.held, name) && TextsNamed(run.held, name)
    requires text in LatestTexts(run)
    ensures exists key <- run.latest :: B.KeyOf(text) == name(key)
  {
    var first := FirstRead(run.order, run.held);
    PutAllFindsAsRead(map[], first, run.sent);
    if text in first {
      var key :| key in run.order && run.held[key] == Some(text);
      assert key in run.latest;
    } else {
      var u :| u in run.sent && TextOf(u) == Some(text);
      assert NameOf(u) == B.KeyOf(text);
    }
  }

  lemma LatestTextsAreLatest(events: seq<Event>, name: string -> string)
    requires Injective(name) && forall e <- events :: Named(e, name)
    ensures Consistent(RunOf(events)) && AreLatest(LatestTexts(RunOf(events)), RunOf(events).latest, name)
  {
    var run := RunOf(events);
    LatestAreFound(events, name);
    HeldNamed(events, name);
    var texts := LatestTexts(run);
    forall text <- texts ensures exists key <- run.latest :: run.latest[key] == Some(text) {
      TextNamesASection(run, text, name);
      FoundInPlace(texts, text);
    }
  }

  lemma {:induction false} FoundInPlace(texts: seq<string>, text: string)
    requires B.KeysDiffer(texts) && text in texts
    ensures B.Find(texts, B.KeyOf(text)) == Some(text)
  {
    B.DiffersFromRest(texts);
    if text != texts[0] { FoundInPlace(texts[1..], text); }
  }

  lemma {:induction false} HeldNamed(events: seq<Event>, name: string -> string)
    requires forall e <- events :: Named(e, name)
    ensures TextsNamed(RunOf(events).held, name)
  {
    if events != [] {
      HeldNamed(events[..|events| - 1], name);
      assert events[|events| - 1] in events;
    }
  }

  lemma {:induction false} FirstReadAreSections(order: seq<string>, held: map<string, Text>, level: nat, names: iset<string>)
    requires (forall key <- order :: key in held) && TextsProper(held, level, names)
    ensures OneLevel(FirstRead(order, held), level, names)
  {
    if order != [] {
      FirstReadAreSections(order[..|order| - 1], held, level, names);
    }
  }

  /** Whatever a run reads and however its sections change, a history that carries the updates it was sent
      leaves the model with a briefing of every section in its latest text, and none that is gone; and so does
      that history paired, elided and compacted. */
  lemma BriefingIsUpToDate(events: seq<Event>, name: string -> string, preamble: string, ms: seq<Message>,
                           level: nat, names: iset<string>)
    requires Injective(name) && forall e <- events :: Named(e, name) && Renders(e, level, names)
    requires B.IsPreamble(preamble, names) && CarryAll(SectionUpdates(ms), RunOf(events).sent)
    ensures var run := RunOf(events);
            && Consistent(run) && AreLatest(LatestTexts(run), run.latest, name)
            && var instructions := B.Laid(preamble, FirstRead(run.order, run.held));
               Briefing(instructions, ms) == B.Laid(preamble, LatestTexts(run)) == Briefing(instructions, Processed(ms))
  {
    var run := RunOf(events);
    LatestTextsAreLatest(events, name);
    SentAreProper(events, level, names);
    HeldNamed(events, name);
    FirstReadHolds(run.order, run.held, name);
    FirstReadAreSections(run.order, run.held, level, names);
    var first := FirstRead(run.order, run.held);
    CarriedPut(preamble, first, SectionUpdates(ms), run.sent, level, names);
    BriefingFromUpdates(B.Laid(preamble, first), ms);
    ProcessingKeepsTheBriefing(B.Laid(preamble, first), ms);
  }
}
