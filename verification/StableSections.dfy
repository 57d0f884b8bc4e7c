/** A run's instruction sections, held to the text the run first read, and the updates sent after its tools. */
module StableSections {
  import opened Wrappers
  import B = Briefings

  /** What a section renders as, if it renders at all. */
  type Text = Option<string>

  /** An update as it is sent: a section's whole text, or that the section of a heading is gone. */
  datatype Update = Now(text: string) | Gone(heading: string)

  /** A run's sections in the order it first read them, and every update it was sent. */
  datatype Run = Run(order: seq<string>, held: map<string, Text>, latest: map<string, Text>, sent: seq<Update>)

  function UpdateOf(before: Text, now: Text): seq<Update> {
    if now == before then []
    else if now.Some? then [Now(now.value)]
    else [Gone(B.Heading(before.value))]
  }

  /** The updates of the sections that changed, in order. */
  function Changed(order: seq<string>, latest: map<string, Text>, now: string -> Text): seq<Update>
    requires forall key <- order :: key in latest
  {
    if order == [] then []
    else
      var key := order[|order| - 1];
      Changed(order[..|order| - 1], latest, now) + UpdateOf(latest[key], now(key))
  }

  function Refreshed(order: seq<string>, latest: map<string, Text>, now: string -> Text): map<string, Text> {
    if order == [] then latest
    else Refreshed(order[..|order| - 1], latest, now)[order[|order| - 1] := now(order[|order| - 1])]
  }

  function AfterRead(run: Run, key: string, rendered: Text): Run {
    if key in run.held then run
    else run.(order := run.order + [key], held := run.held[key := rendered], latest := run.latest[key := rendered])
  }

  predicate Consistent(run: Run) {
    && run.held.Keys == run.latest.Keys && (forall key <- run.held :: key in run.order) &&
       (forall key <- run.order :: key in run.held)
    && forall i, j | 0 <= i < j < |run.order| :: run.order[i] != run.order[j]
  }

  function AfterTool(run: Run, now: string -> Text): Run
    requires Consistent(run)
  {
    run.(latest := Refreshed(run.order, run.latest, now), sent := run.sent + Changed(run.order, run.latest, now))
  }

  class RunSections {
    var order: seq<string>
    var held: map<string, Text>
    var latest: map<string, Text>
    ghost var sent: seq<Update>

    ghost predicate Valid()
      reads this
    {
      Consistent(State())
    }

    ghost function State(): Run
      reads this
    {
      Run(order, held, latest, sent)
    }

    constructor ()
      ensures Valid() && State() == Run([], map[], map[], [])
    {
      order, held, latest, sent := [], map[], map[], [];
    }

    method Read(key: string, rendered: Text) returns (text: Text)
      requires Valid()
      modifies this
      ensures Valid() && State() == AfterRead(old(State()), key, rendered)
      ensures key in held && text == held[key] == if key in old(held) then old(held)[key] else rendered
    {
      if key !in held {
        order := order + [key];
        held, latest := held[key := rendered], latest[key := rendered];
      }
      text := held[key];
    }

    method AfterToolExecute(now: string -> Text) returns (changed: seq<Update>)
      requires Valid()
      modifies this`latest, this`sent
      ensures Valid() && State() == AfterTool(old(State()), now)
      ensures sent == old(sent) + changed
    {
      RefreshedHolds(order, latest, now);
      changed, latest := ChangedSections(order, latest, now);
      sent := sent + changed;
    }
  }

  method ChangedSections(order: seq<string>, latest: map<string, Text>, now: string -> Text)
      returns (changed: seq<Update>, refreshed: map<string, Text>)
    requires (forall key <- order :: key in latest) && forall i, j | 0 <= i < j < |order| :: order[i] != order[j]
    ensures changed == Changed(order, latest, now) && refreshed == Refreshed(order, latest, now)
  {
    changed, refreshed := [], latest;
    for i := 0 to |order|
      invariant refreshed == Refreshed(order[..i], latest, now) && changed == Changed(order[..i], latest, now)
    {
      var key := order[i];
      ChangedNext(order, latest, now, i);
      assert key !in order[..i];
      RefreshedHolds(order[..i], latest, now);
      var rendered := now(key);
      if rendered == refreshed[key] {
        assert refreshed[key := rendered] == refreshed;
        continue;
      }
      changed := changed + UpdateOf(refreshed[key], rendered);
      refreshed := refreshed[key := rendered];
    }
    assert order[..|order|] == order;
  }

  lemma ChangedNext(order: seq<string>, latest: map<string, Text>, now: string -> Text, i: nat)
    requires (forall key <- order :: key in latest) && i < |order|
    ensures Changed(order[..i + 1], latest, now) == Changed(order[..i], latest, now) + UpdateOf(latest[order[i]], now(order[i]))
    ensures Refreshed(order[..i + 1], latest, now) == Refreshed(order[..i], latest, now)[order[i] := now(order[i])]
  {
    assert order[..i + 1][..i] == order[..i];
  }

  lemma {:induction false} RefreshedHolds(order: seq<string>, latest: map<string, Text>, now: string -> Text)
    requires forall key <- order :: key in latest
    ensures var after := Refreshed(order, latest, now);
            after.Keys == latest.Keys && forall key <- latest :: after[key] == if key in order then now(key) else latest[key]
  {
    if order != [] {
      RefreshedHolds(order[..|order| - 1], latest, now);
    }
  }

  /** The sections that render as something else now, in the order they were read. */
  function Moved(order: seq<string>, latest: map<string, Text>, now: string -> Text): (moved: seq<string>)
    requires forall key <- order :: key in latest
    ensures forall key <- moved :: key in latest
  {
    if order == [] then []
    else
      var key := order[|order| - 1];
      Moved(order[..|order| - 1], latest, now) + if now(key) != latest[key] then [key] else []
  }

  /** What is sent for a section: its whole text, or its last heading where it renders as nothing. */
  predicate Sends(u: Update, before: Text, now: Text) {
    if now.Some? then u == Now(now.value) else before.Some? && u == Gone(B.Heading(before.value))
  }

  /** One update is sent for each section that changed, in order, and none for any other. */
  lemma {:induction false} ChangedAreSent(order: seq<string>, latest: map<string, Text>, now: string -> Text)
    requires forall key <- order :: key in latest
    ensures var sent, moved := Changed(order, latest, now), Moved(order, latest, now);
            |sent| == |moved| && forall k | 0 <= k < |sent| :: Sends(sent[k], latest[moved[k]], now(moved[k]))
  {
    if order != [] {
      ChangedAreSent(order[..|order| - 1], latest, now);
    }
  }

  // What the model has read.

  /** A reader's sections by name, each with its latest text. */
  function Replayed(read: map<string, Text>, updates: seq<Update>): map<string, Text> {
    if updates == [] then read
    else
      var before := Replayed(read, updates[..|updates| - 1]);
      match updates[|updates| - 1]
      case Now(text) => before[B.KeyOf(text) := Some(text)]
      case Gone(heading) => before[B.SectionKey(heading) := None]
  }

  /** What happens in a run: a section is read as it renders, or a tool was called and sections render anew. */
  datatype Event = Reads(key: string, rendered: Text) | Tools(now: string -> Text)

  function After(run: Run, e: Event): Run {
    match e
    case Reads(key, rendered) => AfterRead(run, key, rendered)
    case Tools(now) => if Consistent(run) then AfterTool(run, now) else run
  }

  function RunOf(events: seq<Event>): Run {
    if events == [] then Run([], map[], map[], []) else After(RunOf(events[..|events| - 1]), events[|events| - 1])
  }

  /** Every section keeps its name, whatever it renders as and its heading counts. */
  ghost predicate Named(e: Event, name: string -> string) {
    match e
    case Reads(key, rendered) => rendered.Some? ==> B.KeyOf(rendered.value) == name(key)
    case Tools(now) => forall key :: now(key).Some? ==> B.KeyOf(now(key).value) == name(key)
  }

  ghost predicate Injective(name: string -> string) { forall a, b :: name(a) == name(b) ==> a == b }

  /** What the model was first given, by name. */
  ghost predicate ReadsAs(read: map<string, Text>, texts: map<string, Text>, name: string -> string) {
    forall key <- texts :: name(key) in read && read[name(key)] == texts[key]
  }

  ghost predicate TextsNamed(texts: map<string, Text>, name: string -> string) {
    forall key <- texts :: texts[key].Some? ==> B.KeyOf(texts[key].value) == name(key)
  }

  lemma {:induction false} ReplayedConcat(read: map<string, Text>, a: seq<Update>, b: seq<Update>)
    ensures Replayed(read, a + b) == Replayed(Replayed(read, a), b)
  {
    if b == [] {
      assert a + b == a;
    } else {
      assert (a + b)[..|a + b| - 1] == a + b[..|b| - 1];
      ReplayedConcat(read, a, b[..|b| - 1]);
    }
  }

  /** One section's update, or none where it did not change. */
  lemma UpdateBrings(read: map<string, Text>, latest: map<string, Text>, key: string, now: Text, name: string -> string)
    requires Injective(name) && key in latest && TextsNamed(latest, name) && ReadsAs(read, latest, name)
    requires now.Some? ==> B.KeyOf(now.value) == name(key)
    ensures ReadsAs(Replayed(read, UpdateOf(latest[key], now)), latest[key := now], name)
    ensures TextsNamed(latest[key := now], name)
  {
    var updates := UpdateOf(latest[key], now);
    if updates != [] {
      assert updates[..0] == [] && Replayed(read, updates) == read[name(key) := now];
    }
  }

  /** One tool's updates bring a reader that was up to date up to date again. */
  lemma {:induction false} UpdatesBringUpToDate(read: map<string, Text>, order: seq<string>, latest: map<string, Text>,
                                                now: string -> Text, name: string -> string)
    requires Injective(name) && (forall key <- order :: key in latest) && Named(Tools(now), name) && TextsNamed(latest, name)
    requires (forall i, j | 0 <= i < j < |order| :: order[i] != order[j]) && ReadsAs(read, latest, name)
    ensures ReadsAs(Replayed(read, Changed(order, latest, now)), Refreshed(order, latest, now), name)
    ensures TextsNamed(Refreshed(order, latest, now), name)
  {
    if order != [] {
      var front, key := order[..|order| - 1], order[|order| - 1];
      var changed, refreshed := Changed(front, latest, now), Refreshed(front, latest, now);
      UpdatesBringUpToDate(read, front, latest, now, name);
      assert key in refreshed && refreshed[key] == latest[key] by { RefreshedHolds(front, latest, now); }
      UpdateBrings(Replayed(read, changed), refreshed, key, now(key), name);
      ReplayedConcat(read, changed, UpdateOf(latest[key], now(key)));
    }
  }

  /** The section an update names. */
  function NameOf(u: Update): string {
    match u
    case Now(text) => B.KeyOf(text)
    case Gone(heading) => B.SectionKey(heading)
  }

  /** Every update names a section of `texts`. */
  ghost predicate SentFor(sent: seq<Update>, texts: map<string, Text>, name: string -> string) {
    forall u <- sent :: exists key <- texts :: NameOf(u) == name(key)
  }

  lemma {:induction false} ChangedAreRead(order: seq<string>, latest: map<string, Text>, now: string -> Text, name: string -> string)
    requires (forall key <- order :: key in latest) && Named(Tools(now), name) && TextsNamed(latest, name)
    ensures SentFor(Changed(order, latest, now), latest, name)
  {
    if order != [] {
      ChangedAreRead(order[..|order| - 1], latest, now, name);
      var key := order[|order| - 1];
      assert forall u <- UpdateOf(latest[key], now(key)) :: NameOf(u) == name(key);
    }
  }

  lemma {:induction false} Untouched(read: map<string, Text>, updates: seq<Update>, name: string)
    requires name in read && forall u <- updates :: NameOf(u) != name
    ensures name in Replayed(read, updates) && Replayed(read, updates)[name] == read[name]
  {
    if updates != [] {
      Untouched(read, updates[..|updates| - 1], name);
      assert updates[|updates| - 1] in updates;
    }
  }

  /** What a run keeps of its sections, their names and the updates it was sent. */
  ghost predicate WellNamed(run: Run, name: string -> string) {
    Consistent(run) && TextsNamed(run.latest, name) && SentFor(run.sent, run.latest, name)
  }

  lemma {:induction false} StaysWellNamed(events: seq<Event>, name: string -> string)
    requires forall e <- events :: Named(e, name)
    ensures WellNamed(RunOf(events), name)
  {
    if events != [] {
      var front, e := events[..|events| - 1], events[|events| - 1];
      assert e in events;
      StaysWellNamed(front, name);
      var before := RunOf(front);
      if e.Tools? {
        RefreshedHolds(before.order, before.latest, e.now);
        ChangedAreRead(before.order, before.latest, e.now, name);
      }
    }
  }

  lemma ReadingIsUpToDate(run: Run, key: string, rendered: Text, name: string -> string, read: map<string, Text>)
    requires WellNamed(run, name) && Injective(name) && key !in run.held
    requires ReadsAs(read, AfterRead(run, key, rendered).held, name) && ReadsAs(Replayed(read, run.sent), run.latest, name)
    ensures ReadsAs(Replayed(read, run.sent), AfterRead(run, key, rendered).latest, name)
  {
    var held := AfterRead(run, key, rendered).held;
    assert key in held && held[key] == rendered;
    forall u <- run.sent ensures NameOf(u) != name(key) {
      var other :| other in run.latest && NameOf(u) == name(other);
    }
    Untouched(read, run.sent, name(key));
  }

  /** Whatever a run reads and however its sections change, the texts it first read, with every update it was
      sent applied by name, are the sections' latest texts. */
  lemma {:induction false} UpdatesKeepUpToDate(events: seq<Event>, name: string -> string, read: map<string, Text>)
    requires Injective(name) && forall e <- events :: Named(e, name)
    requires ReadsAs(read, RunOf(events).held, name)
    ensures ReadsAs(Replayed(read, RunOf(events).sent), RunOf(events).latest, name)
  {
    if events != [] {
      var front, e := events[..|events| - 1], events[|events| - 1];
      var before := RunOf(front);
      assert e in events;
      StaysWellNamed(front, name);
      assert ReadsAs(read, before.held, name) by {
        forall key <- before.held ensures key in RunOf(events).held && RunOf(events).held[key] == before.held[key] { }
      }
      UpdatesKeepUpToDate(front, name, read);
      match e
      case Reads(key, rendered) =>
        if key !in before.held {
          ReadingIsUpToDate(before, key, rendered, name, read);
        }
      case Tools(now) =>
        UpdatesBringUpToDate(Replayed(read, before.sent), before.order, before.latest, now, name);
        ReplayedConcat(read, before.sent, Changed(before.order, before.latest, now));
    }
  }

  /** A section a run has read keeps the text it first had, however often it is read again. */
  lemma {:induction false} HeldNeverChanges(before: seq<Event>, after: seq<Event>, key: string)
    requires key in RunOf(before).held
    ensures key in RunOf(before + after).held && RunOf(before + after).held[key] == RunOf(before).held[key]
  {
    if after == [] {
      assert before + after == before;
    } else {
      assert (before + after)[..|before + after| - 1] == before + after[..|after| - 1];
      HeldNeverChanges(before, after[..|after| - 1], key);
    }
  }
}
