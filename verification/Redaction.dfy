/** Keeping credentials out of a report: whole ones, and every run of one long enough to be it. */
module Redaction {

  const REDACTED := "<redacted>"
  const RUN_MINIMUM := 16

  predicate At(w: string, s: string, i: nat) { i + |w| <= |s| && s[i..i + |w|] == w }

  predicate Occurs(w: string, s: string) { exists i: nat | i <= |s| :: At(w, s, i) }

  // What the passes compute.

  /** Every occurrence of a non-empty `value` replaced, left to right. */
  function ReplacedFrom(text: string, value: string, read: nat): string
    requires read <= |text| && value != ""
    decreases |text| - read
  {
    if read == |text| then ""
    else if At(value, text, read) then REDACTED + ReplacedFrom(text, value, read + |value|)
    else [text[read]] + ReplacedFrom(text, value, read + 1)
  }

  /** A marker before every character and one at the end: where the empty text is found. */
  function Marked(text: string): string {
    if text == "" then REDACTED else REDACTED + [text[0]] + Marked(text[1..])
  }

  function Replaced(text: string, value: string): string {
    if value == "" then Marked(text) else ReplacedFrom(text, value, 0)
  }

  predicate RunAt(text: string, value: string, read: nat) {
    read + RUN_MINIMUM <= |text| && Occurs(text[read..read + RUN_MINIMUM], value)
  }

  /** Where the run that starts at `read` stops being part of the value. */
  function RunEnd(text: string, value: string, read: nat, end: nat): (stop: nat)
    requires read <= end <= |text|
    ensures end <= stop <= |text|
    decreases |text| - end
  {
    if end < |text| && Occurs(text[read..end + 1], value) then RunEnd(text, value, read, end + 1) else end
  }

  function WithoutRunsFrom(text: string, value: string, read: nat): string
    requires read <= |text|
    decreases |text| - read
  {
    if read == |text| then ""
    else if RunAt(text, value, read)
    then REDACTED + WithoutRunsFrom(text, value, RunEnd(text, value, read, read + RUN_MINIMUM))
    else [text[read]] + WithoutRunsFrom(text, value, read + 1)
  }

  function Redacted(text: string, credentials: seq<string>): string {
    if credentials == [] then text
    else
      var before, value := Redacted(text, credentials[..|credentials| - 1]), credentials[|credentials| - 1];
      WithoutRunsFrom(Replaced(before, value), value, 0)
  }

  function Window(value: string, i: nat): string
    requires i + RUN_MINIMUM <= |value|
  {
    value[i..i + RUN_MINIMUM]
  }

  function Windows(value: string): set<string> {
    set i | 0 <= i <= |value| - RUN_MINIMUM :: Window(value, i)
  }

  lemma InWindows(w: string, value: string)
    ensures w in Windows(value) <==> |w| == RUN_MINIMUM && Occurs(w, value)
  {
    if |w| == RUN_MINIMUM && Occurs(w, value) {
      var i: nat :| i <= |value| && At(w, value, i);
      assert Window(value, i) == w;
    }
    if w in Windows(value) {
      var i :| 0 <= i <= |value| - RUN_MINIMUM && w == Window(value, i);
      assert At(w, value, i);
    }
  }

  lemma RunInWindows(text: string, value: string, read: nat)
    requires read < |text|
    ensures RunAt(text, value, read) <==>
            (if read + RUN_MINIMUM <= |text| then text[read..read + RUN_MINIMUM] else text[read..]) in Windows(value)
  {
    InWindows(if read + RUN_MINIMUM <= |text| then text[read..read + RUN_MINIMUM] else text[read..], value);
  }

  lemma Regrouped(a: string, b: string, c: string)
    ensures (a + b) + c == a + (b + c)
  {
  }

  lemma Unfolded(text: string, value: string, read: nat)
    requires read < |text|
    ensures WithoutRunsFrom(text, value, read) ==
            if RunAt(text, value, read)
            then REDACTED + WithoutRunsFrom(text, value, RunEnd(text, value, read, read + RUN_MINIMUM))
            else [text[read]] + WithoutRunsFrom(text, value, read + 1)
  {
  }

  method WithoutRuns(text: string, value: string) returns (result: string)
    ensures result == WithoutRunsFrom(text, value, 0)
  {
    var windows := Windows(value);
    result := "";
    var read := 0;
    while read < |text|
      invariant read <= |text|
      invariant WithoutRunsFrom(text, value, 0) == result + WithoutRunsFrom(text, value, read)
    {
      var window := if read + RUN_MINIMUM <= |text| then text[read..read + RUN_MINIMUM] else text[read..];
      RunInWindows(text, value, read);
      Unfolded(text, value, read);
      if window !in windows {
        Regrouped(result, [text[read]], WithoutRunsFrom(text, value, read + 1));
        result := result + [text[read]];
        read := read + 1;
        continue;
      }
      var end := EndOfRun(text, value, read);
      Regrouped(result, REDACTED, WithoutRunsFrom(text, value, end));
      result := result + REDACTED;
      read := end;
    }
  }

  method EndOfRun(text: string, value: string, read: nat) returns (end: nat)
    requires read + RUN_MINIMUM <= |text|
    ensures end == RunEnd(text, value, read, read + RUN_MINIMUM)
  {
    end := read + RUN_MINIMUM;
    while end < |text| && Occurs(text[read..end + 1], value)
      invariant read + RUN_MINIMUM <= end <= |text|
      invariant RunEnd(text, value, read, read + RUN_MINIMUM) == RunEnd(text, value, read, end)
    {
      end := end + 1;
    }
  }

  method Redact(text: string, credentials: seq<string>) returns (result: string)
    ensures result == Redacted(text, credentials)
  {
    result := text;
    for i := 0 to |credentials|
      invariant result == Redacted(text, credentials[..i])
    {
      assert credentials[..i + 1][..i] == credentials[..i];
      result := WithoutRuns(Replaced(result, credentials[i]), credentials[i]);
    }
    assert credentials[..|credentials|] == credentials;
  }

  // What survives.

  /** `w` could be read across the marker: some way of laying one over the other agrees wherever they meet. */
  predicate Touches(w: string) {
    exists p | -|REDACTED| < p < |w| :: Overlaps(w, p)
  }

  /** `w` agrees with a marker that starts `p` characters after it does. */
  predicate Overlaps(w: string, p: int) {
    forall i | 0 <= i < |w| && 0 <= i - p < |REDACTED| :: w[i] == REDACTED[i - p]
  }

  /** What comes of a text by putting markers for some of it. */
  datatype Piece = Kept(c: char) | Cut(taken: string)

  function Original(pieces: seq<Piece>): string {
    if pieces == [] then ""
    else (match pieces[0] case Kept(c) => [c] case Cut(taken) => taken) + Original(pieces[1..])
  }

  function Rendered(pieces: seq<Piece>): string {
    if pieces == [] then ""
    else (match pieces[0] case Kept(c) => [c] case Cut(_) => REDACTED) + Rendered(pieces[1..])
  }

  /** Where `w` is read off the pieces without touching a marker, it was in the text there. */
  lemma {:induction false} KeptPrefix(pieces: seq<Piece>, w: string)
    requires At(w, Rendered(pieces), 0) && forall p | 0 <= p < |w| :: !Overlaps(w, p)
    ensures |w| <= |pieces| && forall i | 0 <= i < |w| :: pieces[i] == Kept(w[i])
  {
    if w != "" {
      var rest := Rendered(pieces[1..]);
      match pieces[0]
      case Kept(c) =>
        assert Rendered(pieces)[0] == c && Rendered(pieces)[1..] == rest;
        assert At(w[1..], rest, 0) by { assert Rendered(pieces)[..|w|][1..] == rest[..|w| - 1]; }
        forall p | 0 <= p < |w[1..]| ensures !Overlaps(w[1..], p) { ShiftedOverlap(w, p + 1); }
        KeptPrefix(pieces[1..], w[1..]);
      case Cut(_) =>
        forall i | 0 <= i < |w| && 0 <= i - 0 < |REDACTED| ensures w[i] == REDACTED[i] {
          assert Rendered(pieces)[i] == REDACTED[i] && Rendered(pieces)[..|w|][i] == w[i];
        }
        assert Overlaps(w, 0);
    }
  }

  lemma ShiftedOverlap(w: string, p: int)
    requires w != "" && p > 0
    ensures Overlaps(w[1..], p - 1) ==> Overlaps(w, p)
  {
    if Overlaps(w[1..], p - 1) {
      forall i | 0 <= i < |w| && 0 <= i - p < |REDACTED| ensures w[i] == REDACTED[i - p] {
        assert w[1..][i - 1] == REDACTED[(i - 1) - (p - 1)];
      }
    }
  }

  /** A run of pieces that were all kept. */
  predicate KeptAt(pieces: seq<Piece>, w: string, i: nat) {
    i + |w| <= |pieces| && forall k | 0 <= k < |w| :: pieces[i + k] == Kept(w[k])
  }

  lemma SliceAfter(a: string, b: string, i: nat, n: nat)
    requires i + n <= |b|
    ensures (a + b)[|a| + i..|a| + i + n] == b[i..i + n]
  {
    var left, right := (a + b)[|a| + i..|a| + i + n], b[i..i + n];
    forall k | 0 <= k < n ensures left[k] == right[k] {
      assert (a + b)[|a| + i + k] == b[i + k];
    }
  }

  lemma StartsInMarker(rest: string, w: string, at: nat)
    requires At(w, REDACTED + rest, at) && 0 < at < |REDACTED| && w != ""
    ensures Touches(w)
  {
    var text, p: int := REDACTED + rest, 0 - at as int;
    forall k | 0 <= k < |w| && 0 <= k - p < |REDACTED| ensures w[k] == REDACTED[k - p] {
      assert text[at..at + |w|][k] == text[at + k];
    }
    assert Overlaps(w, p);
  }

  /** So a run that touches no marker can only be read where every piece of it was kept. */
  lemma {:induction false} ReadWhereKept(pieces: seq<Piece>, w: string, at: nat) returns (i: nat)
    requires At(w, Rendered(pieces), at) && !Touches(w) && w != ""
    ensures KeptAt(pieces, w, i)
  {
    if at == 0 {
      KeptPrefix(pieces, w);
      i := 0;
    } else {
      var first := match pieces[0] case Kept(c) => [c] case Cut(_) => REDACTED;
      var rest := Rendered(pieces[1..]);
      assert Rendered(pieces) == first + rest;
      if at < |first| {
        StartsInMarker(rest, w, at);
        assert false;
      }
      SliceAfter(first, rest, at - |first|, |w|);
      var j := ReadWhereKept(pieces[1..], w, at - |first|);
      i := j + 1;
    }
  }

  /** Kept pieces were in the text, in a row. */
  lemma {:induction false} KeptWasThere(pieces: seq<Piece>, w: string, i: nat) returns (at: nat)
    requires KeptAt(pieces, w, i)
    ensures At(w, Original(pieces), at)
  {
    if i == 0 {
      KeptStart(pieces, w);
      at := 0;
    } else {
      var first := match pieces[0] case Kept(c) => [c] case Cut(taken) => taken;
      forall k | 0 <= k < |w| ensures pieces[1..][i - 1 + k] == Kept(w[k]) { assert pieces[i + k] == Kept(w[k]); }
      var j := KeptWasThere(pieces[1..], w, i - 1);
      at := |first| + j;
      assert Original(pieces)[at..at + |w|] == Original(pieces[1..])[j..j + |w|];
    }
  }

  lemma {:induction false} KeptStart(pieces: seq<Piece>, w: string)
    requires KeptAt(pieces, w, 0)
    ensures At(w, Original(pieces), 0)
  {
    if w != "" {
      forall k | 0 <= k < |w[1..]| ensures pieces[1..][0 + k] == Kept(w[1..][k]) { assert pieces[0 + (k + 1)] == Kept(w[k + 1]); }
      KeptStart(pieces[1..], w[1..]);
      assert pieces[0 + 0] == Kept(w[0]);
      assert w == [w[0]] + w[1..];
    }
  }

  // What each pass is, in pieces.

  function ReplacedPieces(text: string, value: string, read: nat): (pieces: seq<Piece>)
    requires read <= |text| && value != ""
    ensures Rendered(pieces) == ReplacedFrom(text, value, read) && Original(pieces) == text[read..]
    ensures forall p <- pieces :: p.Cut? ==> p.taken == value
    decreases |text| - read
  {
    if read == |text| then []
    else if At(value, text, read) then [Cut(value)] + ReplacedPieces(text, value, read + |value|)
    else [Kept(text[read])] + ReplacedPieces(text, value, read + 1)
  }

  function MarkedPieces(text: string): (pieces: seq<Piece>)
    ensures Rendered(pieces) == Marked(text) && Original(pieces) == text
    ensures forall p <- pieces :: p.Cut? ==> p.taken == ""
  {
    if text == "" then [Cut("")]
    else
      var more := [Kept(text[0])] + MarkedPieces(text[1..]);
      assert Rendered(more) == [text[0]] + Marked(text[1..]) && Original(more) == text;
      assert Rendered([Cut("")] + more) == REDACTED + Rendered(more);
      [Cut("")] + more
  }

  function WithoutRunsPieces(text: string, value: string, read: nat): (pieces: seq<Piece>)
    requires read <= |text|
    ensures Rendered(pieces) == WithoutRunsFrom(text, value, read) && Original(pieces) == text[read..]
    decreases |text| - read
  {
    if read == |text| then []
    else if RunAt(text, value, read) then
      var end := RunEnd(text, value, read, read + RUN_MINIMUM);
      [Cut(text[read..end])] + WithoutRunsPieces(text, value, end)
    else [Kept(text[read])] + WithoutRunsPieces(text, value, read + 1)
  }

  lemma {:induction false} RunEndIsRun(text: string, value: string, read: nat, end: nat)
    requires read <= end <= |text| && Occurs(text[read..end], value)
    ensures Occurs(text[read..RunEnd(text, value, read, end)], value)
    ensures var stop := RunEnd(text, value, read, end); stop < |text| ==> !Occurs(text[read..stop + 1], value)
    decreases |text| - end
  {
    if end < |text| && Occurs(text[read..end + 1], value) {
      RunEndIsRun(text, value, read, end + 1);
    }
  }

  /** Only runs of the value are cut out, and each is at least as long as the floor. */
  lemma {:induction false} CutsAreRuns(text: string, value: string, read: nat)
    requires read <= |text|
    ensures forall p <- WithoutRunsPieces(text, value, read) :: p.Cut? ==> |p.taken| >= RUN_MINIMUM && Occurs(p.taken, value)
    decreases |text| - read
  {
    if read < |text| {
      if RunAt(text, value, read) {
        RunEndIsRun(text, value, read, read + RUN_MINIMUM);
        CutsAreRuns(text, value, RunEnd(text, value, read, read + RUN_MINIMUM));
      } else {
        CutsAreRuns(text, value, read + 1);
      }
    }
  }

  lemma KeptMeansThere(text: string, value: string, read: nat, w: string)
    requires read <= |text| && |w| == RUN_MINIMUM && KeptAt(WithoutRunsPieces(text, value, read), w, 0)
    ensures read + RUN_MINIMUM <= |text| && text[read..read + RUN_MINIMUM] == w && !RunAt(text, value, read)
  {
    var pieces := WithoutRunsPieces(text, value, read);
    KeptStart(pieces, w);
    assert pieces[0 + 0] == Kept(w[0]);
    assert text[read..][0..RUN_MINIMUM] == text[read..read + RUN_MINIMUM];
  }

  /** No run at the floor length is kept whole. */
  lemma {:induction false} NoRunIsKept(text: string, value: string, read: nat, w: string, i: nat)
    requires read <= |text| && |w| == RUN_MINIMUM && Occurs(w, value)
    ensures !KeptAt(WithoutRunsPieces(text, value, read), w, i)
    decreases |text| - read
  {
    var pieces := WithoutRunsPieces(text, value, read);
    if KeptAt(pieces, w, i) {
      if i == 0 {
        KeptMeansThere(text, value, read, w);
      } else {
        var next := if RunAt(text, value, read) then RunEnd(text, value, read, read + RUN_MINIMUM) else read + 1;
        var rest := WithoutRunsPieces(text, value, next);
        assert pieces[1..] == rest;
        forall k | 0 <= k < |w| ensures rest[i - 1 + k] == Kept(w[k]) { assert pieces[i + k] == Kept(w[k]); }
        NoRunIsKept(text, value, next, w, i - 1);
      }
    }
  }

  lemma ReadFromPieces(pieces: seq<Piece>, w: string)
    requires w != "" && !Touches(w) && Occurs(w, Rendered(pieces))
    ensures Occurs(w, Original(pieces)) && exists i: nat :: KeptAt(pieces, w, i)
  {
    var at: nat :| at <= |Rendered(pieces)| && At(w, Rendered(pieces), at);
    var i := ReadWhereKept(pieces, w, at);
    var there := KeptWasThere(pieces, w, i);
    assert At(w, Original(pieces), there);
  }

  lemma ReadAfterReplacing(text: string, value: string, w: string)
    requires w != "" && !Touches(w) && Occurs(w, Replaced(text, value))
    ensures Occurs(w, text)
  {
    if value == "" {
      ReadFromPieces(MarkedPieces(text), w);
    } else {
      ReadFromPieces(ReplacedPieces(text, value, 0), w);
      assert text[0..] == text;
    }
  }

  lemma ReadAfterRuns(text: string, value: string, w: string)
    requires w != "" && !Touches(w) && Occurs(w, WithoutRunsFrom(text, value, 0))
    ensures Occurs(w, text) && !(|w| == RUN_MINIMUM && Occurs(w, value))
  {
    var pieces := WithoutRunsPieces(text, value, 0);
    ReadFromPieces(pieces, w);
    assert text[0..] == text;
    var i: nat :| KeptAt(pieces, w, i);
    if |w| == RUN_MINIMUM && Occurs(w, value) {
      NoRunIsKept(text, value, 0, w, i);
    }
  }

  predicate RunOfOne(w: string, credentials: seq<string>) {
    |w| == RUN_MINIMUM && exists value <- credentials :: Occurs(w, value)
  }

  /** After the passes no run of any credential is left, whatever the credentials, unless it can be read
      across a marker; and whatever is left that cannot be was there before. */
  lemma {:induction false} NoRunSurvives(text: string, credentials: seq<string>, w: string)
    requires w != "" && !Touches(w)
    ensures Occurs(w, Redacted(text, credentials)) ==> Occurs(w, text) && !RunOfOne(w, credentials)
  {
    if credentials != [] && Occurs(w, Redacted(text, credentials)) {
      var front, value := credentials[..|credentials| - 1], credentials[|credentials| - 1];
      var before := Redacted(text, front);
      ReadAfterRuns(Replaced(before, value), value, w);
      ReadAfterReplacing(before, value, w);
      NoRunSurvives(text, front, w);
      assert forall v <- credentials :: v in front || v == value;
    }
  }

  lemma KeptIsThere(text: string, value: string, read: nat, w: string)
    requires read <= |text| && value != "" && w != "" && KeptAt(ReplacedPieces(text, value, read), w, 0)
    ensures At(w, text, read) && !At(value, text, read)
  {
    var pieces := ReplacedPieces(text, value, read);
    KeptStart(pieces, w);
    assert pieces[0 + 0] == Kept(w[0]);
    assert text[read..][0..|w|] == text[read..read + |w|];
  }

  /** No occurrence of the value itself is kept whole. */
  lemma {:induction false} NoValueIsKept(text: string, value: string, read: nat, i: nat)
    requires read <= |text| && value != ""
    ensures !KeptAt(ReplacedPieces(text, value, read), value, i)
    decreases |text| - read
  {
    var pieces := ReplacedPieces(text, value, read);
    if KeptAt(pieces, value, i) {
      if i == 0 {
        KeptIsThere(text, value, read, value);
      } else {
        var next := if At(value, text, read) then read + |value| else read + 1;
        var rest := ReplacedPieces(text, value, next);
        assert pieces[1..] == rest;
        forall k | 0 <= k < |value| ensures rest[i - 1 + k] == Kept(value[k]) { assert pieces[i + k] == Kept(value[k]); }
        NoValueIsKept(text, value, next, i - 1);
      }
    }
  }

  lemma ReplacedIsGone(text: string, value: string)
    requires value != "" && !Touches(value)
    ensures !Occurs(value, Replaced(text, value))
  {
    if Occurs(value, Replaced(text, value)) {
      var pieces := ReplacedPieces(text, value, 0);
      ReadFromPieces(pieces, value);
      var i: nat :| KeptAt(pieces, value, i);
      NoValueIsKept(text, value, 0, i);
    }
  }

  /** A whole credential of any length is gone, wherever it stands in the list, unless it can be read across a
      marker. */
  lemma {:induction false} CredentialIsGone(text: string, credentials: seq<string>, value: string)
    requires value in credentials && value != "" && !Touches(value)
    ensures !Occurs(value, Redacted(text, credentials))
  {
    var front, last := credentials[..|credentials| - 1], credentials[|credentials| - 1];
    var before := Redacted(text, front);
    if Occurs(value, Redacted(text, credentials)) {
      ReadAfterRuns(Replaced(before, last), last, value);
      if last == value {
        ReplacedIsGone(before, value);
      } else {
        ReadAfterReplacing(before, last, value);
        CredentialIsGone(text, front, value);
      }
    }
  }

  lemma OccursWithin(a: string, b: string, c: string)
    requires Occurs(a, b) && Occurs(b, c)
    ensures Occurs(a, c)
  {
    var i: nat :| i <= |b| && At(a, b, i);
    var j: nat :| j <= |c| && At(b, c, j);
    forall k | 0 <= k < |a| ensures c[j + i + k] == a[k] {
      assert b[i..i + |a|][k] == b[i + k] && c[j..j + |b|][i + k] == c[j + i + k];
    }
    assert At(a, c, j + i);
  }

  /** And so is a long one of which any one run can be read across none, whatever the rest of it. */
  lemma LongCredentialIsGone(text: string, credentials: seq<string>, value: string, run: string)
    requires value in credentials && |run| == RUN_MINIMUM && Occurs(run, value) && !Touches(run)
    ensures !Occurs(value, Redacted(text, credentials))
  {
    if Occurs(value, Redacted(text, credentials)) {
      OccursWithin(run, value, Redacted(text, credentials));
      NoRunSurvives(text, credentials, run);
    }
  }

  predicate FreeOfAngles(w: string) { '<' !in w && '>' !in w }

  lemma AngleFreeRunsTouchNothing(w: string)
    requires |w| >= |REDACTED| - 1 && FreeOfAngles(w)
    ensures !Touches(w)
  {
    forall p | -|REDACTED| < p < |w| ensures !Overlaps(w, p) {
      if p >= 0 {
        assert REDACTED[p - p] == '<' && w[p] in w;
      } else {
        assert REDACTED[|REDACTED| - 1] == '>' && w[|REDACTED| - 1 + p] in w;
        assert (|REDACTED| - 1 + p) - p == |REDACTED| - 1;
      }
    }
  }

  /** So where no credential holds an angle bracket, no run of any of them is left. */
  lemma AngleFreeCredentialsAreGone(text: string, credentials: seq<string>, value: string, w: string)
    requires value in credentials && FreeOfAngles(value) && |w| == RUN_MINIMUM && Occurs(w, value)
    ensures !Occurs(w, Redacted(text, credentials))
  {
    var i: nat :| i <= |value| && At(w, value, i);
    forall k | 0 <= k < |w| ensures w[k] in value { assert value[i..i + |w|][k] == value[i + k]; }
    AngleFreeRunsTouchNothing(w);
    if Occurs(w, Redacted(text, credentials)) {
      NoRunSurvives(text, credentials, w);
    }
  }

  /** Nor any such credential of nine characters or more, whole. */
  lemma AngleFreeCredentialIsGone(text: string, credentials: seq<string>, value: string)
    requires value in credentials && |value| >= |REDACTED| - 1 && FreeOfAngles(value)
    ensures !Occurs(value, Redacted(text, credentials))
  {
    AngleFreeRunsTouchNothing(value);
    CredentialIsGone(text, credentials, value);
  }

  // What is left alone.

  predicate Clean(text: string, value: string) {
    !Occurs(value, text) && forall read: nat | read <= |text| :: !RunAt(text, value, read)
  }

  lemma {:induction false} NothingToReplace(text: string, value: string, read: nat)
    requires read <= |text| && Clean(text, value) && value != ""
    ensures ReplacedFrom(text, value, read) == text[read..]
    decreases |text| - read
  {
    if read < |text| {
      assert !At(value, text, read);
      NothingToReplace(text, value, read + 1);
    }
  }

  lemma {:induction false} NoRuns(text: string, value: string, read: nat)
    requires read <= |text| && Clean(text, value)
    ensures WithoutRunsFrom(text, value, read) == text[read..]
    decreases |text| - read
  {
    if read < |text| {
      assert !RunAt(text, value, read);
      NoRuns(text, value, read + 1);
    }
  }

  /** A text that holds no credential and no run of one comes back as it was. */
  lemma {:induction false} CleanTextIsKept(text: string, credentials: seq<string>)
    requires forall value <- credentials :: Clean(text, value)
    ensures Redacted(text, credentials) == text
  {
    if credentials != [] {
      var value := credentials[|credentials| - 1];
      CleanTextIsKept(text, credentials[..|credentials| - 1]);
      assert value in credentials;
      if value == "" {
        assert At("", text, 0);
      }
      NothingToReplace(text, value, 0);
      NoRuns(text, value, 0);
      assert text[0..] == text;
    }
  }

  // A run that touches the marker can survive.

  /** Around the marker, what `w` has before it and after it when it starts `p` characters in. */
  function Around(w: string, p: int, middle: string): string
    requires -|REDACTED| < p < |w|
  {
    (if p <= 0 then "" else w[..p]) + middle + (if p + |REDACTED| >= |w| then "" else w[p + |REDACTED|..])
  }

  lemma AroundHoldsRun(w: string, p: int)
    requires -|REDACTED| < p < |w| && Overlaps(w, p)
    ensures Occurs(w, Around(w, p, REDACTED))
  {
    var text := Around(w, p, REDACTED);
    var at: nat := if p <= 0 then -p else 0;
    assert forall k | 0 <= k < |w| :: text[at + k] == w[k];
    assert text[at..at + |w|] == w;
    assert At(w, text, at);
  }

  lemma {:induction false} ShortTextHasNoRun(text: string, value: string, read: nat)
    requires read <= |text| && (|value| < RUN_MINIMUM || forall i: nat | i <= |text| :: !RunAt(text, value, i))
    ensures WithoutRunsFrom(text, value, read) == text[read..]
    decreases |text| - read
  {
    if read < |text| {
      assert !RunAt(text, value, read);
      ShortTextHasNoRun(text, value, read + 1);
    }
  }

  lemma {:induction false} ReplacedBefore(a: string, value: string, b: string, read: nat)
    requires |value| == 1 && value[0] !in a && read <= |a|
    ensures ReplacedFrom(a + value + b, value, read) == a[read..] + REDACTED + ReplacedFrom(a + value + b, value, |a| + 1)
    decreases |a| - read
  {
    var text := a + value + b;
    if read < |a| {
      assert text[read..read + 1] == [a[read]] != value;
      ReplacedBefore(a, value, b, read + 1);
      assert [a[read]] + a[read + 1..] == a[read..];
    } else {
      assert text[read..read + 1] == value;
    }
  }

  lemma {:induction false} ReplacedAfter(text: string, value: string, read: nat)
    requires |value| == 1 && read <= |text| && value[0] !in text[read..]
    ensures ReplacedFrom(text, value, read) == text[read..]
    decreases |text| - read
  {
    if read < |text| {
      assert text[read] == text[read..][0];
      assert text[read..read + 1] == [text[read]];
      ReplacedAfter(text, value, read + 1);
    }
  }

  lemma RunWithoutStranger(w: string, p: int, c: char)
    requires -|REDACTED| < p < |w| && 0 < |w| <= RUN_MINIMUM && c !in w
    ensures Clean(Around(w, p, [c]), w)
  {
    var text := Around(w, p, [c]);
    var stranger: nat := if p <= 0 then 0 else p;
    assert text[stranger] == c && |text| <= |w|;
    forall at: nat | at <= |text| ensures !At(w, text, at) {
      if at + |w| <= |text| {
        assert text[at..at + |w|][stranger - at] == c;
      }
    }
    forall read: nat | read <= |text| ensures !RunAt(text, w, read) {
      if read + RUN_MINIMUM <= |text| {
        var window := text[read..read + RUN_MINIMUM];
        assert window[stranger - read] == c;
        if |w| == RUN_MINIMUM { WholeOccurs(window, w); }
      }
    }
  }

  lemma WholeOccurs(window: string, w: string)
    requires |window| == |w| && window != w
    ensures !Occurs(window, w)
  {
    assert w[0..|w|] == w;
    forall i: nat | i <= |w| ensures !At(window, w, i) { }
  }

  /** Given a character it does not hold, a touching credential survives: itself and the character as
      credentials, and a text that has the character where the marker will be. */
  lemma TouchingRunSurvives(w: string, p: int, c: char)
    requires -|REDACTED| < p < |w| && Overlaps(w, p) && 0 < |w| <= RUN_MINIMUM && c !in w
    ensures Redacted(Around(w, p, [c]), [w, [c]]) == Around(w, p, REDACTED)
    ensures Occurs(w, Redacted(Around(w, p, [c]), [w, [c]]))
    ensures |w| == RUN_MINIMUM ==> RunOfOne(w, [w, [c]])
  {
    var text, value := Around(w, p, [c]), [c];
    var a, b := if p <= 0 then "" else w[..p], if p + |REDACTED| >= |w| then "" else w[p + |REDACTED|..];
    RunWithoutStranger(w, p, c);
    assert Redacted(text, [w]) == text by {
      assert [w][..0] == [];
      CleanTextIsKept(text, [w]);
    }
    assert text == a + value + b;
    assert Replaced(text, value) == Around(w, p, REDACTED) by {
      ReplacedBefore(a, value, b, 0);
      assert text[|a| + 1..] == b;
      ReplacedAfter(text, value, |a| + 1);
    }
    ShortTextHasNoRun(Around(w, p, REDACTED), value, 0);
    assert [w, value][..1] == [w];
    AroundHoldsRun(w, p);
    assert w[0..|w|] == w && At(w, w, 0);
    assert [w, value][0] == w && w in [w, value];
  }

  /** Some text and credentials leave a run of one of them behind. */
  ghost predicate CanSurvive(w: string) {
    exists text, credentials :: RunOfOne(w, credentials) && Occurs(w, Redacted(text, credentials))
  }

  lemma {:induction false} Stranger(used: string, candidates: set<char>) returns (c: char)
    requires |candidates| > |used|
    ensures c in candidates && c !in used
  {
    if used == "" {
      c :| c in candidates;
    } else {
      c := Stranger(used[1..], candidates - {used[0]});
    }
  }

  /** Some text and credentials leave one of them behind. */
  ghost predicate CanBeLeft(value: string) {
    exists text, credentials :: value in credentials && Occurs(value, Redacted(text, credentials))
  }

  lemma {:induction false} SurvivorTouches(w: string)
    requires |w| == RUN_MINIMUM && CanSurvive(w)
    ensures Touches(w)
  {
    var text, credentials :| RunOfOne(w, credentials) && Occurs(w, Redacted(text, credentials));
    if !Touches(w) {
      NoRunSurvives(text, credentials, w);
    }
  }

  lemma {:induction false} TouchingIsLeft(w: string)
    requires 0 < |w| <= RUN_MINIMUM && Touches(w)
    ensures CanBeLeft(w) && (|w| == RUN_MINIMUM ==> CanSurvive(w))
  {
    var p :| -|REDACTED| < p < |w| && Overlaps(w, p);
    var c := Stranger(w, {'a', 'b', 'c', 'd', 'e', 'f', 'g', 'h', 'i', 'j', 'k', 'l', 'm', 'n', 'o', 'p', 'q'});
    TouchingRunSurvives(w, p, c);
    assert [w, [c]][0] == w;
  }

  /** Exactly the runs that touch a marker can survive. */
  lemma SurvivesExactlyWhenTouching(w: string)
    requires |w| == RUN_MINIMUM
    ensures CanSurvive(w) <==> Touches(w)
  {
    if CanSurvive(w) {
      SurvivorTouches(w);
    }
    if Touches(w) {
      TouchingIsLeft(w);
    }
  }

  /** And of the credentials no longer than a run, exactly those. */
  lemma CredentialLeftExactlyWhenTouching(value: string)
    requires 0 < |value| <= RUN_MINIMUM
    ensures CanBeLeft(value) <==> Touches(value)
  {
    if CanBeLeft(value) && !Touches(value) {
      var text, credentials :| value in credentials && Occurs(value, Redacted(text, credentials));
      CredentialIsGone(text, credentials, value);
    }
    if Touches(value) {
      TouchingIsLeft(value);
    }
  }
}
