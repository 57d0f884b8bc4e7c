/** What the lines of a digest tell of the steps they stand for. */
module DigestTells {
  import opened Messages
  import opened Digest

  // Words.

  /** The words of a text: what stands between its white space. */
  function Words(text: string): (words: seq<string>) {
    if text == "" then []
    else if IsSpace(text[0]) then Words(text[1..])
    else if |text| == 1 || IsSpace(text[1]) then [[text[0]]] + Words(text[1..])
    else
      var rest := Words(text[1..]);
      if rest == [] then [[text[0]]] else [[text[0]] + rest[0]] + rest[1..]
  }

  /** The words with one space between them, cut to a number of characters. */
  function Short(text: string, limit: nat): string {
    var whole := Joined(Words(text), " ");
    if |whole| <= limit then whole else whole[..limit]
  }

  lemma WordsOfText(text: string)
    requires text != "" && !IsSpace(text[0])
    ensures Words(text) != [] && Words(text)[0] != ""
    ensures Words(text)[0] == [text[0]] + if |text| == 1 || IsSpace(text[1]) then "" else Words(text[1..])[0]
    ensures Words(text)[1..] == if |text| == 1 || IsSpace(text[1]) then Words(text[1..]) else Words(text[1..])[1..]
  {
    if |text| > 1 && !IsSpace(text[1]) {
      WordsOfText(text[1..]);
    }
  }

  /** The words after a first one that is under way. */
  function Trailing(words: seq<string>): string { if words == [] then "" else " " + Joined(words, " ") }

  lemma JoinedIsTrailing(words: seq<string>)
    requires words != []
    ensures Joined(words, " ") == words[0] + Trailing(words[1..])
  {
  }

  lemma {:induction false} CollapsedIsWords(text: string, gap: bool, started: bool)
    ensures var words := Words(text);
            Collapsed(text, gap, started) ==
            if !started then Joined(words, " ")
            else if gap || text == "" || IsSpace(text[0]) then Trailing(words)
            else words[0] + Trailing(words[1..])
  {
    if text != "" {
      if IsSpace(text[0]) {
        CollapsedIsWords(text[1..], true, started);
      } else {
        CollapsedIsWords(text[1..], false, true);
        WordsOfText(text);
        JoinedIsTrailing(Words(text));
      }
    }
  }

  lemma FlatIsShort(text: string, limit: nat)
    ensures Flat(text, limit) == Short(text, limit)
  {
    CollapsedIsWords(text, false, false);
  }

  // The parts of a history in order.

  datatype Piece = Asked(req: ReqPart) | Told(resp: RespPart)

  function AskedAll(parts: seq<ReqPart>): seq<Piece> { seq(|parts|, i requires 0 <= i < |parts| => Asked(parts[i])) }

  function ToldAll(parts: seq<RespPart>): seq<Piece> { seq(|parts|, i requires 0 <= i < |parts| => Told(parts[i])) }

  function Pieces(ms: seq<Message>): seq<Piece> {
    if ms == [] then []
    else
      Pieces(ms[..|ms| - 1]) +
      match ms[|ms| - 1]
      case Request(parts) => AskedAll(parts)
      case Response(parts) => ToldAll(parts)
  }

  /** What a digest has a line for: the user's words, the model's words, and every call. */
  predicate HasLine(p: Piece) {
    match p
    case Asked(q) => q.UserPrompt? && !IsSectionUpdate(q) && !Blank(UserText(q.content))
    case Told(q) => q.Call? || q.NativeCall? || (q.Said? && !Blank(q.text))
  }

  function Lined(pieces: seq<Piece>): (lined: seq<Piece>)
    ensures forall p <- lined :: HasLine(p)
  {
    if pieces == [] then []
    else Lined(pieces[..|pieces| - 1]) + if HasLine(pieces[|pieces| - 1]) then [pieces[|pieces| - 1]] else []
  }

  predicate Returned(p: Piece, id: string) { p.Asked? && p.req.Return? && p.req.id == id }

  ghost predicate LastReturned(pieces: seq<Piece>, i: nat, id: string) {
    i < |pieces| && Returned(pieces[i], id) && forall j | i < j < |pieces| :: !Returned(pieces[j], id)
  }

  /** What became of a call: the last result recorded for it, marked where it was to be tried again. */
  ghost predicate BecameOf(pieces: seq<Piece>, id: string, result: string) {
    if exists p <- pieces :: Returned(p, id) then
      exists i: nat :: LastReturned(pieces, i, id) &&
        result == (if pieces[i].req.retried then "retry: " else "") + Short(Rendered(pieces[i].req.body), RESULT_HEAD_CHARS)
    else result == "(no result recorded)"
  }

  ghost predicate TellsCall(line: string, id: string, tool: string, args: string, pieces: seq<Piece>) {
    exists result :: BecameOf(pieces, id, result) && line == "- " + tool + "(" + Short(args, ARGS_HEAD_CHARS) + ") -> " + result
  }

  ghost predicate LineTells(line: string, p: Piece, pieces: seq<Piece>)
    requires HasLine(p)
  {
    match p
    case Asked(q) => line == USER_LINE_PREFIX + Short(UserText(q.content), RESULT_HEAD_CHARS)
    case Told(Said(text)) => line == "- said: " + Short(text, RESULT_HEAD_CHARS)
    case Told(q) => TellsCall(line, q.id, q.tool, q.args, pieces)
  }

  // The lines, given the results.

  function LineOf(p: Piece, results: map<string, string>): seq<string> {
    match p
    case Asked(q) => RequestLine(q)
    case Told(q) => ResponseLine(q, results)
  }

  function LinesOf(pieces: seq<Piece>, results: map<string, string>): seq<string> {
    if pieces == [] then [] else LinesOf(pieces[..|pieces| - 1], results) + LineOf(pieces[|pieces| - 1], results)
  }

  lemma {:induction false} LinesOfConcat(a: seq<Piece>, b: seq<Piece>, results: map<string, string>)
    ensures LinesOf(a + b, results) == LinesOf(a, results) + LinesOf(b, results)
  {
    if b == [] {
      assert a + b == a;
    } else {
      assert (a + b)[..|a + b| - 1] == a + b[..|b| - 1];
      LinesOfConcat(a, b[..|b| - 1], results);
    }
  }

  lemma {:induction false} AskedLines(parts: seq<ReqPart>, results: map<string, string>)
    ensures LinesOf(AskedAll(parts), results) == RequestLines(parts)
  {
    if parts != [] {
      AskedLines(parts[..|parts| - 1], results);
      assert AskedAll(parts)[..|parts| - 1] == AskedAll(parts[..|parts| - 1]);
    }
  }

  lemma {:induction false} ToldLines(parts: seq<RespPart>, results: map<string, string>)
    ensures LinesOf(ToldAll(parts), results) == ResponseLines(parts, results)
  {
    if parts != [] {
      ToldLines(parts[..|parts| - 1], results);
      assert ToldAll(parts)[..|parts| - 1] == ToldAll(parts[..|parts| - 1]);
    }
  }

  lemma {:induction false} LinesOfPieces(ms: seq<Message>, results: map<string, string>)
    ensures LinesWith(ms, results) == LinesOf(Pieces(ms), results)
  {
    if ms != [] {
      var front, m := ms[..|ms| - 1], ms[|ms| - 1];
      LinesOfPieces(front, results);
      match m
      case Request(parts) =>
        AskedLines(parts, results);
        LinesOfConcat(Pieces(front), AskedAll(parts), results);
      case Response(parts) =>
        ToldLines(parts, results);
        LinesOfConcat(Pieces(front), ToldAll(parts), results);
    }
  }

  // The results.

  function Noted(results: map<string, string>, p: Piece): map<string, string> {
    if p.Asked? && p.req.Return? then results[p.req.id := ResultLine(p.req)] else results
  }

  function Notes(pieces: seq<Piece>): map<string, string> {
    if pieces == [] then map[] else Noted(Notes(pieces[..|pieces| - 1]), pieces[|pieces| - 1])
  }

  lemma {:induction false} NotesOfTold(before: seq<Piece>, parts: seq<RespPart>)
    ensures Notes(before + ToldAll(parts)) == Notes(before)
  {
    if parts == [] {
      assert before + ToldAll(parts) == before;
    } else {
      NotesOfTold(before, parts[..|parts| - 1]);
      assert (before + ToldAll(parts))[..|before| + |parts| - 1] == before + ToldAll(parts[..|parts| - 1]);
    }
  }

  lemma {:induction false} NotesOfAsked(before: seq<Piece>, parts: seq<ReqPart>)
    ensures Notes(before + AskedAll(parts)) == Notes(before) + ResultsOfParts(parts)
  {
    if parts == [] {
      assert before + AskedAll(parts) == before;
    } else {
      NotesOfAsked(before, parts[..|parts| - 1]);
      assert (before + AskedAll(parts))[..|before| + |parts| - 1] == before + AskedAll(parts[..|parts| - 1]);
    }
  }

  lemma {:induction false} ResultsAreNotes(ms: seq<Message>)
    ensures MiddleResults(ms) == Notes(Pieces(ms))
  {
    if ms != [] {
      var front, m := ms[..|ms| - 1], ms[|ms| - 1];
      ResultsAreNotes(front);
      match m
      case Request(parts) => NotesOfAsked(Pieces(front), parts);
      case Response(parts) => NotesOfTold(Pieces(front), parts);
    }
  }

  ghost predicate NoteIsLast(pieces: seq<Piece>, notes: map<string, string>, id: string) {
    if id in notes then exists i: nat :: LastReturned(pieces, i, id) && notes[id] == ResultLine(pieces[i].req)
    else forall p <- pieces :: !Returned(p, id)
  }

  lemma NoteNext(front: seq<Piece>, p: Piece, notes: map<string, string>, id: string)
    requires NoteIsLast(front, notes, id)
    ensures NoteIsLast(front + [p], Noted(notes, p), id)
  {
    var pieces, more := front + [p], Noted(notes, p);
    if Returned(p, id) {
      assert LastReturned(pieces, |front|, id) && more[id] == ResultLine(pieces[|front|].req);
    } else if id in notes {
      var i: nat :| LastReturned(front, i, id) && notes[id] == ResultLine(front[i].req);
      assert LastReturned(pieces, i, id) && more[id] == ResultLine(pieces[i].req);
    }
  }

  lemma {:induction false} NotesAreLast(pieces: seq<Piece>, id: string)
    ensures NoteIsLast(pieces, Notes(pieces), id)
  {
    if pieces != [] {
      var front, p := pieces[..|pieces| - 1], pieces[|pieces| - 1];
      NotesAreLast(front, id);
      assert pieces == front + [p];
      NoteNext(front, p, Notes(front), id);
    }
  }

  lemma ResultBecame(pieces: seq<Piece>, id: string)
    ensures var notes := Notes(pieces); BecameOf(pieces, id, if id in notes then notes[id] else "(no result recorded)")
  {
    NotesAreLast(pieces, id);
    if id in Notes(pieces) {
      var i: nat :| LastReturned(pieces, i, id) && Notes(pieces)[id] == ResultLine(pieces[i].req);
      assert Returned(pieces[i], id);
      FlatIsShort(Rendered(pieces[i].req.body), RESULT_HEAD_CHARS);
    }
  }

  // Each line tells its part.

  lemma CallLineTells(id: string, tool: string, args: string, pieces: seq<Piece>)
    ensures TellsCall(CallLine(id, tool, args, Notes(pieces)), id, tool, args, pieces)
  {
    ResultBecame(pieces, id);
    FlatIsShort(args, ARGS_HEAD_CHARS);
  }

  lemma LineOfTells(p: Piece, pieces: seq<Piece>)
    ensures var lines := LineOf(p, Notes(pieces));
            if HasLine(p) then |lines| == 1 && LineTells(lines[0], p, pieces) else lines == []
  {
    match p
    case Asked(q) => if q.UserPrompt? { FlatIsShort(UserText(q.content), RESULT_HEAD_CHARS); }
    case Told(Said(text)) => FlatIsShort(text, RESULT_HEAD_CHARS);
    case Told(Call(id, tool, args)) => CallLineTells(id, tool, args, pieces);
    case Told(NativeCall(id, tool, args)) => CallLineTells(id, tool, args, pieces);
    case Told(_) =>
  }

  ghost predicate AllTell(lines: seq<string>, lined: seq<Piece>, pieces: seq<Piece>)
    requires forall p <- lined :: HasLine(p)
  {
    |lines| == |lined| && forall k | 0 <= k < |lines| :: LineTells(lines[k], lined[k], pieces)
  }

  lemma {:induction false} LinesTell(some: seq<Piece>, pieces: seq<Piece>)
    ensures AllTell(LinesOf(some, Notes(pieces)), Lined(some), pieces)
  {
    if some != [] {
      LinesTell(some[..|some| - 1], pieces);
      LineOfTells(some[|some| - 1], pieces);
    }
  }

  /** A digest's lines tell, in order, what the user said, what the model said, and every call with what became of it. */
  lemma DigestLinesTell(middle: seq<Message>)
    ensures AllTell(DigestLines(middle), Lined(Pieces(middle)), Pieces(middle))
  {
    ResultsAreNotes(middle);
    LinesOfPieces(middle, MiddleResults(middle));
    LinesTell(Pieces(middle), Pieces(middle));
  }
}
