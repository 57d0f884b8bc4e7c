/** The turn a finished durable task opens: gathering every parked task's answer, and
    what the turn state and the deferred results make of them. */
module CompletionTurn {
  import opened Wrappers
  import opened TaskRows

  /** One durable tool call a run parked, and the task that answers it. */
  datatype DurableCall = DurableCall(toolCallId: string, task: TaskId)

  function TaskIds(calls: seq<DurableCall>): seq<TaskId> {
    seq(|calls|, i requires 0 <= i < |calls| => calls[i].task)
  }

  predicate Owns(calls: seq<DurableCall>, task: TaskId) {
    exists c <- calls :: c.task == task
  }

  // Gathering.

  /** The answer a task has when `result` has just arrived: the new result, or the row's. */
  function AnswerNow(rows: Rows, result: Answer, task: TaskId): Option<Answer> {
    if task == result.task then Some(result)
    else if task in rows && Reported(rows[task].status) then Some(AsDurable(task, rows[task]))
    else None
  }

  /** Every parked task's answer in call order, or nothing while one has not reported. */
  function Gathered(rows: Rows, result: Answer, ids: seq<TaskId>): Option<seq<Answer>> {
    if ids == [] then Some([])
    else
      var before := Gathered(rows, result, ids[..|ids| - 1]);
      var last := AnswerNow(rows, result, ids[|ids| - 1]);
      if before.Some? && last.Some? then Some(before.value + [last.value]) else None
  }

  /** Gathering waits exactly while some task has no answer, and keeps call order. */
  lemma {:induction false} GatheredInOrder(rows: Rows, result: Answer, ids: seq<TaskId>)
    ensures Gathered(rows, result, ids).Some? <==> forall id <- ids :: AnswerNow(rows, result, id).Some?
    ensures Gathered(rows, result, ids).Some? ==> |Gathered(rows, result, ids).value| == |ids|
    ensures Gathered(rows, result, ids).Some? ==>
              forall i | 0 <= i < |ids| :: AnswerNow(rows, result, ids[i]) == Some(Gathered(rows, result, ids).value[i])
  {
    if ids != [] {
      var front, last := ids[..|ids| - 1], ids[|ids| - 1];
      GatheredInOrder(rows, result, front);
      assert forall id :: id in ids <==> id in front || id == last;
    }
  }

  method GatheredAnswers(repo: BackgroundTaskRepository, parked: seq<DurableCall>, result: Answer)
      returns (gathered: Option<seq<Answer>>)
    ensures gathered == Gathered(repo.rows, result, TaskIds(parked))
  {
    var ids := TaskIds(parked);
    var reported := repo.ReportedOutcomes(ids);
    var answers := map t <- reported :: AsDurable(t, reported[t]);
    answers := answers[result.task := result];
    var list: seq<Answer> := [];
    for i := 0 to |ids|
      invariant Gathered(repo.rows, result, ids[..i]) == Some(list)
    {
      assert ids[..i + 1][..i] == ids[..i];
      if ids[i] !in answers {
        assert ids[i] in ids;
        GatheredInOrder(repo.rows, result, ids);
        return None;
      }
      list := list + [answers[ids[i]]];
    }
    assert ids[..|ids|] == ids;
    return Some(list);
  }

  /** The tasks the turn delivered whose tools succeeded, in call order. */
  function Delivered(answers: seq<Answer>): seq<TaskId> {
    if answers == [] then []
    else (if answers[0].Succeeded? then [answers[0].task] else []) + Delivered(answers[1..])
  }

  lemma {:induction false} DeliveredAreSuccesses(answers: seq<Answer>, t: TaskId)
    ensures t in Delivered(answers) <==> exists a <- answers :: a.Succeeded? && a.task == t
  {
    if answers != [] {
      DeliveredAreSuccesses(answers[1..], t);
      assert forall a :: a in answers <==> a == answers[0] || a in answers[1..];
    }
  }

  /** What opening the completion turn did, so the rows can be settled. */
  datatype CompletionOutcome = CompletionOutcome(answered: seq<TaskId>, waiting: bool, error: string)

  /** The outcome speaks for a row: for those it answered, and for the fallback where it answered none. */
  predicate SpeaksFor(outcome: CompletionOutcome, fallback: seq<TaskId>, t: TaskId) {
    !outcome.waiting && (t in outcome.answered || (outcome.answered == [] && t in fallback))
  }

  /** A row the outcome speaks for is closed with its failure, or as complete; no other row changes. */
  ghost predicate SettledBy(before: Rows, after: Rows, outcome: CompletionOutcome, fallback: seq<TaskId>) {
    && after.Keys == before.Keys
    && forall t <- before :: after[t] ==
         if !SpeaksFor(outcome, fallback, t) then before[t]
         else if outcome.error == "" then before[t].(status := Complete)
         else before[t].(status := Failed, error := outcome.error)
  }

  method AnswerAndSettle(repo: BackgroundTaskRepository, outcome: CompletionOutcome, fallback: seq<TaskId>)
    modifies repo
    ensures outcome.waiting ==> repo.rows == old(repo.rows)
    ensures repo.rows.Keys == old(repo.rows).Keys
    ensures forall t <- old(repo.rows) ::
              if !outcome.waiting && (t in outcome.answered || (outcome.answered == [] && t in fallback))
              then repo.rows[t] == if outcome.error == "" then old(repo.rows)[t].(status := Complete)
                                   else old(repo.rows)[t].(status := Failed, error := outcome.error)
              else repo.rows[t] == old(repo.rows)[t]
    ensures SettledBy(old(repo.rows), repo.rows, outcome, fallback)
  {
    if outcome.waiting {
      return;
    }
    var tasks := if outcome.answered != [] then outcome.answered else fallback;
    for i := 0 to |tasks|
      invariant repo.rows == WithAllClosed(old(repo.rows), tasks[..i], outcome.error)
    {
      assert tasks[..i + 1][..i] == tasks[..i];
      if outcome.error != "" {
        repo.MarkFailed(tasks[i], outcome.error);
      } else {
        repo.MarkComplete(tasks[i]);
      }
    }
    assert tasks[..|tasks|] == tasks;
    ClosedAt(old(repo.rows), tasks, outcome.error);
  }

  /** A row its host started, once the sweep has settled it: a recorded result completes it, and a row that
      recorded nothing fails. */
  function HostSettled(rows: Rows, task: TaskId, error: string): Rows {
    if task !in rows || !Active(rows[task].status) then rows
    else if Reported(rows[task].status) then WithComplete(rows, task)
    else WithFailed(rows, task, error)
  }

  method SettleHostTask(repo: BackgroundTaskRepository, task: TaskId, error: string)
    modifies repo
    ensures repo.rows == HostSettled(old(repo.rows), task, error)
    ensures task in old(repo.rows) ==> task in repo.rows
    ensures task in old(repo.rows) && old(repo.rows)[task].status in {Pending, Running} ==>
              repo.rows[task] == old(repo.rows)[task].(status := Failed, error := error)
    ensures task in old(repo.rows) && old(repo.rows)[task].status in {ResultReady, Resuming} ==>
              repo.rows[task] == old(repo.rows)[task].(status := Complete)
    ensures task in old(repo.rows) && old(repo.rows)[task].status in {Complete, Failed} ==> repo.rows == old(repo.rows)
  {
    var found := repo.rows;
    if task !in found || !Active(found[task].status) {
      return;
    }
    if Reported(found[task].status) {
      repo.MarkComplete(task);
      return;
    }
    repo.MarkFailed(task, error);
  }

  /** Settling a host's row closes it for good: a second sweep, whatever its reason, writes nothing, no other
      row is touched, and a result the row recorded is never lost. */
  lemma HostRowsSettleOnce(rows: Rows, task: TaskId, error: string, again: string)
    ensures var settled := HostSettled(rows, task, error);
            && settled.Keys == rows.Keys && HostSettled(settled, task, again) == settled
            && (forall other <- rows :: other != task ==> settled[other] == rows[other])
            && (task in rows ==> !Active(settled[task].status) && settled[task].result == rows[task].result &&
                                 (settled[task].status.Failed? && !rows[task].status.Failed? <==>
                                    rows[task].status in {Pending, Running}))
  {
  }

  // What the turn state the driver builds makes of the answers it carries.

  datatype TurnState = TurnState(parked: Option<seq<DurableCall>>, result: Option<Answer>, results: seq<Answer>)

  /** A dict comprehension over the answers: a later answer to one task wins. */
  function ByTask(results: seq<Answer>): map<TaskId, Answer> {
    if results == [] then map[]
    else ByTask(results[..|results| - 1])[results[|results| - 1].task := results[|results| - 1]]
  }

  function DurableAnswers(state: TurnState): map<TaskId, Answer> {
    var answers := ByTask(state.results);
    if state.result.Some? && state.result.value.task !in answers
    then answers[state.result.value.task := state.result.value] else answers
  }

  predicate CarriesDurableAnswer(state: TurnState) {
    state.parked.Some? && exists t <- DurableAnswers(state).Keys :: Owns(state.parked.value, t)
  }

  function AnsweredDurableCall(state: TurnState): Option<seq<DurableCall>> {
    if !CarriesDurableAnswer(state) then None
    else if exists c <- state.parked.value :: c.task !in DurableAnswers(state) then None
    else state.parked
  }

  /** The deferred results by tool call id, or nothing where the lookup would miss its key. */
  function DurableToolResults(parked: seq<DurableCall>, answers: map<TaskId, Answer>): Option<map<string, Answer>> {
    if parked == [] then Some(map[])
    else
      var last := parked[|parked| - 1];
      match DurableToolResults(parked[..|parked| - 1], answers)
      case None => None
      case Some(calls) => if last.task in answers then Some(calls[last.toolCallId := answers[last.task]]) else None
  }

  /** Each call waits on a task of its own. */
  predicate OwnTasks(calls: seq<DurableCall>) {
    forall i, j | 0 <= i < j < |calls| :: calls[i].task != calls[j].task
  }

  lemma {:induction false} ByTaskOfGathered(answers: seq<Answer>)
    requires forall i, j | 0 <= i < j < |answers| :: answers[i].task != answers[j].task
    ensures forall i | 0 <= i < |answers| :: answers[i].task in ByTask(answers) && ByTask(answers)[answers[i].task] == answers[i]
    ensures forall t <- ByTask(answers) :: exists a <- answers :: a.task == t
  {
    if answers != [] {
      ByTaskOfGathered(answers[..|answers| - 1]);
    }
  }

  /** The last call under a tool call id is the one the deferred results keep. */
  predicate LastOfItsId(parked: seq<DurableCall>, i: nat)
    requires i < |parked|
  {
    forall j | i < j < |parked| :: parked[j].toolCallId != parked[i].toolCallId
  }

  lemma {:induction false} ResultsTotal(parked: seq<DurableCall>, answers: map<TaskId, Answer>)
    requires forall c <- parked :: c.task in answers
    ensures DurableToolResults(parked, answers).Some?
  {
    if parked != [] {
      assert parked[|parked| - 1] in parked;
      ResultsTotal(parked[..|parked| - 1], answers);
    }
  }

  lemma {:induction false} ResultKeys(parked: seq<DurableCall>, answers: map<TaskId, Answer>, id: string)
    requires DurableToolResults(parked, answers).Some?
    ensures id in DurableToolResults(parked, answers).value <==> exists c <- parked :: c.toolCallId == id
  {
    if parked != [] {
      var front, last := parked[..|parked| - 1], parked[|parked| - 1];
      ResultKeys(front, answers, id);
      assert forall c :: c in parked <==> c in front || c == last;
    }
  }

  lemma {:induction false} ResultAt(parked: seq<DurableCall>, answers: map<TaskId, Answer>, i: nat)
    requires i < |parked| && LastOfItsId(parked, i)
    requires parked[i].task in answers
    requires DurableToolResults(parked, answers).Some?
    ensures parked[i].toolCallId in DurableToolResults(parked, answers).value
    ensures DurableToolResults(parked, answers).value[parked[i].toolCallId] == answers[parked[i].task]
  {
    var front := parked[..|parked| - 1];
    if i < |front| {
      assert LastOfItsId(front, i);
      ResultAt(front, answers, i);
    }
  }

  /** The turn state the driver builds from what was gathered. */
  function OpenedTurn(rows: Rows, result: Answer, parked: seq<DurableCall>): TurnState
    requires Gathered(rows, result, TaskIds(parked)).Some?
  {
    TurnState(Some(parked), Some(result), Gathered(rows, result, TaskIds(parked)).value)
  }

  /** The parked step resumes exactly when every one of its tasks is answered. */
  lemma ResumesWhenAllAnswered(state: TurnState)
    requires state.parked.Some? && |state.parked.value| >= 1
    ensures AnsweredDurableCall(state) == state.parked <==> forall c <- state.parked.value :: c.task in DurableAnswers(state)
  {
    var first := state.parked.value[0];
    if first.task in DurableAnswers(state) {
      assert Owns(state.parked.value, first.task);
    } else {
      assert first in state.parked.value;
    }
  }

  lemma GatheredTasks(rows: Rows, result: Answer, parked: seq<DurableCall>)
    requires Gathered(rows, result, TaskIds(parked)).Some?
    ensures var answers := Gathered(rows, result, TaskIds(parked)).value;
            |answers| == |parked| && forall i | 0 <= i < |parked| :: answers[i].task == parked[i].task
  {
    var ids := TaskIds(parked);
    GatheredInOrder(rows, result, ids);
    forall i | 0 <= i < |ids| ensures Gathered(rows, result, ids).value[i].task == ids[i] {
      assert AnswerNow(rows, result, ids[i]) == Some(Gathered(rows, result, ids).value[i]);
    }
  }

  lemma GatheredByTask(rows: Rows, result: Answer, parked: seq<DurableCall>)
    requires OwnTasks(parked)
    requires Gathered(rows, result, TaskIds(parked)).Some?
    ensures var state := OpenedTurn(rows, result, parked);
            && |state.results| == |parked|
            && forall i | 0 <= i < |parked| ::
                 && state.results[i].task == parked[i].task
                 && parked[i].task in DurableAnswers(state)
                 && DurableAnswers(state)[parked[i].task] == state.results[i]
  {
    GatheredTasks(rows, result, parked);
    ByTaskOfGathered(OpenedTurn(rows, result, parked).results);
  }

  /** A turn opened with what was gathered resumes the whole parked step: one answer per task,
      in call order, and no lookup misses its key. */
  lemma GatheredTurnAnswersEveryCall(rows: Rows, result: Answer, parked: seq<DurableCall>)
    requires |parked| >= 1 && OwnTasks(parked)
    requires Gathered(rows, result, TaskIds(parked)).Some?
    ensures var state := OpenedTurn(rows, result, parked);
            && AnsweredDurableCall(state) == Some(parked)
            && DurableToolResults(parked, DurableAnswers(state)).Some?
            && |state.results| == |parked|
            && forall i | 0 <= i < |parked| :: state.results[i].task == parked[i].task
  {
    var state := OpenedTurn(rows, result, parked);
    GatheredByTask(rows, result, parked);
    ResumesWhenAllAnswered(state);
    ResultsTotal(parked, DurableAnswers(state));
  }

  /** Each tool call of that turn is answered by its own task, and no other call is answered. */
  lemma GatheredResultsByCall(rows: Rows, result: Answer, parked: seq<DurableCall>, i: nat, id: string)
    requires i < |parked| && LastOfItsId(parked, i) && OwnTasks(parked)
    requires Gathered(rows, result, TaskIds(parked)).Some?
    ensures var state := OpenedTurn(rows, result, parked);
            var results := DurableToolResults(parked, DurableAnswers(state));
            && results.Some? && |state.results| == |parked|
            && parked[i].toolCallId in results.value
            && results.value[parked[i].toolCallId] == state.results[i]
            && (id in results.value <==> exists c <- parked :: c.toolCallId == id)
  {
    var state := OpenedTurn(rows, result, parked);
    GatheredTurnAnswersEveryCall(rows, result, parked);
    GatheredByTask(rows, result, parked);
    ResultAt(parked, DurableAnswers(state), i);
    ResultKeys(parked, DurableAnswers(state), id);
  }
}
