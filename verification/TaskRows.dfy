/** The `background_tasks` row: its statuses, the transitions that write it, and the
    answer it gives the call that waits on it. */
module TaskRows {
  import opened Wrappers

  /** A task row's UUID, read as the number it is. */
  type TaskId = nat
  type Payload = string

  datatype Status = Pending | Running | ResultReady | Resuming | Complete | Failed

  /** The worker has not finished with the task. */
  predicate Active(s: Status) {
    s in {Pending, Running, Resuming, ResultReady}
  }

  /** The row already records the task's outcome. */
  predicate Reported(s: Status) {
    s in {ResultReady, Resuming, Complete, Failed}
  }

  datatype Row = Row(status: Status, result: Payload, error: string)

  const FRESH_ROW := Row(Pending, "", "")

  type Rows = map<TaskId, Row>

  /** The worker's answer to one durable call. */
  datatype Answer =
    | Succeeded(task: TaskId, result: Payload)
    | Fell(task: TaskId, error: string)

  /** A row's outcome as the answer its call resumes with. */
  function AsDurable(task: TaskId, row: Row): Answer {
    if row.status.Failed? then Fell(task, row.error) else Succeeded(task, row.result)
  }

  // Each transition is one UPDATE by id, so a row that is not there is not written.

  function WithRunning(rows: Rows, task: TaskId): Rows {
    if task in rows then rows[task := rows[task].(status := Running)] else rows
  }

  function WithResult(rows: Rows, task: TaskId, result: Payload): Rows {
    if task in rows then rows[task := rows[task].(status := ResultReady, result := result)] else rows
  }

  function WithResuming(rows: Rows, task: TaskId): Rows {
    if task in rows then rows[task := rows[task].(status := Resuming)] else rows
  }

  function WithComplete(rows: Rows, task: TaskId): Rows {
    if task in rows then rows[task := rows[task].(status := Complete)] else rows
  }

  function WithFailed(rows: Rows, task: TaskId, error: string): Rows {
    if task in rows then rows[task := rows[task].(status := Failed, error := error)] else rows
  }

  /** One row closed after the completion turn: an empty error completes it. */
  function WithClosed(rows: Rows, task: TaskId, error: string): Rows {
    if error != "" then WithFailed(rows, task, error) else WithComplete(rows, task)
  }

  /** `tasks` closed in order. */
  function WithAllClosed(rows: Rows, tasks: seq<TaskId>, error: string): Rows {
    if tasks == [] then rows
    else WithClosed(WithAllClosed(rows, tasks[..|tasks| - 1], error), tasks[|tasks| - 1], error)
  }

  /** Closing a list touches exactly the listed rows, whatever the order or repeats. */
  lemma {:induction false} ClosedAt(rows: Rows, tasks: seq<TaskId>, error: string)
    ensures WithAllClosed(rows, tasks, error).Keys == rows.Keys
    ensures forall t <- rows.Keys :: WithAllClosed(rows, tasks, error)[t] ==
                                     (if t !in tasks then rows[t]
                                      else if error != "" then rows[t].(status := Failed, error := error)
                                      else rows[t].(status := Complete))
  {
    if tasks != [] {
      ClosedAt(rows, tasks[..|tasks| - 1], error);
    }
  }

  /** One of the transitions, as it writes its own row. */
  datatype Write = ToRunning | ToReady(result: Payload) | ToResuming | ToComplete | ToFailed(error: string) {
    function Moved(): Status {
      match this
      case ToRunning => Running
      case ToReady(_) => ResultReady
      case ToResuming => Resuming
      case ToComplete => Complete
      case ToFailed(_) => Failed
    }
  }

  function Written(rows: Rows, task: TaskId, write: Write): Rows {
    match write
    case ToRunning => WithRunning(rows, task)
    case ToReady(result) => WithResult(rows, task, result)
    case ToResuming => WithResuming(rows, task)
    case ToComplete => WithComplete(rows, task)
    case ToFailed(error) => WithFailed(rows, task, error)
  }

  /** The table after `writes`, each a task's id and a transition of it. */
  function AfterWrites(rows: Rows, writes: seq<(TaskId, Write)>): Rows {
    if writes == [] then rows
    else var last := writes[|writes| - 1]; Written(AfterWrites(rows, writes[..|writes| - 1]), last.0, last.1)
  }

  /** Write `k` is the last of `task`'s own. */
  predicate LastWrite(writes: seq<(TaskId, Write)>, task: TaskId, k: nat) {
    k < |writes| && writes[k].0 == task && forall m :: k < m < |writes| ==> writes[m].0 != task
  }

  predicate LastResult(writes: seq<(TaskId, Write)>, task: TaskId, k: nat) {
    k < |writes| && writes[k].0 == task && writes[k].1.ToReady?
    && forall m :: k < m < |writes| && writes[m].0 == task ==> !writes[m].1.ToReady?
  }

  predicate LastFailure(writes: seq<(TaskId, Write)>, task: TaskId, k: nat) {
    k < |writes| && writes[k].0 == task && writes[k].1.ToFailed?
    && forall m :: k < m < |writes| && writes[m].0 == task ==> !writes[m].1.ToFailed?
  }

  /** No transition makes or drops a row, and none touches another task's. */
  lemma {:induction false} RowsAreIndependent(rows: Rows, writes: seq<(TaskId, Write)>)
    ensures AfterWrites(rows, writes).Keys == rows.Keys
    ensures forall t <- rows.Keys :: (forall m :: 0 <= m < |writes| ==> writes[m].0 != t)
                                     ==> AfterWrites(rows, writes)[t] == rows[t]
  {
    if writes != [] {
      RowsAreIndependent(rows, writes[..|writes| - 1]);
    }
  }

  /** A row's status is its own last transition's, whatever was written to other tasks since. */
  lemma {:induction false} StatusIsTheLastWrite(rows: Rows, writes: seq<(TaskId, Write)>, task: TaskId, k: nat)
    requires task in rows && LastWrite(writes, task, k)
    ensures task in AfterWrites(rows, writes)
    ensures AfterWrites(rows, writes)[task].status == writes[k].1.Moved()
  {
    RowsAreIndependent(rows, writes[..|writes| - 1]);
    if k < |writes| - 1 {
      StatusIsTheLastWrite(rows, writes[..|writes| - 1], task, k);
    }
  }

  /** A recorded result outlives every later transition of its task but another result. */
  lemma {:induction false} ResultsAreKept(rows: Rows, writes: seq<(TaskId, Write)>, task: TaskId, k: nat)
    requires task in rows && LastResult(writes, task, k)
    ensures task in AfterWrites(rows, writes)
    ensures AfterWrites(rows, writes)[task].result == writes[k].1.result
  {
    RowsAreIndependent(rows, writes[..|writes| - 1]);
    if k < |writes| - 1 {
      ResultsAreKept(rows, writes[..|writes| - 1], task, k);
    }
  }

  /** And a recorded error every later one but another failure. */
  lemma {:induction false} ErrorsAreKept(rows: Rows, writes: seq<(TaskId, Write)>, task: TaskId, k: nat)
    requires task in rows && LastFailure(writes, task, k)
    ensures task in AfterWrites(rows, writes)
    ensures AfterWrites(rows, writes)[task].error == writes[k].1.error
  {
    RowsAreIndependent(rows, writes[..|writes| - 1]);
    if k < |writes| - 1 {
      ErrorsAreKept(rows, writes[..|writes| - 1], task, k);
    }
  }

  /** What the waiting call is answered: the failure where the task's last transition failed
      it, and otherwise the last result it recorded, through any transitions in between. */
  lemma {:induction false} AnswersFollowTheWrites(rows: Rows, writes: seq<(TaskId, Write)>, task: TaskId,
                                                  last: nat, result: nat)
    requires task in rows && LastWrite(writes, task, last) && LastResult(writes, task, result)
    ensures task in AfterWrites(rows, writes)
    ensures AsDurable(task, AfterWrites(rows, writes)[task]) ==
            if writes[last].1.ToFailed? then Fell(task, writes[last].1.error)
            else Succeeded(task, writes[result].1.result)
  {
    StatusIsTheLastWrite(rows, writes, task, last);
    ResultsAreKept(rows, writes, task, result);
    if writes[last].1.ToFailed? {
      ErrorsAreKept(rows, writes, task, last);
    }
  }

  class BackgroundTaskRepository {
    var rows: Rows

    constructor ()
      ensures rows == map[]
    {
      rows := map[];
    }

    method Create(task: TaskId)
      requires task !in rows
      modifies this
      ensures rows == old(rows)[task := FRESH_ROW]
    {
      rows := rows[task := FRESH_ROW];
    }

    method MarkRunning(task: TaskId)
      modifies this
      ensures rows == WithRunning(old(rows), task)
    {
      if task in rows {
        rows := rows[task := rows[task].(status := Running)];
      }
    }

    method MarkResultReady(task: TaskId, result: Payload)
      modifies this
      ensures rows == WithResult(old(rows), task, result)
    {
      if task in rows {
        rows := rows[task := rows[task].(status := ResultReady, result := result)];
      }
    }

    method MarkResuming(task: TaskId)
      modifies this
      ensures rows == WithResuming(old(rows), task)
    {
      if task in rows {
        rows := rows[task := rows[task].(status := Resuming)];
      }
    }

    method MarkComplete(task: TaskId)
      modifies this
      ensures rows == WithComplete(old(rows), task)
    {
      if task in rows {
        rows := rows[task := rows[task].(status := Complete)];
      }
    }

    method MarkFailed(task: TaskId, error: string)
      modifies this
      ensures rows == WithFailed(old(rows), task, error)
    {
      if task in rows {
        rows := rows[task := rows[task].(status := Failed, error := error)];
      }
    }

    /** Each named task's outcome, for the tasks that already report one. */
    method ReportedOutcomes(tasks: seq<TaskId>) returns (found: map<TaskId, Row>)
      ensures forall t :: t in found <==> t in tasks && t in rows && Reported(rows[t].status)
      ensures forall t <- found :: found[t] == rows[t]
    {
      found := map t <- tasks | t in rows && Reported(rows[t].status) :: rows[t];
    }
  }
}
