# Verified model of the assistant runtime

A Dafny model of the parts of the assistant packages whose behaviour is decided by their own code, with
proofs of what that code promises. `dafny verify dfyconfig.toml` checks the whole project.

- **Durable tasks.** `TaskRows` is the task row and its transitions, `CompletionTurn` the gathering of answers
  and the settling of rows, `DurableProtocol` the step system around them: one model step parks several calls,
  their jobs run one at a time under the thread lock, a worker may stop between any two of its steps, a sweep
  takes over, a user turn may supersede the parked step. `DurableSteps` proves that every step keeps the
  invariant, `DurableRuns` what every run promises, `LateStops` the two windows a stop must not fall in, and
  `Settlement` that a job's steps close the rows the settling method closes.
- **Log delivery.** `LogDelivery` is the step system of readers, the listen hub and its connection: replay,
  subscribe, sweep, wait, fetch, with connections that drop and are armed again.
- **The history pipeline.** `Messages`, `Pairing`, `Elision`, `Digest`, `Compaction` and `HistoryPipeline` are the
  processors a run's messages go through, and the briefing a model reads from them; `DigestTells` says what each
  line of a digest stands for. `StableSections` is where the
  updates that briefing applies come from, `UpdateTexts` the text they are sent as, `Briefings` how a section is
  found and replaced, and `RunBriefings` composes them.
- **The two reducers.** `Chunks` is the wire's vocabulary, `TurnReducer` the client's reducer with its index maps,
  `LogReducer` the server's with its scans. `TurnReadings` and `LogReadings` read the message straight off the
  stream, with no index and no scan, and prove each reducer to show it; `ReducersAgree` proves that the two show one
  message; `EmptyParts` is the gate that feeds both. `FoldedStreams` ties the summaries one of them folds to the trace.
- **Reading a thread.** `ConversationLog` is the log as it is served, `CursorStore` what a client keeps of it,
  `Resume` the chain of tails and the streams made of it, `WholeChains` where a chain ends, `Reconnect` all of it from
  a client's own record, `Frames` the framing and `FrameReadings` which texts are frames. `SubAgentSteps` and `Trace`
  are the runs of work a reader sees; `TraceRows` and `TraceGroups` say what their rows and groups show.
- **Two dense cores.** `RepetitionGuard` is the circuit breaker for looping calls, `Redaction` the report's
  redaction.

Code that updates fields or locals step by step is a class or a method with a loop, proved equal to a function
of its inputs or of the old state; the lemmas then say what that function means. The two protocols run over
several processes, so they are step systems, and their theorems range over every run.

Hypotheses the code itself fixes are stated where they matter. The main ones: a worker whose job was released
takes no further step; a stream a reducer reads has static tools only (`ReducersAgree.Allowed` is the full
list, and `LogReadings.OneFlavour` what the server's parts need); no message of a log is started again once another has been (`Reconnect.NeverReturns`); the sections a run
reads keep their names, share one heading level and hold no separator (`RunBriefings.BriefingIsUpToDate`).

Where the code does not keep a promise without a condition, the exact condition is proved and an input that fails is
given, or both are one theorem: repairing a history (`Pairing.RepairsExactlyWhenUnansweredOnce`), the digest's cap
(`Digest.DigestWithinCap`), compaction's guard (`Compaction.GuardFiresExactlyOnAStrayReturn`), replacing a section
(`Briefings.TheNextIsKeptExactly`: a section runs to the next heading of its level or higher, so one of a lower level
goes with it), the gate for empty parts (`EmptyParts.NoneMistakenExactlyWhenKindsMatch`), a resumed read
(`Resume.ResumeIsWholeExactly`), redaction (`Redaction.SurvivesExactlyWhenTouching`,
`Redaction.CredentialLeftExactlyWhenTouching`), the calls a trace shows (`TraceRows.CallsAreShownExactly`) and crash recovery
(`DurableRuns.TurnsRepeatExactlyWhenUnspoiled`). The two windows in which a stop loses or spoils a row have concrete
runs (`LateStops`).

## Model

| member | source | states |
|---|---|---|
| TaskRows.RowsAreIndependent | packages/assistant-core/src/assistant_core/persistence/repositories/background_tasks.py:150-189 | over any list of transitions of any tasks no row is made or dropped, and none changes but those of the tasks they name |
| TaskRows.StatusIsTheLastWrite | packages/assistant-core/src/assistant_core/persistence/repositories/background_tasks.py:150-189 | a row's status is that of its own task's last transition, whatever other tasks were written since |
| TaskRows.ResultsAreKept | packages/assistant-core/src/assistant_core/persistence/repositories/background_tasks.py:161-189 | a recorded result outlives every later transition of its task but another result, a failure included |
| TaskRows.AnswersFollowTheWrites | packages/assistant-core/src/assistant_core/persistence/repositories/background_tasks.py:150-189 | what the waiting call is answered: the failure where the task's last transition failed it, and otherwise the last result it recorded |
| TaskRows.BackgroundTaskRepository.ReportedOutcomes | packages/assistant-core/src/assistant_core/persistence/repositories/background_tasks.py:132-148 | exactly the named rows that already report an outcome, each as it stands |
| TaskRows.ClosedAt | packages/assistant-core/src/assistant_core/tasks/runner.py:459-482 | closing a list of rows touches exactly the listed ones, whatever the order or the repeats |
| CompletionTurn.GatheredAnswers | packages/assistant-core/src/assistant_core/tasks/completion_turn.py:174-190 | one answer per parked call in call order, or nothing while some task has none; it writes no row |
| CompletionTurn.GatheredInOrder | packages/assistant-core/src/assistant_core/tasks/completion_turn.py:174-190 | gathering waits exactly while some task has no answer; otherwise answer i is call i's, its own row's or the reporter's |
| CompletionTurn.AnswerAndSettle | packages/assistant-core/src/assistant_core/tasks/runner.py:459-482 | a waiting outcome leaves every row as it was; otherwise a row changes if and only if it is one the outcome answered, or one of the fallback where it answered none: to complete with no error, to failed with the turn's |
| Settlement.JobSettlesAsAnswered | packages/assistant-core/src/assistant_core/tasks/runner.py:374-482 | the method and the step system are one: from a job whose driver is done, its row-closing steps leave the rows the method leaves for the outcome the step system reached |
| CompletionTurn.SettleHostTask | packages/assistant-core/src/assistant_core/tasks/runner.py:417-433 | a row its host started and left open is completed where it recorded a result, failed where it recorded nothing, and otherwise left alone |
| CompletionTurn.HostRowsSettleOnce | packages/assistant-core/src/assistant_core/tasks/runner.py:417-433 | that settles the row for good: a second sweep writes nothing, no other row is touched and no recorded result is lost |
| CompletionTurn.DeliveredAreSuccesses | packages/assistant-core/src/assistant_core/tasks/completion_turn.py:204-279 | the rows a turn must still close are exactly those of its successful answers |
| CompletionTurn.ResumesWhenAllAnswered | packages/assistant-core/src/assistant_core/graph/turn_state.py:218-248 | the parked step counts as answered exactly when every one of its tasks has an answer |
| CompletionTurn.GatheredTurnAnswersEveryCall | packages/assistant-core/src/assistant_core/graph/durable.py:59-69 | a turn opened with gathered answers carries an answer for every parked call, so no lookup of a result can miss its key |
| CompletionTurn.GatheredResultsByCall | packages/assistant-core/src/assistant_core/graph/durable.py:59-69 | the value each tool call resumes with is its own task's answer, and no other call gets one |
| DurableRuns.RunKeeps | packages/assistant-core/src/assistant_core/tasks/runner.py:235-323 | the protocol invariant holds after every run of dispatches, parks, worker steps, sweeps, superseding turns and stops, which may come between any two steps of a job |
| DurableRuns.OpenedTurnsAnswerTheStep | packages/assistant-core/src/assistant_core/tasks/completion_turn.py:204-279 | every completion turn answers every parked call exactly once, in call order: the first with what the tasks recorded, a later one with that or with the failure an earlier turn closed the task's row with; a turn opens again only after a stop inside the driver or after it raised and left the step parked |
| DurableRuns.TurnsRepeatExactlyWhenUnspoiled | packages/assistant-core/src/assistant_core/tasks/runner.py:374-482 | at rest every turn of the run said what the tasks recorded if and only if no such stop found a row that the turn that raised had closed |
| DurableRuns.SpoilsExactlyWhenClosedAfterRaise | packages/assistant-core/src/assistant_core/tasks/runner.py:435-482 | a step spoils a row if and only if it is a stop after the driver raised and left the step parked, with the row of a task answered as a success already failed |
| DurableRuns.ResultsAnnouncedFirst | packages/assistant-core/src/assistant_core/tasks/runner.py:485-503 | once a turn is open, every task that succeeded has been announced |
| DurableRuns.RowsCloseUnlessAbandoned | packages/assistant-core/src/assistant_core/tasks/runner.py:374-482 | at rest a row is complete or failed exactly when it was not abandoned; only a late stop or a superseding user turn abandons one; without the latter one turn opened, and one more per stop inside the driver and per stop after a raise that left the step parked |
| DurableRuns.RowsEndAsRecorded | packages/assistant-core/src/assistant_core/tasks/runner.py:374-482 | otherwise every row ends as its first recorded outcome and the driver's verdict say, or, spoiled, with the failure of the turn that closed it |
| DurableRuns.RecoveredRunsAgree | packages/assistant-core/src/assistant_core/tasks/maintenance.py:160-212 | crash recovery: of two runs with the same outcomes and verdict the answers delivered last are the same if and only if the same rows were spoiled; then the rows are the same too, and with none spoiled every turn of both is |
| DurableRuns.CutTasksFail | packages/assistant-core/src/assistant_core/tasks/maintenance.py:198-212 | a task whose worker stopped before its row recorded anything ends failed and is answered as failed |
| DurableRuns.OutcomesAreFinal | packages/assistant-core/src/assistant_core/tasks/runner.py:235-323 | what a task first records is never replaced |
| DurableRuns.ClosedRowsAreFinal | packages/assistant-core/src/assistant_core/tasks/runner.py:374-482 | no step rewrites a closed row: no failed row is completed, no completed row fails |
| DurableRuns.ClosedRowsStayClosed | packages/assistant-core/src/assistant_core/tasks/runner.py:374-482 | the same over any continuation of a run |
| DurableRuns.CanGoOn | packages/assistant-core/src/assistant_core/tasks/maintenance.py:96-110 | until the protocol is at rest some step other than a stop is enabled: it cannot get stuck |
| DurableRuns.ForwardStepsRunOut | packages/assistant-core/src/assistant_core/tasks/runner.py:235-323 | every such step lowers a lexicographic measure, so only endless stops keep the protocol from resting |
| LateStops.LateStopLeavesARowOpen | packages/assistant-core/src/assistant_core/tasks/runner.py:459-482 | a concrete run: a stop after the turn is saved and before the rows are closed leaves the other task's row open, since the sweep closes only its own fallback row |
| LateStops.StopAfterRaiseSpoilsARow | packages/assistant-core/src/assistant_core/tasks/runner.py:374-482 | a concrete run: a stop while the rows of a turn that raised are being failed has the step opened again, with one call answered as failed that was answered as a success before, and the two rows end apart |
| LogDelivery.SelectedRows | packages/assistant-core/src/assistant_core/conversation/event_stream.py:146-166 | a fetch returns the visible rows after the cursor, each once and in id order |
| LogDelivery.RunKeeps | packages/assistant-core/src/assistant_core/conversation/listen_hub.py:32-123 | the delivery invariant holds over every interleaving of commits, readers, dropped connections and re-listens |
| LogDelivery.WaitingReadersAreWoken | packages/assistant-core/src/assistant_core/conversation/event_stream.py:313-340 | no lost wake-up: a waiting reader with an undelivered row has a token queued, a notification on its way, or a re-listen pending |
| LogDelivery.YieldedIsAPrefix | packages/assistant-core/src/assistant_core/conversation/event_stream.py:299-340 | what a reader has yielded is always a prefix of the visible rows after its cursor, in order, with no gap and no repeat, once the rows that became visible below its cursor are set aside; those are never yielded |
| LogDelivery.QuietReadersAreCaughtUp | packages/assistant-core/src/assistant_core/conversation/event_stream.py:299-340 | a reader with nothing to fetch and no wake-up pending has yielded all of them |
| LogDelivery.InOrderNothingIsLate | packages/assistant-core/src/assistant_core/conversation/event_writer.py:18-44 | when rows become visible in id order, no row is ever set aside |
| LogDelivery.InOrderReadersSeeEveryRow | packages/assistant-core/src/assistant_core/conversation/event_stream.py:313-340 | and then a reader yields a prefix of all rows after its cursor, and all of them once quiet, across any number of dropped connections |
| Pairing.CollectIds | packages/assistant-core/src/assistant_core/conversation/history/pairing.py:25-48 | the called and the returned ids, and whether any id is called twice or answered twice |
| Pairing.DropOrphanAndDuplicateReturns | packages/assistant-core/src/assistant_core/conversation/history/pairing.py:51-78 | the history less the answers no call waits for and the repeated ones, and less the requests that leaves empty |
| Pairing.InjectPlaceholderReturns | packages/assistant-core/src/assistant_core/conversation/history/pairing.py:107-130 | each response's orphan calls are answered at the head of the request after it, inserted where there is none |
| Pairing.PairOrphans | packages/assistant-core/src/assistant_core/conversation/history/pairing.py:133-161 | the whole repair, or the history itself where nothing is wrong |
| Pairing.PairedCounts | packages/assistant-core/src/assistant_core/conversation/history/pairing.py:133-161 | for each id, how many calls, answers and returns the repair leaves |
| Pairing.RepairsExactlyWhenUnansweredOnce | packages/assistant-core/src/assistant_core/conversation/history/pairing.py:133-161 | every call has a return, every answer names a call and no id has two answers, if and only if no unanswered call id is called twice |
| Pairing.RepeatedUnansweredCallStaysBroken | packages/assistant-core/src/assistant_core/conversation/history/pairing.py:133-161 | the input that fails: two responses repeating one unanswered id end with two answers for it |
| Pairing.CleanedKeepsFirstAnswer | packages/assistant-core/src/assistant_core/conversation/history/pairing.py:51-78 | of several answers to one call the first is kept |
| Pairing.CleanedCounts | packages/assistant-core/src/assistant_core/conversation/history/pairing.py:51-78 | cleaning keeps every call and retried return, and one answer of each called id |
| Pairing.InjectedCounts | packages/assistant-core/src/assistant_core/conversation/history/pairing.py:107-130 | injecting adds one answer per orphan call and changes no other count |
| Pairing.PlaceholdersFollowTheirCalls | packages/assistant-core/src/assistant_core/conversation/history/pairing.py:107-130 | the message after a response opens with the placeholders of its orphan calls, in call order |
| Pairing.PlaceholdersAnswer | packages/assistant-core/src/assistant_core/conversation/history/pairing.py:81-104 | each placeholder answers its own call, by id and tool, with the fixed failure text and as no retry |
| Pairing.PairingKeepsEverythingElse | packages/assistant-core/src/assistant_core/conversation/history/pairing.py:133-161 | every part but the answers, and every response whole, stays in order |
| Pairing.CleanedIsSubsequence | packages/assistant-core/src/assistant_core/conversation/history/pairing.py:51-78 | the cleaned history, part by part, is a subsequence of the history: what survives keeps its order, answers included |
| Pairing.InjectingOnlyAddsPlaceholders | packages/assistant-core/src/assistant_core/conversation/history/pairing.py:107-130 | deleting the placeholders from an injected history gives back the history, part by part |
| Pairing.PairedIsInputLessParts | packages/assistant-core/src/assistant_core/conversation/history/pairing.py:133-161 | deleting its placeholders from the repaired history gives a subsequence of the input, answers and all |
| Pairing.RepairingTwiceExactlyWhenUnansweredOnce | packages/assistant-core/src/assistant_core/conversation/history/pairing.py:133-161 | a second repair changes nothing, if and only if no unanswered call id is called twice |
| Elision.OrderedToolCallIds | packages/assistant-core/src/assistant_core/conversation/history/elision.py:62-70 | the call ids in the order they were made |
| Elision.ElideReturnsInMessage | packages/assistant-core/src/assistant_core/conversation/history/elision.py:87-114 | the message with exactly its consumable answers shortened |
| Elision.ElideConsumed | packages/assistant-core/src/assistant_core/conversation/history/elision.py:73-84 | the history with the calls of the whole blocks shortened |
| Elision.ElidedExactly | packages/assistant-core/src/assistant_core/conversation/history/elision.py:73-114 | a part changes if and only if it is a plain answer of a call in the whole blocks, carries no file, is not elided yet and is long enough |
| Elision.ElidedReads | packages/assistant-core/src/assistant_core/conversation/history/elision.py:32-40 | what is left of such a part: the first 220 characters of what it rendered as, then the mark |
| Elision.ElisionOnlyShortens | packages/assistant-core/src/assistant_core/conversation/history/elision.py:87-114 | only the body of such a part changes, and it gets strictly shorter |
| Elision.RecentResultsStayWhole | packages/assistant-core/src/assistant_core/conversation/history/elision.py:73-84 | with distinct ids the last three calls' results stay whole |
| Elision.ElisionIsIncremental | packages/assistant-core/src/assistant_core/conversation/history/elision.py:73-84 | eliding an elided history with an extension gives what eliding the whole does |
| Elision.ElisionIsIdempotent | packages/assistant-core/src/assistant_core/conversation/history/elision.py:73-84 | eliding twice is eliding once |
| Elision.ElisionIsPrefixStable | packages/assistant-core/src/assistant_core/conversation/history/elision.py:73-84 | while no block edge is crossed the elided history is a prefix of the next one |
| Digest.KeepNewest | packages/assistant-core/src/assistant_core/conversation/history/compaction.py:258-280 | the lines the cap keeps: every user line, and others newest first until one would pass the budget |
| Digest.BuildDigest | packages/assistant-core/src/assistant_core/conversation/history/compaction.py:258-280 | the digest of the prior and the new lines, under the cap |
| Digest.DigestWithinCap | packages/assistant-core/src/assistant_core/conversation/history/compaction.py:258-280 | a digest is at most 4000 characters if and only if the whole one is, or the user's lines fit the budget |
| Digest.UserLinesCanPassTheCap | packages/assistant-core/src/assistant_core/conversation/history/compaction.py:186-280 | the input that fails: a history of thirty messages of the user, one word of 160 characters each, has a digest past its cap |
| Digest.CappedKeeps | packages/assistant-core/src/assistant_core/conversation/history/compaction.py:258-280 | the cap keeps every user line in order, and of the others the newest that fit |
| Digest.NewestWithinIsLongest | packages/assistant-core/src/assistant_core/conversation/history/compaction.py:267-280 | those are the longest newest suffix that fits |
| Digest.CapCutsOnce | packages/assistant-core/src/assistant_core/conversation/history/compaction.py:258-280 | there is one cut: before it only user lines are kept, after it every line, in order |
| Digest.BodyUndoesCapped | packages/assistant-core/src/assistant_core/conversation/history/compaction.py:210-221 | reading a digest back gives exactly the lines the cap kept |
| Digest.DigestReads | packages/assistant-core/src/assistant_core/conversation/history/compaction.py:210-280 | a digest is its opening, the mark that lines were left out if and only if the whole would pass 4000 characters, the kept lines, and its closing |
| DigestTells.DigestLinesTell | packages/assistant-core/src/assistant_core/conversation/history/compaction.py:159-207 | the lines are, in order, what the user said, what the model said and every call: its tool, the head of its arguments, and the last result recorded for its id, marked where it is to be tried again, or that none was recorded |
| DigestTells.CollapsedIsWords | packages/assistant-core/src/assistant_core/conversation/history/compaction.py:75-77 | a flattened text is its words with one space between them |
| Digest.DigestLinesAreCarriable | packages/assistant-core/src/assistant_core/conversation/history/compaction.py:186-207 | every generated line survives being read back, tool names being one line |
| Compaction.SplitTail | packages/assistant-core/src/assistant_core/conversation/history/compaction.py:123-156 | the start of the kept tail and its number of exchanges |
| Compaction.TailFitsBudget | packages/assistant-core/src/assistant_core/conversation/history/compaction.py:123-156 | with more than two exchanges the counted tail is within 4 x 50000 characters and three more per exchange; and no earlier exchange could have been kept too |
| Compaction.CompactHistory | packages/assistant-core/src/assistant_core/conversation/history/compaction.py:309-345 | the whole pass, guard included |
| Compaction.LeftAsItIsExactly | packages/assistant-core/src/assistant_core/conversation/history/compaction.py:288-345 | a history is left as it is if and only if it is estimated at 100000 tokens or fewer, does not begin and end with a request, has no exchange or no request between its head and its newest exchanges, or the guard refuses the pass |
| Compaction.HeadWithoutDigests | packages/assistant-core/src/assistant_core/conversation/history/compaction.py:224-240 | the head's own parts, and the lines of the digests it carries |
| Compaction.HeadKeepsItsOwn | packages/assistant-core/src/assistant_core/conversation/history/compaction.py:224-240 | of the head's own parts none is lost, repeated or moved |
| Compaction.CompactedShape | packages/assistant-core/src/assistant_core/conversation/history/compaction.py:288-345 | the result is the history, or its head with a digest and the dropped updates followed by an exact suffix that starts on a response after a request and ends on the last message |
| Compaction.GuardNeverFires | packages/assistant-core/src/assistant_core/conversation/history/compaction.py:332-333 | where every call is answered in the next message and every return answers the message before, the orphan guard never fires and the result is such a history again |
| Compaction.GuardFiresExactlyOnAStrayReturn | packages/assistant-core/src/assistant_core/conversation/history/compaction.py:283-345 | where every call is answered in the next message, the guard refuses a pass over an orphan-free history if and only if the head or the tail answers again a call that is dropped |
| Compaction.AnAnswerAgainStopsThePass | packages/assistant-core/src/assistant_core/conversation/history/compaction.py:332-333 | the input on which it fires: seven messages, the second exchange answering the first's call again; the pass leaves them as they are |
| Compaction.OneDigest | packages/assistant-core/src/assistant_core/conversation/history/compaction.py:224-240 | a compacted head carries exactly one digest |
| Compaction.CompactedHeadReadsBack | packages/assistant-core/src/assistant_core/conversation/history/compaction.py:219-240 | that digest reads back as the lines the cap kept of the prior and the new ones |
| Compaction.CompactionKeepsUpdates | packages/assistant-core/src/assistant_core/conversation/history/compaction.py:243-255 | the section updates of the history, whole and in order, survive the pass |
| Compaction.CompactionKeepsSayings | packages/assistant-core/src/assistant_core/conversation/history/compaction.py:224-280 | everything the user is recorded to have said survives the pass, in order, whatever the cap drops |
| Compaction.RunsForgetNothingSaid | packages/assistant-core/src/assistant_core/conversation/history/compaction.py:309-345 | both hold however often a growing run is compacted |
| HistoryPipeline.BriefingNow | packages/assistant-core/src/assistant_core/capabilities/stable_instructions.py:121-137 | the instructions with every update of the history applied in order |
| HistoryPipeline.BriefingFromUpdates | packages/assistant-core/src/assistant_core/capabilities/stable_instructions.py:121-137 | the briefing depends on the history's section updates alone |
| HistoryPipeline.Process | packages/assistant-core/src/assistant_core/conversation/history/__init__.py:1-22 | pairing, elision and compaction in their order |
| HistoryPipeline.ProcessingKeepsTheBriefing | packages/assistant-core/src/assistant_core/capabilities/stable_instructions.py:121-137 | the briefing read from the processed history is the one read from the whole history |
| HistoryPipeline.ConsumedAnswersComeOutElided | packages/assistant-core/src/assistant_core/conversation/history/__init__.py:1-22 | no answer to a consumed call comes out of the pipeline whole, and any other answer that comes out is as the repaired history held it |
| StableSections.RunSections.Read | packages/assistant-core/src/assistant_core/capabilities/stable_instructions.py:202-208 | a section read for the first time is as it renders, and read again it is the text the run first read |
| StableSections.RunSections.AfterToolExecute | packages/assistant-core/src/assistant_core/capabilities/stable_instructions.py:227-252 | the changed sections' updates, in the order the run read them, and every section's latest text |
| StableSections.ChangedAreSent | packages/assistant-core/src/assistant_core/capabilities/stable_instructions.py:227-252 | one update is sent for each section that renders as something else now, in the order they were read, with its whole text or its last heading; none for any other |
| StableSections.HeldNeverChanges | packages/assistant-core/src/assistant_core/capabilities/stable_instructions.py:202-208 | a section keeps the text the run first read, whatever happens later |
| StableSections.UpdatesKeepUpToDate | packages/assistant-core/src/assistant_core/capabilities/stable_instructions.py:227-252 | over every run, the texts first read with every sent update applied by name are the sections' latest texts |
| UpdateTexts.UpdateReadsBackExactly | packages/assistant-core/src/assistant_core/capabilities/stable_instructions.py:51-78 | an update's text is read back as the sections it was made of if and only if no separator begins inside one of them and the first begins with no newline |
| UpdateTexts.GoneReadsBack | packages/assistant-core/src/assistant_core/capabilities/stable_instructions.py:48-134 | the sentence that says a section is gone is read back as that section's heading |
| Briefings.ReplacedPuts | packages/assistant-core/src/assistant_core/capabilities/stable_instructions.py:81-118 | replacing a section of a briefing laid out in sections puts its latest text in its place, adds it at the end or takes it out, and leaves every other section as it was, where the next heading is of its level or higher |
| Briefings.TheNextIsKeptExactly | packages/assistant-core/src/assistant_core/capabilities/stable_instructions.py:81-118 | a section sent again leaves the one after it in the briefing if and only if that one's heading is of the same level or higher; otherwise it is cut out with the stale text |
| Briefings.CountsNameNothing | packages/assistant-core/src/assistant_core/capabilities/stable_instructions.py:47-82 | a parenthesis at a heading's end, which only counts, changes nothing of which section it names |
| RunBriefings.BriefingIsUpToDate | packages/assistant-core/src/assistant_core/capabilities/stable_instructions.py:121-252 | whatever a run reads and however its sections change, a history that carries its updates gives a briefing of every section in its latest text, none that is gone and nothing else; and so does that history paired, elided and compacted |
| TurnReducer.TurnAccumulator.ApplyToolChunk | packages/assistant-client-ts/src/core/reduceTool.ts:163-213 | one tool chunk through the tracker |
| TurnReducer.TurnAccumulator.ApplyToolSummary | packages/assistant-client-ts/src/core/reduceTool.ts:223-244 | a summary folded onto its call's track and part |
| TurnReducer.TurnAccumulator.ApplyDataChunk | packages/assistant-client-ts/src/core/reduce.ts:131-150 | a data part appended, or replaced through the index of its kind and id |
| TurnReducer.TurnAccumulator.ApplyStreamChunk | packages/assistant-client-ts/src/core/reduce.ts:83-129 | a streamed part opened, grown or closed through its index |
| TurnReducer.ReduceTurn | packages/assistant-client-ts/src/core/reduce.ts:265-269 | the turn a list of chunks reduces to |
| TurnReadings.PartsSayWhatTheStreamSays | packages/assistant-client-ts/src/core/reduce.ts:83-249 | on every stream the parts are those its chunks begin, each once and in order, and each says what the stream says of it: text up to a new start of its key, the last data of its kind and id, a call's first tool name, its last line, and the phase of its last move with the input, approval, answer or error given by then |
| TurnReadings.TurnSaysWhatTheStreamSays | packages/assistant-client-ts/src/core/reduce.ts:189-263 | and the turn has the last id and finish reason said, each metadata field from the last chunk that carries it, every error in order, and is aborted if and only if some chunk says so |
| LogReducer.FindFirst | packages/assistant-core/src/assistant_core/conversation/_chunk_state.py:158-171 | the linear scan: the first part that is wanted |
| LogReducer.ReducerState.UpsertToolPart | packages/assistant-core/src/assistant_core/conversation/_chunk_state.py:174-183 | a tool part patched where its call and flavour stand, else appended |
| LogReducer.ReducerState.SettleApproval | packages/assistant-core/src/assistant_core/conversation/_chunk_state.py:92-102 | the approval of a call answered or withdrawn |
| LogReducer.ReducerState.HandleTool | packages/assistant-core/src/assistant_core/conversation/_chunk_handlers.py:127-283 | one tool chunk through its handler |
| LogReducer.ReducerState.HandleData | packages/assistant-core/src/assistant_core/conversation/_chunk_handlers.py:349-362 | a data part replaced where a scan finds its kind and id, else appended |
| LogReducer.ReduceChunks | packages/assistant-core/src/assistant_core/conversation/ui_message_reducer.py:17-24 | the message a list of chunks reduces to |
| LogReadings.PartsSayWhatTheStreamSays | packages/assistant-core/src/assistant_core/conversation/_chunk_handlers.py:28-400 | on every stream that calls no tool dynamic in one chunk and static in another, the same of the server's parts: text until the part is shut by its end, a finished step or a new start; a call's name, state, last input, refused input, output and error, its approval asked, answered or withdrawn, and its last admitted line |
| LogReadings.MessageSaysWhatTheStreamSays | packages/assistant-core/src/assistant_core/conversation/_chunk_handlers.py:295-323 | and its id, finish reason and metadata are the last said, field by field |
| LogReadings.SummaryGives | packages/assistant-core/src/assistant_core/conversation/_chunk_handlers.py:326-346 | a summary gives a call a line if and only if it is not transient, its status is known or absent, and its text is one line of plain characters that does not end in a full stop, its words at most 120 characters |
| ReducersAgree.Step | packages/assistant-client-ts/src/core/reduceTool.ts:163-256 | one allowed chunk keeps the two reducers' states tied: index maps against scans |
| ReducersAgree.ReducersAgree | packages/assistant-core/src/assistant_core/conversation/_chunk_handlers.py:28-400 | on every well-formed stream both reducers show the same parts in the same order: texts, data, call states, approvals, summaries, errors, and those answers and inputs that are not an empty one after another; and the same metadata, finish reason and named id |
| ReducersAgree.InvocationFound | packages/assistant-core/src/assistant_core/conversation/_chunk_state.py:85-89 | a scan for a call ends where the tracker's index points |
| ReducersAgree.DataPartFound | packages/assistant-core/src/assistant_core/conversation/_chunk_handlers.py:356-361 | a scan for a data part ends where the index of its kind and id points |
| ReducersAgree.DenialNeedsARequest | packages/assistant-core/src/assistant_core/conversation/_chunk_handlers.py:232-237 | why streams are restricted: a denial with no approval request shows on the server's side only |
| ReducersAgree.ErrorNeedsAnOpenCall | packages/assistant-core/src/assistant_core/conversation/_chunk_handlers.py:190-219 | an input error on a call never opened opens it on the server's side only |
| ReducersAgree.DeltaNeedsAnOpenPart | packages/assistant-core/src/assistant_core/conversation/_chunk_handlers.py:40-57 | a delta after its part was closed is read on the client's side only |
| ReducersAgree.CallsOpenOnce | packages/assistant-client-ts/src/core/reduceTool.ts:170-173 | a call started again after its input goes back to streaming on the server's side only |
| EmptyParts.EmptyPartGate.Admit | packages/assistant-core/src/assistant_core/conversation/empty_parts.py:26-37 | what one chunk lets through, and what the gate then holds |
| EmptyParts.NoEmptyPartIsLogged | packages/assistant-core/src/assistant_core/conversation/empty_parts.py:15-37 | every start let through is followed at once by a delta of its part |
| EmptyParts.NoneMistakenExactlyWhenKindsMatch | packages/assistant-core/src/assistant_core/conversation/empty_parts.py:26-37 | that delta is of the start's own kind, for every start, if and only if no delta of the stream comes right after the start, under its id, of a part of the other kind |
| EmptyParts.AStartCanBeMistaken | packages/assistant-core/src/assistant_core/conversation/empty_parts.py:26-37 | the input that fails: a reasoning delta lets a text start of its id through |
| EmptyParts.EverythingElseIsLogged | packages/assistant-core/src/assistant_core/conversation/empty_parts.py:26-37 | every chunk that is no start and no end passes unchanged and in order |
| EmptyParts.DroppedInPairs | packages/assistant-core/src/assistant_core/conversation/empty_parts.py:26-37 | starts and ends of a part are dropped in pairs |
| SubAgentSteps.MergeSubAgentSteps | packages/assistant-client-ts/src/core/subAgentSteps.ts:65-102 | the items a list of steps merges into, looked up through an index map |
| SubAgentSteps.OneItemPerCall | packages/assistant-client-ts/src/core/subAgentSteps.ts:65-102 | every tool step has an item under its key, and no two items share one |
| SubAgentSteps.KeysComeFromSteps | packages/assistant-client-ts/src/core/subAgentSteps.ts:65-102 | every tool item bears the key of one of the steps |
| SubAgentSteps.ItemsTellTheirSteps | packages/assistant-client-ts/src/core/subAgentSteps.ts:65-102 | the items are the steps that begin one, in order: a call's item has its first step's key and tool, its last step's state, and the last arguments, output and result any of its steps gave |
| Trace.Walker.Visit | packages/assistant-client-ts/src/core/trace.ts:199-266 | one part visited: a run closed, a group grown, a line recorded |
| Trace.Walker.CloseRun | packages/assistant-client-ts/src/core/trace.ts:177-191 | the open run finalized, and dropped where it holds nothing |
| Trace.BuildTrace | packages/assistant-client-ts/src/core/trace.ts:314-331 | the traces of a message, closed dispatches and lines applied |
| TraceRows.CallsAreShownExactly | packages/assistant-client-ts/src/core/trace.ts:108-145 | the lead rows of the traces are the message's calls, each once and in order, if and only if no dispatch under the lead's own key shares a call's group. A row awaits, is denied, runs or has failed exactly as its call's phase says, is corrected, empty or warns exactly as its line says too, and shows the call's input, answer, error and last line |
| TraceRows.RunsExactlyWhileARowDoes | packages/assistant-client-ts/src/core/trace.ts:269-284 | a trace runs if and only if a row of it runs or awaits an approval |
| TraceGroups.WordsCutTheWork | packages/assistant-client-ts/src/core/trace.ts:177-264 | words cut a message: the runs on either side of them are those of each side by itself |
| TraceGroups.StretchesAreShown | packages/assistant-client-ts/src/core/trace.ts:147-331 | a stretch of a message without words is one trace if and only if it holds a figure, a call or a sub-agent's call: its figures in order, a group for every run of parts under one key with what that key's dispatches last said, and in a sub-agent's group a row for each call its steps began, in order, showing the last step's state, stopped where the turn ended without the dispatch |
| TraceGroups.SubAgentRowsShow | packages/assistant-client-ts/src/core/trace.ts:147-164 | the rows of a sub-agent's group: running, denied, failed, corrected or answered exactly as the call's last step says, stopped exactly where a started call's dispatch was closed |
| Trace.FoldedReadsAsBeside | packages/assistant-client-ts/src/core/trace.ts:238-284 | a message reads the same with each summary folded onto its call as with it left beside, when no sub-agent step reuses a summarised id |
| FoldedStreams.StreamsReadTheSame | packages/assistant-client-ts/src/core/reduceTool.ts:223-244 | on streams: the trace of the turn a stream reduces to is that of the turn of the stream without its summaries, with those summaries beside its calls wherever they stand, when each names an open call and no sub-agent step reuses its id |
| ConversationLog.Frames | packages/assistant-core/src/assistant_core/conversation/event_stream.py:393-430 | one read of the log: valid non-envelope rows after the cursor, up to the end of a turn |
| ConversationLog.TailsCoverTheWire | packages/assistant-core/src/assistant_core/conversation/event_stream.py:393-430 | followed turn after turn, the tails are every frame after the cursor, each once and in order |
| ConversationLog.FetchSnapshot | packages/assistant-core/src/assistant_core/conversation/event_stream.py:230-260 | a snapshot holds a row if and only if it is in the log, is valid and has an id at most the snapshot's cursor, prompts included, in id order; its open message is the one those rows leave open, and the tail from that message's cursor begins with its start |
| ConversationLog.BoundaryMeans | packages/assistant-core/src/assistant_core/conversation/event_stream.py:191-219 | the boundary is a prompt's row exactly when a prompt follows the last done, and else the last done |
| ConversationLog.BoundaryIsExactly | packages/assistant-core/src/assistant_core/conversation/event_stream.py:191-219 | which row that is: the first prompt after the last done where one follows, else the last done, and nought only where no turn has ended |
| ConversationLog.InFlightExactlyWhenPromptUnderWay | packages/assistant-client-ts/src/core/snapshot.ts:35-42 | a snapshot reads as in flight if and only if a prompt follows the last done, the boundary row being valid |
| ConversationLog.SnapshotThenTailsIsTheLog | packages/assistant-core/src/assistant_core/conversation/event_stream.py:230-260 | snapshot and then tails are every frame of the log, each once, however much it grew in between |
| ConversationLog.OpenMessageOf | packages/assistant-core/src/assistant_core/conversation/ui_message_reducer.py:61-79 | the message a log leaves open, and the cursor before its start |
| ConversationLog.OpenExactly | packages/assistant-core/src/assistant_core/conversation/ui_message_reducer.py:61-79 | a message is left open if and only if a start names it and nothing after that closes it or starts another |
| ConversationLog.TailMeetsItsStart | packages/assistant-core/src/assistant_core/conversation/ui_message_reducer.py:61-79 | the tail from an open message's cursor begins with that message's own start, however much the log grew |
| CursorStore.MemoryCursorStore.RecordFrameCursor | packages/assistant-client-ts/src/core/cursor.ts:40-59 | one thread's record after a frame; no other thread's changes |
| CursorStore.ClientAgreesWithServer | packages/assistant-client-ts/src/core/cursor.ts:26-59 | from an empty store the client names the message the server names; its cursor is no later than the server's, which is before the start that opened the message |
| CursorStore.ClientTailMeetsItsStart | packages/assistant-client-ts/src/core/cursor.ts:32-38 | the tail the client asks for holds the start that opened its message |
| Resume.TailChain | packages/assistant-client-ts/src/ai-sdk/DurableChatTransport.ts:151-177 | what is yielded is a chain of the host's responses: every one but the last ended on a done past its request with the message still open by what was yielded so far, and the last did not, or its host has no more; ids being bounded it ends; from a host that keeps to the log it is a prefix of the frames after the cursor |
| WholeChains.ChainIsWhole | packages/assistant-client-ts/src/ai-sdk/DurableChatTransport.ts:151-177 | from a host that serves whole tails, the chain is every frame after the cursor up to the turn that closes the message |
| Resume.AcceptedPayloads | packages/assistant-client-ts/src/ai-sdk/DurableChatTransport.ts:180-248 | what one read writes, holds and records |
| Resume.ReadTakesPayloads | packages/assistant-client-ts/src/ai-sdk/DurableChatTransport.ts:180-248 | what a read takes is what the frames carry from the awaited start up to the held one |
| Resume.StreamsCarryOneMessage | packages/assistant-client-ts/src/ai-sdk/DurableChatTransport.ts:226-239 | every start in one stream names one message |
| Resume.PrefixIsOneWrite | packages/assistant-client-ts/src/ai-sdk/DurableChatTransport.ts:189-206 | the prefix the client already holds goes out as one write, and each later row as its own |
| Resume.ReadRecords | packages/assistant-client-ts/src/ai-sdk/DurableChatTransport.ts:221 | every frame from the awaited start on is recorded, a held start by both reads to the same effect |
| Resume.ResumeThread | packages/assistant-client-ts/src/ai-sdk/resumeDurableThread.ts:40-51 | the reads of a resume, each after the first for the turn the last one held |
| Resume.ResumePartitionsTheTail | packages/assistant-client-ts/src/ai-sdk/DurableChatTransport.ts:180-293 | the streams together write every payload from the awaited start on, each once and in order, one message a stream, the held prefix as one write, and leave the record of one uninterrupted read |
| Resume.ResumeIsWholeExactly | packages/assistant-client-ts/src/ai-sdk/DurableChatTransport.ts:180-293 | from a client that holds a cursor, the streams write the whole tail if and only if no other message starts between its own start and that cursor and the chain reaches it |
| Reconnect.ReconnectToStream | packages/assistant-client-ts/src/ai-sdk/DurableChatTransport.ts:265-293 | from a client's own record of a log, however much the log has grown: of a host that keeps to the log, the chain is a prefix of it; of one that serves whole tails, it runs up to the turn that closes the message and reaches the client's cursor, and then, where no message returns, the streams write every payload from the client's own start on, once and in order, one message a stream |
| Reconnect.WholeChainReaches | packages/assistant-client-ts/src/ai-sdk/DurableChatTransport.ts:151-177 | a chain of whole tails reaches the cursor of a client whose message is open |
| Reconnect.ReconnectReadsTheLog | packages/assistant-client-ts/src/ai-sdk/DurableChatTransport.ts:265-293 | the same of any chain; and a chain with something of the client's message that does not reach its cursor is not written whole |
| Reconnect.AReturningMessageIsNotWhole | packages/assistant-client-ts/src/ai-sdk/DurableChatTransport.ts:207-211 | the log that fails: a message started again after another is not read back whole |
| Frames.ParseFrame | packages/assistant-client-ts/src/core/sse.ts:43-61 | one frame parsed, or refused with its text |
| Frames.ReadFrames | packages/assistant-client-ts/src/core/sse.ts:73-100 | however a text is cut into reads, the same frames come of it and the same error ends it |
| FrameReadings.ParsedExactly | packages/assistant-client-ts/src/core/sse.ts:43-61 | a frame is a comment if and only if every line is one; else an event if and only if every line is a cursor in digits or a payload and both are there, with what the last line of each says; else it is refused with its text |
| FrameReadings.DeliveredExactly | packages/assistant-client-ts/src/core/sse.ts:73-100 | any text is cut at its first empty lines; the pieces before the first that is no frame are delivered in order, and the error is that piece's text, or what no empty line ends where no truncated tail is allowed, or none |
| Frames.ReadOn | packages/assistant-client-ts/src/core/sse.ts:84-93 | reading on from what no terminator ended is reading the whole |
| Frames.ReadingUndoesWriting | packages/assistant-client-ts/src/core/sse.ts:34-100 | reading what was written, event frames and comments, gives exactly the frames written |
| Frames.WrittenParses | packages/assistant-core/src/assistant_core/conversation/event_stream.py:433-439 | a written frame parses as itself |
| Frames.ParseUndoesDecimal | packages/assistant-client-ts/src/core/sse.ts:34-41 | a printed cursor parses as itself |
| Frames.FramesCoverTheText | packages/assistant-client-ts/src/core/sse.ts:84-93 | the frames' own texts and the unread rest are the text |
| RepetitionGuard.ToolRepetitionGuard.Check | packages/assistant-core/src/assistant_core/capabilities/repetition_guard.py:148-194 | the answer to one call; afterwards every field is what the history of calls says |
| RepetitionGuard.ToolRepetitionGuard.CheckCap | packages/assistant-core/src/assistant_core/capabilities/repetition_guard.py:196-219 | the cap's answer, given exactly when the tool's count passes its cap |
| RepetitionGuard.NewGuard | packages/assistant-core/src/assistant_core/capabilities/repetition_guard.py:113-117 | a guard, unless a cap is negative |
| RepetitionGuard.RefusesExactly | packages/assistant-core/src/assistant_core/capabilities/repetition_guard.py:148-219 | a call is refused by its cap if and only if the calls of its tool are more than the cap, with their number; else by the repetition rule if and only if it ends a run of the threshold's length of the same read among the calls no cap refused, with the length of the run |
| RepetitionGuard.StreakIsLongestRun | packages/assistant-core/src/assistant_core/capabilities/repetition_guard.py:172-182 | a streak is the longest run of equal read-only calls, over the calls no cap refused |
| RepetitionGuard.EscalatesAfterTheWarning | packages/assistant-core/src/assistant_core/capabilities/repetition_guard.py:183-194 | a call escalates if and only if its step is later than its rule's first block |
| RepetitionGuard.CapWarnedIsFirst | packages/assistant-core/src/assistant_core/capabilities/repetition_guard.py:211 | the cap's warning remembers the tool's first call past its cap |
| RepetitionGuard.StopsAtFirstEscalation | packages/assistant-core/src/assistant_core/capabilities/repetition_guard.py:143-146 | the run stops at the first escalated call that has an id, by the rule that refused it |
| RepetitionGuard.RefusalsAreCounted | packages/assistant-core/src/assistant_core/capabilities/repetition_guard.py:119-121 | the counter is the number of refused calls |
| Redaction.WithoutRuns | packages/mcp-conformance/src/mcp_conformance/_report.py:77-95 | the text with a marker for every run of the value |
| Redaction.Redact | packages/mcp-conformance/src/mcp_conformance/_report.py:98-103 | the text after every credential's two passes |
| Redaction.CredentialIsGone | packages/mcp-conformance/src/mcp_conformance/_report.py:98-103 | a credential of the list, of any length, that touches no marker is nowhere in what is left |
| Redaction.CredentialLeftExactlyWhenTouching | packages/mcp-conformance/src/mcp_conformance/_report.py:98-103 | a credential of 1 to 16 characters can be left by some text and list that holds it if and only if it agrees with a marker laid across it |
| Redaction.LongCredentialIsGone | packages/mcp-conformance/src/mcp_conformance/_report.py:98-103 | a credential is nowhere left if some run of 16 of its characters touches no marker |
| Redaction.AngleFreeCredentialIsGone | packages/mcp-conformance/src/mcp_conformance/_report.py:98-103 | a credential of nine characters or more and free of angle brackets is nowhere left |
| Redaction.NoRunSurvives | packages/mcp-conformance/src/mcp_conformance/_report.py:98-103 | no run of any credential is left, whatever the list, unless it can be read across a marker; and what is left was there before |
| Redaction.SurvivesExactlyWhenTouching | packages/mcp-conformance/src/mcp_conformance/_report.py:98-103 | a 16-character run can survive some text and list of credentials if and only if it agrees with a marker laid across it |
| Redaction.TouchingRunSurvives | packages/mcp-conformance/src/mcp_conformance/_report.py:98-103 | the text and credentials with which such a run survives |
| Redaction.AngleFreeCredentialsAreGone | packages/mcp-conformance/src/mcp_conformance/_report.py:98-103 | no run of a credential free of angle brackets is left |
| Redaction.CutsAreRuns | packages/mcp-conformance/src/mcp_conformance/_report.py:86-95 | only runs of the value are cut, each at least 16 characters |
| Redaction.RunEndIsRun | packages/mcp-conformance/src/mcp_conformance/_report.py:90-92 | each cut is a run of the value as long as it can be: with the next character it is none |
| Redaction.CleanTextIsKept | packages/mcp-conformance/src/mcp_conformance/_report.py:98-103 | a text that holds no credential and no run of one comes back as it was |

## Left out

- Exceptions that escape before the host's driver is called: the completion turn is modelled from the gathering of its answers on.
- A chat turn that dies while it dispatches, before its step is parked: the rows it made stay as they are, and no step of the protocol model starts there.
- A deleted conversation, a task with no owner, and quota or ownership checks: rows are there and owned once dispatched.
- DurableRuns.CanGoOn: fairness is not modelled, so it says a step is enabled and not that it is taken.
- LogDelivery: opening the hub's connection is one step; closing the hub for good, and a `LISTEN` that fails and is retried after a delay, are not modelled, nor are polling intervals and keep-alives.
- The listen hub's queues and connections are values of a step system and not objects, so aliasing of one queue by two readers is not captured.
- A chunk's missing required fields, `providerMetadata`, `title`, `providerExecuted` and `preliminary`: chunks carry the fields the protocol requires and those both reducers read.
- ReducersAgree.ReducersAgree: a file's name is not compared, since the server's reducer drops it, and neither are errors and the aborted flag, which only the client's keeps.
- ReducersAgree.ReducersAgree: an input still streaming is not compared, since the server shows it parsed and the client as text; nor is an empty input or answer after another one, which only the client's reducer takes.
- The server's reducer keeps open parts by reference; the model keeps where they stand, which no handler changes.
- FoldedStreams.StreamsReadTheSame: a summary that names a call the stream has not opened is out of its hypothesis, since the reducer drops it. Reading a data part's JSON is not modelled.
- Threads rebuilt from a snapshot (withdrawn prompts, repeated ids) and the host's message list during a resume: easy members beside the partition of the tail.
- Aborted reads, HTTP status codes and headers, Web Storage: a response is its frames or nothing, and a chain is told whether to go on.
- Frames.ReadFrames: reads are characters already decoded, so a UTF-8 sequence cut between two reads is not modelled, and cursors are unbounded where the client's numbers are doubles.
- RunBriefings.BriefingIsUpToDate: the rewriting of updates as system notes on the wire, and the notes of earlier runs it drops, are not modelled.
- JSON rendering, SHA-256 and partial JSON parsing: values carry their text, a fingerprint is 16 characters equal exactly where arguments are, the parser is a parameter.
- Resume.AcceptedPayloads: chunks a client does not know are skipped; the callback that reports them is not modelled.
- SQL, sessions, the log's turn ids and telemetry: a table is a map or a sequence of rows, and a commit is one step.
- Redaction.LongCredentialIsGone: of a credential longer than 16 characters of which every run touches a marker it is not said whether some text leaves it.
- LogReadings.PartsSayWhatTheStreamSays: a call whose tool is dynamic in one chunk and static in another has two parts on the server's side, which is out of its hypothesis.
- Registries, settings, admission verdicts and check ids: true by reading one branch.
