# OnClaw in Dafny

A verified model of the stateful cores of OnClaw and of its benchmark harness. Each module
follows one component: its values, the functions that say what the component computes, the
loops and objects of the Go code proved against those functions, and the theorems about them.

- `TaskResults`, `Journal`, `RowJson`, `Executor` — the benchmark executor. Tasks × seeds run
  with a retry budget; every finished slot is one line of a journal; a resuming run skips final
  rows and measures infra rows again; a circuit breaker takes a dead provider's streak out of
  memory and file. The main theorem covers any sequence of runs, however each ended.
- `Normalize`, `GraderLint` — text normalisation, the substring graders, and the lint over
  them. A lint-clean task is solvable exactly when no forbidden token normalises to nothing.
- `EventStream`, `TaskProgress`, `ProgressHub`, `RunManager` — bounded event streams, resumable
  reads of a task's event log, the progress hub and the live-run manager. The last two are
  transition systems: every critical section that changes something is one step, subscribing
  and closing included, and the invariants hold in every interleaving. For the hub exactly the
  orderly steps keep them, and each subscriber's view is stated.
- `Attachments` — a user message with attachments: built, stripped of its bytes when persisted,
  collapsed to placeholders in later turns, and shown the same in the transcript throughout.
- `SessionAppend`, `HistoryWindow`, `HistoryTurns`, `SessionWindow` — the append-only session
  log: appending keeps it one strict order, windows over exactly such logs stitch together, the
  projection closes turns with their usage objects, rightly or not, as determined for every log,
  and the model's window is rebuilt from the last compaction.
- `DrainEvents`, `StoredTurns` — the live side of a turn: which terminal event it ends with, what
  is told of every event in between, deltas and completed messages saying the same; and what of
  it is read back from the log.
- `ConnectionPath` — binding arguments into a path template and the check that the URL stayed
  where the template pinned it.
- `PdfScanner`, `ReferenceManifest` — a skipping scanner against a plain count, and a byte
  budget with its overrun and the exact condition for keeping it.
- `Scoreboard`, `TaskList` — aggregation, the gate and its derived limits, and merging three
  sources of evidence; all of them independent of map iteration order.
- `Sequences`, `Sorting`, `Text` — lists, ordering and the parts of Go's `strings` package used.

The code is followed where it and its comments disagree. Each such place has its exact
condition, for all inputs, and where it helps a concrete input:

- A forbidden token that normalises to nothing (a lone backtick) passes the lint and is found
  in every answer (`bench/suite/lint.go:203-211`): `GraderLint.BacktickIsUnsolvable`,
  `GraderLint.CleanTaskIsSolvable`.
- A row appended behind text that lost its newline runs into it; the next resuming run may find
  the journal unreadable, and a breaker that takes all rows of the run back takes the older row
  with them: `Journal.LoadAfterAppendIff`, `Journal.LoadAfterGluedAppend`,
  `RowJson.LostNewlineMakesUnreadable`, `Executor.TornRunLeaves`.
- A progress subscriber can attach after the end-of-run sweep, because the run's done channel
  is read before the hub's lock is taken. Nothing ends its stream any more, although
  `internal/agents/runmanager.go:121-127` promises that every progress subscriber drains to its
  end: it is closed exactly when a caller that looked the run up before its end unfollows the
  stream's number. `RunManager.LateStreamIsReachable`, `RunManager.ProgressStreamCloses`,
  `RunManager.LateStreamIsTakenIff`, `RunManager.LateStreamCanCloseIff`.
- A stream is named by a number that starts again in every run, and the session's run is looked
  up anew when a client leaves (`internal/agents/taskprogress.go:124-145`,
  `internal/agents/runmanager.go:195-202`, `internal/server/handlers/agent_tasks.go:269-273`). A
  client of an earlier run can so take out another client's stream, in time or late; it takes
  its own or none exactly in its own run or where the number is free:
  `RunManager.StaleNumberClosesAnothersStream`, `RunManager.StaleNumberClosesALateStream`,
  `RunManager.UnfollowTakesOwnIff`, `RunManager.UnsubscribeTakesOwnIff`.
- A notification handled again after a task's terminal one breaks its frames, exactly when
  anything more is fanned for it: `ProgressHub.StepKeepsIff`, `ProgressHub.EndedStaysRightIff`,
  `ProgressHub.RedeliveryRepeats`.
- Run-level rows have no turn id and take part in the turn boundaries, although
  `internal/agents/runner.go:1653-1655` says they do not disturb them, and the had-events flag
  stays up behind them and behind interrupted turns. A full read is right exactly when no turn
  shows something, is not interrupted and shows something again behind other rows, no silent
  stretch of a turn that is not interrupted inherits the flag, and no such turn is first charged
  behind the last stretch in which it shows something:
  `HistoryTurns.FullReadIsIdealIff`, `HistoryTurns.OneCompletionPerTurn`,
  `HistoryTurns.ChipRowSplitsATurn`, `HistoryTurns.ChipRowCompletesASilentTurn`.
- A window, backward or forward, completes turns from its own rows alone: the one it begins
  inside, those within, and without a next page the one it ends in. The full read has the same
  terminal behind that stretch exactly when no row outside the window, up to the end of the
  stretch, interrupts the turn and both terminals tell the same cost. When the turn's rows stand
  together the window tells what the turn cost inside it, and that is right exactly when no row
  outside interrupts the turn and its cost in the whole log is the same:
  `HistoryTurns.WindowTerminalIff`, `HistoryTurns.WindowCompletionIsGenuineIff`,
  `HistoryTurns.WindowBeginsInsideTurn`.
- Paging rebuilds a log at every page size exactly when no two rows share a sequence number, and
  two appends at once would make two share one: `HistoryWindow.PagingBackRebuildsIffStrict`,
  `HistoryWindow.PagingOnRebuildsIffStrict`, `HistoryWindow.TiedRowIsSkipped`,
  `SessionAppend.RacingAppendsTie`.
- Reasoning streamed without text is carried by the next message that has some, although
  `internal/agents/runner.go:2669-2671` calls it the current message's; a call is finished once
  for its result messages and once more for each of its span ends:
  `DrainEvents.CarriesItsOwnReasoningIff`, `DrainEvents.FinishedAtMostOnceIff`.
- A span that is the first to mention a call shows it without arguments, and no later mention
  mends that, although `internal/agents/runner.go:2681-2685` keeps a stash for such a span to
  join: where arguments are on record the call has been started already:
  `DrainEvents.StartedAsFirstMentioned`, `DrainEvents.TurnIsTold`.
- A message of nothing but white space, or of a tool, is shown live and not when read back,
  although `internal/agents/history.go:252-253` says that the read mirrors the live guard:
  `StoredTurns.LiveMessageIsReadBack`.
- The demotion trims and lowers a role before it compares it and the collapse does not; no
  message built here has a role on which they differ: `Attachments.LaterTurnsSeePlaceholders`.
- The manifest can exceed its budget with no bare name in it, although
  `internal/agents/references_manifest.go:53-54` allows that only for a bare name; every cut
  description exceeds it: `ReferenceManifest.CollapsedFitsIff`,
  `ReferenceManifest.BlockKeepsBudgetIff`, `ReferenceManifest.FiveBytesOver`.
- A segment of two placeholders, or of a placeholder and a dot, can be made to climb by accepted
  values, and no other segment can: `ConnectionPath.CanTraverseIff`,
  `ConnectionPath.TraversesIffDotPair`.
- The base path is decoded when the connection is set up and then joined and parsed again
  (`internal/agents/connection_tools.go:345`, `:476`), and the root check compares the root
  undecoded with the decoded path. A base path with a decoded `?` or `#`, as that of
  `https://h/a%3Fb`, refuses every call, and so does a control character in the base path or the
  template, which the parser takes nowhere. A root whose first escape is not an escaped percent
  sign refuses every call; behind one that is, the values must repeat the bytes that decoding
  took away: `ConnectionPath.PlainRootPassesIff`, `ConnectionPath.EscapedRootPassesIff`,
  `ConnectionPath.RootCheckIff`, `ConnectionPath.FirstEscapeDecides`,
  `ConnectionPath.OneEscapeRoot`.
- The wrapping script counts an unknown status as a failed trial and the scoreboard ignores it:
  `Scoreboard.UnknownStatusCountsDifferently`.

## Model

| member | source | states |
|---|---|---|
| Journal.DecimalInjective | bench/runner/runner.go:452-454 | printed seeds are equal only for equal seeds |
| Journal.SlotKeyInjective | bench/runner/runner.go:452-454 | two slots never share a key, whatever characters the task ids hold |
| Journal.NonBlankLines | bench/runner/runner.go:510-515 | the line loop gives exactly the entries of the text |
| Journal.EntriesOfAppend | bench/runner/runner.go:486-498 | appending a line to a text that ends a line adds exactly that entry, or none if it is blank |
| Journal.EntriesOfTruncate | bench/runner/runner.go:502-524 | after truncating by n the text has its entries without the last n, and ends a line |
| Journal.LoadAfterAppendIff | bench/runner/runner.go:460-498 | loading after an append gives the rows loaded before and the new one exactly when only white space stands behind the last newline |
| Journal.LoadAfterAppends | bench/runner/runner.go:460-498 | any number of appends to such a text adds their rows to what it loads |
| Journal.LoadInvertsPrint | bench/runner/runner.go:460-498 | any rows printed one after the other load back in order |
| Journal.LoadAfterTruncate | bench/runner/runner.go:502-524 | loading after truncating by n gives the rows loaded before without the last n |
| Journal.TruncateComposes | bench/runner/runner.go:502-524 | truncating by a and then b is truncating by a + b, and it saturates at the empty text |
| Journal.LoadAfterGluedAppend | bench/runner/runner.go:460-498 | otherwise the last row and the new one share a line: they load as one row or make the journal unreadable |
| Journal.ProgressFile.constructor | bench/runner/runner.go:466-468 | a new journal file is absent and empty |
| Journal.ProgressFile.Load | bench/runner/runner.go:460-483 | gives the rows of the text or the malformed line, and the done-set of those rows |
| Journal.ProgressFile.Append | bench/runner/runner.go:486-498 | the text grows by one printed line, and the loaded rows by that row exactly when nothing was left unended |
| Journal.ProgressFile.Truncate | bench/runner/runner.go:502-524 | the loaded rows lose their last n; an absent file stays absent |
| Journal.ProgressFile.Remove | bench/runner/runner.go:562-566 | the journal is absent and empty |
| RowJson.EscapeRoundTrip | bench/runner/runner.go:487-490 | reading an escaped string gives it back and what follows its quote, and it holds no newline |
| RowJson.NumberRoundTrip | bench/runner/runner.go:487-490 | reading a printed integer gives it back and what follows |
| RowJson.RowRoundTrip | bench/runner/runner.go:475-490 | parsing a printed row gives the row, with all its fields |
| RowJson.PrintIsOneLine | bench/runner/runner.go:487-498 | a printed row is one line with nothing to trim |
| RowJson.RowJsonIsLawful | bench/runner/runner.go:475-490 | the journal's codec laws hold of this printer and parser |
| RowJson.LostNewlineMakesUnreadable | bench/runner/runner.go:475-498 | a journal whose last row lost its newline loads, and is unreadable after one more append |
| Executor.BackoffDelay | bench/runner/runner.go:641-652 | the loop computes the smaller of base × 2^attempt and the cap |
| Executor.FinalAttempt | bench/runner/runner.go:625-639 | the attempt kept is the first that is not infra, or the last the budget or the context allows |
| Executor.MeasuredAsAttempted | bench/runner/runner.go:625-639 | a measured row bears its slot and what the kept attempt gave; every attempt before it was retried and it was not |
| Executor.ExecuteWithRetries | bench/runner/runner.go:625-639 | the retry loop returns the row of that attempt |
| Executor.StepAccounts | bench/runner/runner.go:587-615 | one slot keeps results and journal in step with what was measured, or stops accounted for |
| Executor.DriveAccounts | bench/runner/runner.go:578-622 | however the loop ends, results and journal are the prior rows and the measured rows it should keep |
| Executor.DriveMeasures | bench/runner/runner.go:578-622 | a run measures a prefix of its pending slots in order, and all of them when it completes |
| Executor.RunAccounts | bench/runner/runner.go:536-623 | both of these for one run from any journal |
| Executor.JournalExtends | bench/runner/runner.go:536-623 | a run leaves the journal it started from with some of its own rows appended |
| Executor.FinalRowsStay | bench/runner/runner.go:536-623 | over any resuming runs the journaled pass and fail rows stay, as a prefix |
| Executor.FinalSlotsAreNotRemeasured | bench/runner/runner.go:545-586 | no slot with a journaled pass or fail row is measured by any later resuming run |
| Executor.MeasuredIsPending | bench/runner/runner.go:548-587 | whatever a resuming run measures had no final row |
| Executor.MeasuredRows | bench/runner/runner.go:578-591 | the rows a run measures have distinct keys, belong to the plan and clash with no prior final row |
| Executor.RunKeepsInv | bench/runner/runner.go:536-623 | every run keeps: all rows of the plan, final rows with distinct keys |
| Executor.HistoryKeepsInv | bench/runner/runner.go:536-623 | so does every sequence of runs |
| Executor.CompletedCovers | bench/runner/runner.go:536-623 | a completed resuming run has a row for every planned slot |
| Executor.ResumeCompletes | bench/runner/runner.go:536-623 | after any aborted runs a completed resuming run returns exactly one row per slot and keeps the final rows |
| Executor.PlanKeysDistinct | bench/runner/runner.go:578-586 | task ids unique across the suites give every slot its own key |
| Executor.BreakerTakesTheStreak | bench/runner/runner.go:596-612 | a trip takes exactly the trailing dead streak from results and journal |
| Executor.PendingIff | bench/runner/runner.go:545-586 | the slots still to measure are those of the plan whose journaled rows, if any, are all infra errors |
| Executor.RunEndsIff | bench/runner/runner.go:578-622 | over the pending slots and the world alone: a run completes, having measured all of them, exactly when no slot stops it; otherwise it measures up to the first slot whose append fails, after which the context is done, or at which the last six measured rows are dead, and ends as that slot says: append failed, context done, breaker tripped, or truncation failed |
| Executor.ExecuteAll | bench/runner/runner.go:536-623 | from any journal text the nested loops compute the modelled run, and the file is that text, or nothing for a fresh run, with the measured rows' lines added but for those the ending takes back; an unreadable journal stops a resuming run before it does anything |
| Executor.RunLeavesJournal | bench/runner/runner.go:486-524 | when only white space stood behind the last newline, that file loads to the run's journal, and the next run finds it so again |
| Executor.TornRunLeaves | bench/runner/runner.go:486-524 | otherwise it loads as before while nothing was appended; else the row that lost its newline is gone, alone when the breaker took the run's rows back, and else with the run's first row, as one row or as the line that makes the journal unreadable |
| Executor.BreakCircuit | bench/runner/runner.go:600-615 | one more result moves the dead streak, and at its limit takes the streak out of results and out of the file's text |
| Executor.ExecuteTasks | bench/runner/runner.go:580-617 | one suite's loop is the modelled loop over its work |
| Executor.ExecuteSeeds | bench/runner/runner.go:582-616 | one task's seed loop likewise |
| Executor.ExecuteSlot | bench/runner/runner.go:583-615 | one slot is the modelled step on results, journal and streak |
| Executor.OpenJournal | bench/runner/runner.go:538-570 | resuming loads the final rows, otherwise the old journal is removed |
| Executor.DropInfra | bench/runner/runner.go:545-559 | the filter keeps the final rows in order and their keys |
| Normalize.AsciiIsACaseMapping | bench/suite/normalize.go:23-27 | the laws asked of the lower-case mapping can be met |
| Normalize.NormalizedIsSnug | bench/suite/normalize.go:23-27 | normalised text is empty or has no white space at its ends |
| Normalize.NormalizeAcrossSpace | bench/suite/normalize.go:23-27 | normalising two texts joined by a space joins their normal forms |
| Normalize.NormalizeIdempotent | bench/suite/normalize.go:13-27 | normalising twice is normalising once |
| Normalize.SplitAtSeparator | bench/runner/verify.go:114-121 | a text without the separator that occurs around it occurs on one side |
| Normalize.FreshPrivate | bench/suite/normalize.go:13-27 | a short text leaves a private-use character unused |
| GraderLint.FindSubstring | bench/runner/verify.go:114-121 | the search loop finds a substring exactly when there is one |
| GraderLint.CheckGroup | bench/runner/verify.go:114-121 | a group hits exactly when one alias occurs in the normalised answer |
| GraderLint.CheckAnswerContains | bench/runner/verify.go:86-112 | passes exactly when some any_of group and every all_of group hit, and names the first missed group |
| GraderLint.CheckAnswerNotContains | bench/runner/verify.go:123-135 | passes exactly when no token occurs, and lists those that do |
| GraderLint.LintAliasGroups | bench/suite/lint.go:257-275 | one issue per empty group and per blank alias, in order |
| GraderLint.LintCheck | bench/suite/lint.go:190-213 | the answer checks' issues, branch by branch |
| GraderLint.CheckIssuesIff | bench/suite/lint.go:190-213 | an answer check is reported exactly for each missing list, empty group, blank alias and blank token it has |
| GraderLint.CollectRefs | bench/suite/lint.go:280-318 | all literals, aliases or tokens of the verify list with their paths |
| GraderLint.LintGraderConsistency | bench/suite/lint.go:357-401 | one issue per forbidden token contained in an accepted alias |
| GraderLint.ConsistencyIff | bench/suite/lint.go:357-401 | reported are exactly the worded tokens and worded aliases of the verify list of which the token normalises to a part of the alias |
| GraderLint.LintUnintervention | bench/suite/lint.go:324-349 | one issue per expected literal found in a prompt or the summary |
| GraderLint.UninterventionIff | bench/suite/lint.go:324-349 | reported is exactly each literal of any answer, tool, file or effect check, of twelve characters or more, that stands in a turn, for the first such turn, or in the summary and no turn |
| GraderLint.CleanSeparates | bench/suite/lint.go:357-401 | in a clean task no worded token occurs in any alias |
| GraderLint.WitnessPassesContains | bench/runner/verify.go:86-121 | first aliases joined by a fresh separator pass every answer_contains check |
| GraderLint.WitnessPassesNotContains | bench/runner/verify.go:123-135 | and every answer_not_contains check whose tokens are worded |
| GraderLint.EmptyTokenFailsAll | bench/runner/verify.go:123-135 | a token that normalises to nothing fails every answer |
| GraderLint.CleanTaskIsSolvable | bench/suite/lint.go:357-401 | a clean task has an answer passing all its answer checks exactly when every token normalises to something |
| GraderLint.ShortTokensLeaveSeparator | bench/suite/lint.go:357-401 | the same without naming a separator, for tokens short enough to leave one |
| GraderLint.BacktickIsUnsolvable | bench/suite/lint.go:203-211 | a lone backtick passes the lint and no answer passes the check |
| GraderLint.EchoFails | bench/suite/lint.go:324-349 | in a clean task a prompt given back as the answer fails the checks it probes |
| EventStream.EventStream.constructor | internal/agents/stream.go:30-38 | an empty open stream of the given size, 64 for a size below one |
| EventStream.EventStream.Send | internal/agents/stream.go:42-58 | the event is kept when the stream is open and has room, otherwise counted as dropped |
| EventStream.EventStream.Recv | internal/agents/stream.go:61-67 | the oldest event, or the end once closed and empty |
| EventStream.EventStream.Close | internal/agents/stream.go:78-88 | closes and keeps what is buffered |
| EventStream.StepIsFaithful | internal/agents/stream.go:42-88 | every operation keeps: received then buffered is a subsequence of what was offered |
| EventStream.RunsAreFaithful | internal/agents/stream.go:42-88 | so does every run, and nothing is offered to a closed stream |
| EventStream.ClosedDrains | internal/agents/stream.go:61-88 | a closed stream gives up exactly its buffer and then ends |
| TaskProgress.Decode | internal/agents/taskprogress.go:344-427 | an event has no records exactly when its data is blank |
| TaskProgress.DecodeRecords | internal/agents/taskprogress.go:344-421 | the decoding loop gives those records |
| TaskProgress.RecordsCarry | internal/agents/taskprogress.go:344-421 | an event with data gives one record for each block that bears something, in order, with its text, reasoning, or call name, arguments and result, and otherwise one text record of the data |
| TaskProgress.RecordsAppend | internal/agents/taskprogress.go:296-326 | the records of a log's parts make up the log's |
| TaskProgress.Frames | internal/agents/taskprogress.go:308-318 | a frame for each record past the cursor, numbered from one |
| TaskProgress.ReadTaskProgressFrames | internal/agents/taskprogress.go:296-326 | the paging loop gives those frames and the total, for any page size |
| TaskProgress.PollingIsOneRead | internal/agents/taskprogress.go:296-326 | reading on from each returned total while the log grows is one read at the end |
| ProgressHub.TaskProgressHub.constructor | internal/agents/taskprogress.go:113-120 | no subscribers and no tasks |
| ProgressHub.TaskProgressHub.Subscribe | internal/agents/taskprogress.go:124-132 | a fresh open stream under an unused id |
| ProgressHub.TaskProgressHub.Unsubscribe | internal/agents/taskprogress.go:135-145 | that stream is removed and closed; an unknown id changes nothing |
| ProgressHub.TaskProgressHub.Close | internal/agents/taskprogress.go:149-160 | every stream is removed and closed |
| ProgressHub.TaskProgressHub.Track | internal/agents/taskprogress.go:175-181 | a cursor is added unless there is one |
| ProgressHub.TaskProgressHub.Fan | internal/agents/taskprogress.go:262-268 | every subscriber is offered the frame |
| ProgressHub.TaskProgressHub.DrainTask | internal/agents/taskprogress.go:195-228 | the task's new records are fanned and its cursor advanced, or left, or dropped, as the lookup and the read say |
| ProgressHub.TaskProgressHub.Terminal | internal/agents/taskprogress.go:235-259 | the last records, then the terminal frame, and the cursor is gone |
| ProgressHub.DrainKeeps | internal/agents/taskprogress.go:195-228 | a drain keeps every task's frames to its first records in order |
| ProgressHub.DrainCatchesUp | internal/agents/taskprogress.go:195-228 | a drain of a tracked task whose kind is known or found and whose read goes well leaves every record of its log fanned, and any other fans nothing; the cursor is lost exactly when the kind is not known and the task not in the manager |
| ProgressHub.TerminalEnds | internal/agents/taskprogress.go:235-259 | a terminal notification leaves the task finished with all its records and one terminal frame |
| ProgressHub.StepKeepsIff | internal/agents/taskprogress.go:175-266 | from a state that meets the invariant exactly the orderly steps keep it |
| ProgressHub.EveryInterleaving | internal/agents/taskprogress.go:175-266 | the invariant holds throughout a run exactly when every step is orderly, and then a task's frames are its first records in order, each once, then one terminal frame |
| ProgressHub.EndedIsSilent | internal/agents/taskprogress.go:228-266 | in an orderly run nothing is fanned for a task that has ended |
| ProgressHub.EndedStaysRightIff | internal/agents/background.go:150-173 | over any run whatever, an ended task's frames stay right exactly when nothing more is fanned for it |
| ProgressHub.RedeliveryRepeats | internal/agents/background.go:150-173 | a created notification handled again makes the next drain fan every record of the task once more |
| ProgressHub.FedFaithfully | internal/agents/taskprogress.go:260-266 | a stream fed a list of frames is offered exactly those and is what sending them one by one makes it |
| ProgressHub.EverySubscriber | internal/agents/taskprogress.go:118-173 | each stream is offered exactly what was fanned while it was attached; without drops it has, for each task, consecutive frames in order and once |
| RunManager.RunStep | internal/agents/runmanager.go:101-157 | every step keeps each run's invariant: unfinished runs registered, swept runs without streams |
| RunManager.StreamStep | internal/agents/runmanager.go:129-148 | every step keeps each stream registered, being closed or closed |
| RunManager.StepKeepsInv | internal/agents/runmanager.go:101-157 | every step keeps the whole invariant |
| RunManager.ReachableInv | internal/agents/runmanager.go:101-157 | it holds in every reachable state |
| RunManager.OneUnfinishedRunPerKey | internal/agents/runmanager.go:101-119 | two unfinished runs never share a key, and an unfinished run is the registered one |
| RunManager.SweptRunHoldsNoStream | internal/agents/runmanager.go:129-148 | after the sweep's collection no transcript stream is registered, and after deregistration each is closed or in a caller's hands |
| RunManager.CanClose | internal/agents/runmanager.go:140-142 | every stream taken from a registry can be closed |
| RunManager.SweepCanComplete | internal/agents/runmanager.go:128-149 | no deadlock: a finished run's sweep can complete from any reachable state, and then every stream of the run is closed but late ones still registered |
| RunManager.NoRunStartsOnceDraining | internal/agents/runmanager.go:101-106 | once the draining flag is set no run starts in any continuation |
| RunManager.DrainLeavesNothingRunning | internal/agents/runmanager.go:402-428 | when a drain returns every run is finished or cancelled |
| RunManager.CancelReaches | internal/agents/runmanager.go:364-396 | cancelling a session with a live run can always be asked for, and in every continuation that run is finished or can be cancelled |
| RunManager.EscalatedStaysCancelled | internal/agents/runmanager.go:384-394 | the escalation leaves the run cancelled, and it stays so in every continuation |
| RunManager.OnlyAskedOrDrainedIsCancelled | internal/agents/runmanager.go:364-428 | no run is cancelled in any reachable state unless someone asked for it or the manager is draining |
| RunManager.ProgressStreamCloses | internal/agents/runmanager.go:128-133 | once its hub is swept a progress stream that was attached before is closed or about to be; one attached later is late |
| RunManager.LateStreamIsReachable | internal/agents/runmanager.go:164-190 | a stream attached after the sweep is reachable |
| RunManager.LateStreamIsTakenIff | internal/agents/runmanager.go:183-202 | in every continuation it leaves its hub exactly when a caller that looked its run up before the end unfollows its number |
| RunManager.LateStreamCanCloseIff | internal/agents/runmanager.go:183-202 | it can be closed in some continuation exactly when such a caller is there |
| RunManager.UnsubscribeTakesOwnIff | internal/agents/runmanager.go:227-247 | unsubscribing one's number in a run takes out one's own stream or none exactly in one's own run or where no stream has the number |
| RunManager.UnfollowTakesOwnIff | internal/agents/runmanager.go:195-202 | so does unfollowing it in the run that was looked up |
| RunManager.StaleNumberClosesAnothersStream | internal/server/handlers/agent_tasks.go:269-273 | a client of an ended run can take out another client's stream in the session's next run, while that run goes on |
| RunManager.StaleNumberClosesALateStream | internal/server/handlers/agent_tasks.go:269-273 | and a late one likewise |
| Attachments.AttachmentMetasOf | internal/agents/attachments_message.go:94-126 | the loop gives each stamped block's metadata, the payload URL first |
| Attachments.ExtractText | internal/agents/events.go:538-555 | the loop gives the text of the blocks that are no pointer notes |
| Attachments.AppendLane | internal/agents/attachments_message.go:227-341 | one lane's loop appends its blocks or returns the first reference's error |
| Attachments.BuildAttachmentUserMessage | internal/agents/attachments_message.go:205-363 | the message, or the unknown lane, the missing resolver or the first lane error |
| Attachments.BuildIs | internal/agents/attachments_message.go:205-385 | what a build gives, from its references alone: lane by lane one block each, a picture or PDF file with its bytes exactly when the model views it and a note naming the file otherwise, each with its address on record; it fails exactly at the first reference of an unknown lane, for a missing resolver, or at the first that cannot be resolved |
| Attachments.BuiltTurnShows | internal/agents/attachments_message.go:205-363 | a built turn shows its own text, the fenced texts and one entry per picture, document and dropped file, and carries all bytes |
| Attachments.SameForEveryModality | internal/agents/attachments_message.go:372-385 | what a turn shows is the same for every capability, and degrading never fails a build |
| Attachments.DemoteAttachmentBytes | internal/agents/session_adapter.go:141-178 | the array-filling loop strips the bytes of user messages and leaves others alone |
| Attachments.DemotionIsInvisible | internal/agents/session_adapter.go:141-178 | metadata and text are unchanged, no bytes are left, and twice is once |
| Attachments.PlaceholderBlocks | internal/agents/attachments_middleware.go:85-101 | every stale block becomes its placeholder, the others stay |
| Attachments.PlaceholderTells | internal/agents/attachments_middleware.go:85-123 | a placeholder tells its block's address, and its name where it has one |
| Attachments.CollapseStaleAttachmentBlocks | internal/agents/attachments_middleware.go:46-67 | the pass collapses every user message and leaves others alone |
| Attachments.CollapseIsIdempotent | internal/agents/attachments_middleware.go:46-123 | collapsing twice is collapsing once |
| Attachments.CollapseKeepsText | internal/agents/attachments_middleware.go:85-101 | placeholders add no visible text |
| Attachments.CurrentTurnIsLeftAlone | internal/agents/attachments_middleware.go:108-123 | collapsing a built turn changes nothing |
| Attachments.LaterTurnsSeePlaceholders | internal/agents/attachments_middleware.go:46-123 | after demotion and collapse a user message has no bytes, and no picture or document block exactly when it had none or its role is spelled out and each had a URL; other messages are unchanged |
| SessionAppend.NextSeq | internal/store/postgres/session_events.go:213-223 | one more than the greatest sequence number, zero for an empty log |
| SessionAppend.CheckBatch | internal/agents/session_adapter.go:57-67 | the first event without an id or with a repeated one decides the error |
| SessionAppend.FaultMeans | internal/agents/session_adapter.go:57-67 | no error exactly when every event has its own id |
| SessionAppend.SessionLog.constructor | internal/store/postgres/session_events.go:213-223 | a new session's log is empty and strictly ordered |
| SessionAppend.SessionLog.AppendEvents | internal/agents/session_adapter.go:52-131 | an acceptable batch is appended with consecutive numbers, or the part the store took; any other leaves the log alone; the log stays strictly ordered |
| SessionAppend.AppendKeepsTheLog | internal/agents/session_adapter.go:68-128 | ids stay unique and sequence numbers strictly increasing |
| SessionAppend.RacingAppendsTie | internal/agents/session_adapter.go:71-76 | two appends from one reading of the log tie their first rows |
| HistoryWindow.ReverseInPlace | internal/agents/history.go:166-168 | the swapping loop reverses the rows |
| HistoryWindow.Assemble | internal/agents/history.go:149-171 | the probe row is dropped and reported, the window reversed, the cursors set |
| HistoryWindow.History | internal/agents/history.go:115-171 | the window or the unknown cursor, from the store's answer to the probing read |
| HistoryWindow.StoreWindow | internal/agents/history.go:115-171 | on a strictly ordered log that is the window read off the log itself |
| HistoryWindow.ReadBackward | internal/agents/history.go:115-171 | paging back until nothing is older terminates on every log and gives the modelled rows |
| HistoryWindow.ReadForward | internal/agents/history.go:169-171 | paging forward until there is no cursor likewise |
| HistoryWindow.PagingBackRebuildsIffStrict | internal/agents/history.go:115-171 | paging back rebuilds the log at every page size exactly when no two rows share a sequence number |
| HistoryWindow.PagingOnRebuildsIffStrict | internal/agents/history.go:115-171 | so does paging forward |
| HistoryWindow.OneByOneBack | internal/agents/history.go:149-168 | read one row at a time, backward, any log is shown in strict order |
| HistoryWindow.HasMoreIffOlder | internal/agents/history.go:154-161 | a backward window reports more exactly when an older row exists |
| HistoryWindow.TiedRowIsSkipped | internal/store/postgres/session_events.go:83-87 | a row tied with the cursor's is in no window before it and in none behind it |
| HistoryTurns.Read | internal/agents/history.go:235-423 | what a row shows bears its turn and id, and an interrupt always shows |
| HistoryTurns.RowIsTold | internal/agents/history.go:231-424 | a row shows something exactly when it is a user's or assistant's message with a chip or a text or reasoning that is not all white space, or of another kind that is always shown, and then says what the row says: role, text, reasoning and chips, the call, the reason |
| HistoryTurns.RowIsCharged | internal/agents/history.go:213-247 | a row charges its turn exactly when it is a model span with usage or an assistant's message with usage, and exactly that |
| HistoryTurns.VisibleRowsAreShown | internal/agents/history.go:176-441 | the terminals aside, the projection of any log is one event for each row that shows something, in order, each saying what its row says |
| HistoryTurns.ChargeTurn | internal/agents/history.go:213-229 | the turn's usage object, made when there is none, takes one charge more, the final input set |
| HistoryTurns.ProjectTurns | internal/agents/history.go:176-441 | the projection loop gives the modelled events, its terminals sharing the usage objects that later rows still charge |
| HistoryTurns.ReadByStretches | internal/agents/history.go:176-441 | every read, of a log or a window, is, stretch by stretch, the rows' events and a terminal exactly behind the stretches that close, the last one of a page with a next one excepted |
| HistoryTurns.FullReadIsIdealIff | internal/agents/history.go:189-209 | for every log it is what it should be exactly when no stretch is reopened, stray or underpaid |
| HistoryTurns.OneCompletionPerTurn | internal/agents/history.go:198-209 | for every log a turn is completed once if it shows something and is not interrupted, and once more for each stretch that is reopened or stray |
| HistoryTurns.CostIsTheSum | internal/agents/history.go:213-229 | a terminal's usage is the sum of the turn's charges with the last call's input as final |
| HistoryTurns.WindowShows | internal/agents/history.go:231-424 | without terminals a window's events are its rows' |
| HistoryTurns.WindowsRebuildTheRead | internal/agents/history.go:427-441 | however the log is cut into windows, their own events make up the full read's |
| HistoryTurns.ChipRowSplitsATurn | internal/agents/runner.go:1653-1655 | a row without a turn id between two rows of a turn that both show something completes the turn twice |
| HistoryTurns.ChipRowCompletesASilentTurn | internal/agents/runner.go:1653-1655 | such a row that shows something completes a turn behind it that shows nothing |
| HistoryTurns.WindowTerminalIff | internal/agents/history.go:115-209 | for every window of every log and every terminal it puts down, at its end or inside, the full read has the same one behind that stretch exactly when no row outside the window, up to the end of the stretch, interrupts the turn and both tell the same cost |
| HistoryTurns.WindowCompletionIsGenuineIff | internal/agents/history.go:198-209 | any window's completion of a turn whose rows stand together tells its cost in the window; the full read has it exactly when no row outside interrupts the turn and its cost in the whole log is the same |
| HistoryTurns.WindowBeginsInsideTurn | internal/agents/history.go:427-441 | the last of two rows of a turn, read as a window, completes the turn without usage; the full read does so exactly when the first neither interrupts nor charges it |
| StoredTurns.BuiltTurnIsReadBack | internal/agents/session_adapter.go:97-178 | a built turn, stored with or without its bytes, is read back exactly when its own text, a fenced text or a chip is there, with the text it shows live and all its chips |
| StoredTurns.LiveMessageIsReadBack | internal/agents/history.go:235-275 | a message the live turn completes is read back, saying the same, exactly when it is not a tool's and not all white space |
| SessionWindow.AppendMessages | internal/agents/compact.go:130-135 | the second pass appends every later message |
| SessionWindow.LoadSessionWindow | internal/agents/compact.go:117-137 | the two passes are one left fold over the log |
| SessionWindow.WindowAfterCompaction | internal/agents/compact.go:145-157 | behind a compaction record the window is its replacement and the messages since |
| DrainEvents.TranscriptDrain.constructor | internal/agents/runner.go:2783-2800 | the turn starts with its user message, if it carries one |
| DrainEvents.TranscriptDrain.EmitToolStarted | internal/agents/runner.go:2754-2769 | a call with an id is started once |
| DrainEvents.TranscriptDrain.EmitToolFinished | internal/agents/runner.go:2770-2781 | on this lane a call with an id is finished once |
| DrainEvents.TranscriptDrain.TakeFrame | internal/agents/runner.go:2976-3005 | a frame's text, reasoning and calls, each told and collected |
| DrainEvents.TranscriptDrain.TakeStream | internal/agents/runner.go:2916-3025 | the frames, then what the stream's end asks for |
| DrainEvents.TranscriptDrain.TakeWhole | internal/agents/runner.go:3026-3073 | calls, results, reasoning and content of a complete message, in that order |
| DrainEvents.TranscriptDrain.TakeEvent | internal/agents/runner.go:2802-3132 | one agent event: child, failure, interrupt, output, span, in that order |
| DrainEvents.TranscriptDrain.DrainAgentEvents | internal/agents/runner.go:2802-3156 | the whole loop with its terminal event is the modelled drain |
| DrainEvents.EventKeeps | internal/agents/runner.go:2802-3132 | an event that goes on keeps the invariant, and one that ends the turn ends it properly |
| DrainEvents.DrainEndsTheTurn | internal/agents/runner.go:2802-3156 | from any state that meets it, whatever the turn resumed with, the drain ends the turn properly |
| DrainEvents.EveryTurn | internal/agents/runner.go:2802-3156 | exactly one terminal event, the last; each call started once; no text or reasoning completed that was not streamed; on completion, or cut by the context, the streamed messages say what the deltas said |
| DrainEvents.TerminalIff | internal/agents/runner.go:2842-3156 | from the incoming events alone: a turn is completed exactly when all of them go on; otherwise the first own event that does not decides: approval exactly for an interrupt without a failure, cancelled with its reason for the three cancellations, an error exactly for that failure |
| DrainEvents.TurnIsTold | internal/agents/runner.go:2754-3156 | likewise: messages completed from frames aside, the transcript is the user's message, every delta, call with name and arguments, result, message and compaction the events offer, in order, of calls the first with its id, and one terminal event |
| DrainEvents.StartedAsFirstMentioned | internal/agents/runner.go:2681-2769 | a call is shown started with the name and arguments of its first mention, and with no arguments when that is a span |
| DrainEvents.ChildrenAreInvisible | internal/agents/runner.go:2808-2839 | a delegated run's events leave no trace |
| DrainEvents.FinishedAtMostOnceIff | internal/agents/runner.go:2770-3117 | a call is shown finished once for its result messages and once for each span end, so at most once exactly without span ends, or with one and no result message |
| DrainEvents.CollectedIff | internal/agents/runner.go:2916-3025 | reasoning is left over between two events exactly when a stream since the last completed one sent some without text |
| DrainEvents.CarriesItsOwnReasoningIff | internal/agents/runner.go:2669-2671 | a streamed message carries exactly its own stream's reasoning when and only when none is left over |
| ConnectionPath.EscapeRoundTrip | internal/agents/connection_tools.go:593-597 | percent-decoding undoes escaping |
| ConnectionPath.EscapeIsInert | internal/agents/connection_tools.go:593-597 | an escaped value has no separator, query, fragment, brace or control character |
| ConnectionPath.BindPathTemplate | internal/agents/connection_tools.go:634-652 | the byte loop gives the bound path |
| ConnectionPath.BindFills | internal/agents/connection_tools.go:631-652 | on a validated template that is substituting piece by piece |
| ConnectionPath.BoundPathDecodes | internal/agents/connection_tools.go:654-672 | the decoded path is the template with the raw values |
| ConnectionPath.BindingKeepsSeparators | internal/agents/connection_tools.go:612-617 | binding neither adds nor removes a separator |
| ConnectionPath.PrefixSurvives | internal/agents/connection_tools.go:363-368 | the template's literal prefix begins the bound path |
| ConnectionPath.ValidatePinnedURL | internal/agents/connection_tools.go:659-672 | accepts exactly the URLs with the pinned scheme and host and a path below the root without a climbing segment |
| ConnectionPath.Bind | internal/agents/connection_tools.go:553-629 | for parameters of distinct names: binds exactly when none offends, that is, every required one is given, every given one has its kind and every given path value can be a segment; then the query has exactly the given query parameters with their texts and the path the given path values escaped; otherwise the error names the first offender |
| ConnectionPath.BindAllIs | internal/agents/connection_tools.go:553-610 | likewise for what is bound before the path is filled in: exactly the given parameters, each under its name, in path or query, with its text |
| ConnectionPath.BoundIsAccepted | internal/agents/connection_tools.go:553-629 | a call that binds has an accepted value for every required path parameter |
| ConnectionPath.TraversesIffDotPair | internal/agents/connection_tools.go:612-672 | with accepted values a bound path climbs exactly when a two-unit segment of the template comes to two dots |
| ConnectionPath.CanTraverseIff | internal/agents/connection_tools.go:612-672 | some accepted values make a template climb exactly when it has a segment "..", ".{x}", "{x}." or "{x}{y}" |
| ConnectionPath.AcceptedValuesStayPinned | internal/agents/connection_tools.go:654-672 | without percent signs, query, fragment and control characters in base and template the joined text parses, accepted values pass the root check, and fail the pin exactly on such a pair of dots |
| ConnectionPath.EveryBoundCallStaysPinned | internal/agents/connection_tools.go:553-672 | so every argument set a clean verb accepts passes the pin, with the separators and the decoded path as declared |
| ConnectionPath.RootCheckIff | internal/agents/connection_tools.go:663-665 | the root begins the decoded path exactly when its decoded part begins it and what follows begins with the rest of it |
| ConnectionPath.FirstEscapeDecides | internal/agents/connection_tools.go:663-665 | only a root whose first escape is an escaped percent sign can begin a decoded path |
| ConnectionPath.PlainRootPassesIff | internal/agents/connection_tools.go:476-482 | a call whose root has no escape passes the root check exactly when the base has no query or fragment character, neither base nor template a control character, and the bound path decodes |
| ConnectionPath.EscapedRootPassesIff | internal/agents/connection_tools.go:476-482 | whenever the root decodes, a call passes exactly when those characters are absent, the decoded root begins the root, and what is bound behind it decodes to a text that begins with the bytes left |
| ConnectionPath.OneEscapeRoot | internal/agents/connection_tools.go:476-482 | "/%25{x}" accepts exactly the values that begin with 25, and any other single escape none |
| ConnectionPath.ReadCappedBody | internal/agents/connection_tools.go:693-712 | the first bytes up to the cap, truncated exactly when there were more |
| PdfScanner.AfterBlanks | internal/attachments/attachments.go:222-225 | the first byte that is no blank |
| PdfScanner.Jump | internal/attachments/attachments.go:216-229 | what the scan jumps over holds no page object it has not counted |
| PdfScanner.PdfPageCount | internal/attachments/attachments.go:214-231 | the skipping loop counts every position where a page object begins, once |
| PdfScanner.HeadOvercountsByAtMostOne | internal/attachments/attachments.go:210-213 | a prefix counts at most one page more than the whole |
| PdfScanner.HeadCanOvercount | internal/attachments/attachments.go:210-213 | and can count one more |
| ReferenceManifest.TruncateRuneSafe | internal/agents/references_manifest.go:147-155 | the loop cuts at the last place not before a continuation byte |
| ReferenceManifest.CutIsLongest | internal/agents/references_manifest.go:146-155 | on well-formed text that is the longest well-formed prefix of at most n bytes |
| ReferenceManifest.CollapseManifestEntry | internal/agents/references_manifest.go:127-144 | the collapsed entry for what is left of the budget |
| ReferenceManifest.CollapsedKeepsName | internal/agents/references_manifest.go:127-144 | it keeps its name, and is only the name exactly when the budget or the description says so |
| ReferenceManifest.CollapsedFitsIff | internal/agents/references_manifest.go:127-155 | with a description it is within the budget exactly when the whole description and three bytes more are; a cut one overruns by two to five |
| ReferenceManifest.CollapsedIsUtf8 | internal/agents/references_manifest.go:127-155 | and splits no character |
| ReferenceManifest.BudgetPass | internal/agents/references_manifest.go:60-68 | the in-place pass gives the modelled entries |
| ReferenceManifest.RenderReferenceManifest | internal/agents/references_manifest.go:41-71 | the header and the entries joined, nothing without documents |
| ReferenceManifest.EveryDocumentIsNamed | internal/agents/references_manifest.go:51-55 | every document keeps its entry, in order, and the entry its name |
| ReferenceManifest.FittingEntryTellsAll | internal/agents/references_manifest.go:60-112 | a document whose full entry is within what is left for it is told whole: name, description, page count and every heading, in that order |
| ReferenceManifest.BlockWithinBudget | internal/agents/references_manifest.go:51-70 | the block exceeds its budget by at most five bytes and the bare-name entries |
| ReferenceManifest.BlockKeepsBudgetIff | internal/agents/references_manifest.go:51-70 | the block is within its budget exactly when every entry is within what is left for it |
| ReferenceManifest.FiveBytesOver | internal/agents/references_manifest.go:51-55 | five bytes over with no bare name |
| Scoreboard.OrderedLanes | bench/scoreboard/scoreboard.go:144-164 | the loops give the modelled lane order |
| Scoreboard.OrderedIsAPermutation | bench/scoreboard/scoreboard.go:142-164 | every lane once, the canonical ones first in their order, the others ascending |
| Scoreboard.OrderedIgnoresOrder | bench/scoreboard/scoreboard.go:142-164 | the order depends only on which lanes there are |
| Scoreboard.TallyLanes | bench/scoreboard/scoreboard.go:96-113 | the map holds every lane's tally, the list the lanes as first seen |
| Scoreboard.SumTallies | bench/scoreboard/scoreboard.go:126-129 | adding the lanes in any order gives the overall tally |
| Scoreboard.BuildScoreboard | bench/scoreboard/scoreboard.go:95-133 | the aggregates in lane order and the overall aggregate |
| Scoreboard.RatesAreShares | bench/scoreboard/scoreboard.go:84-140 | a lane's rate is the share of its passed trials in those passed or failed, and the overall rate that of all trials |
| Scoreboard.LanesAddUp | bench/scoreboard/scoreboard.go:84-133 | lane tallies add up to the overall tally |
| Scoreboard.NothingAt | bench/scoreboard/scoreboard.go:89-94 | a row that counts for nothing changes no lane's tally |
| Scoreboard.OverallIsBetween | bench/scoreboard/scoreboard.go:126-140 | the overall rate lies between the lowest and highest rates of lanes that ran |
| Scoreboard.CompareLane | bench/scoreboard/baseline.go:98-118 | one lane's row in the three cases |
| Scoreboard.CompareLanes | bench/scoreboard/baseline.go:94-123 | the rows in order, passing exactly when each passes |
| Scoreboard.LaneRates | bench/scoreboard/baseline.go:161-168 | every lane's rate |
| Scoreboard.Compare | bench/scoreboard/baseline.go:77-135 | the report, whatever order the lane set is iterated in |
| Scoreboard.PassesIff | bench/scoreboard/baseline.go:77-159 | from the tasks and gates alone: a report passes exactly when every lane of the baseline is in the run and, for every lane of the run and overall, the rate is at least the baseline's less max_regression and, where min_improvement is positive, at least the baseline's plus it |
| Scoreboard.RowsTell | bench/scoreboard/baseline.go:94-135 | a report has a row for each lane and the overall one last, each with both rates and their difference |
| Scoreboard.RaisingKeepsPassing | bench/scoreboard/baseline.go:77-159 | raising lane and overall rates never turns a pass into a fail |
| Scoreboard.SelfComparison | bench/scoreboard/baseline.go:77-159 | a run passes against itself exactly when every gate tolerates no change |
| Scoreboard.LeastRoot | bench/scripts/wrap-baseline.py:19-24 | the least m with m²·b at least a |
| Scoreboard.FloorCoversTheNoise | bench/scripts/wrap-baseline.py:19-24 | the squared limit is at least 4p(1-p)/n, and one thousandth less is not, unless it is the one tenth of a rate of 0 or 1 |
| Scoreboard.CountTrials | bench/scripts/wrap-baseline.py:11-17 | the script's tally of every lane with a trial |
| Scoreboard.WrapBaseline | bench/scripts/wrap-baseline.py:26-32 | a gate per lane with trials and the overall one, or the division by zero |
| Scoreboard.OwnBaselinePasses | bench/scripts/wrap-baseline.py:26-42 | a run passes against the baseline wrapped from it |
| Scoreboard.KnownStatusesCountAlike | bench/scripts/wrap-baseline.py:12-17 | the script and the scoreboard count alike on the three known statuses |
| Scoreboard.UnknownStatusCountsDifferently | bench/scripts/wrap-baseline.py:12-17 | any other status is a failed trial to one and nothing to the other |
| TaskList.IndexCreated | internal/agents/tasklist.go:104-109 | the first record of each task |
| TaskList.IndexCompleted | internal/agents/tasklist.go:110-118 | the first completion of each task with an id |
| TaskList.MergeLive | internal/agents/tasklist.go:123-130 | one entry per live task, in order, with its persisted outcome if there is one |
| TaskList.MergeCreated | internal/agents/tasklist.go:132-146 | and one for every created record whose task is not listed yet, the map taken in any order |
| TaskList.MergeCompleted | internal/agents/tasklist.go:148-155 | and for every completion, likewise |
| TaskList.MergeSessionTasks | internal/agents/tasklist.go:103-159 | for any live tasks, an entry each, one for every other task with evidence, no others, in order of id |
| TaskList.EvidenceIsListed | internal/agents/tasklist.go:103-159 | an id is listed exactly when a live task, a created record or a completion bears it |
| TaskList.EntrySaysTheEvidence | internal/agents/tasklist.go:60-159 | an entry says what the live task says, or else its first created record, or else its first completion; its status is the first completion's outcome if there is one, and else the live task's, running for every status that is not terminal, or created |
| TaskList.MergeIsUnique | internal/agents/tasklist.go:89-102 | the entries do not depend on map order, and the list is determined exactly when no two live tasks share an id with different entries |
| TaskList.OneEntryPerTask | internal/agents/tasklist.go:89-102 | of live tasks with distinct ids no id is listed twice |
| TaskList.EvidenceDecidesStatus | internal/agents/tasklist.go:94-102 | a persisted outcome decides the status; without one only a live task is running and only an unseen one is created |
| TaskList.DuplicatesChangeNothing | internal/agents/tasklist.go:104-118 | a record persisted again after its first occurrence changes nothing |

## Left out

- RunManager: modelled on values as a transition system, not as a class; what that does not
  capture is the memory of each stream, which `EventStream` and `ProgressHub` model as objects.
- Broadcast (internal/agents/runmanager.go:253-268): a snapshot of the registry and a send to
  each stream; a send to a stream closed meanwhile is refused, as `EventStream.EventStream.Send`
  states.
- CleanTaskIsSolvable: lower-casing is a parameter with the laws the proof uses (it is
  idempotent and leaves white space, the folded punctuation and private-use characters alone);
  the Unicode tables are not modelled.
- LintCheck: the tool, file, effect and judge checks, and the task and setup fields, are left
  out: independent field checks that say nothing about answers.
- ExecuteAll: failing file opens are the `appendOk` and `truncateOk` of the world; the text a
  write leaves that fails half-way is not modelled.
- RowRoundTrip: the parser reads the fields in the order they are printed and no other.
- FloorCoversTheNoise: exact arithmetic; what binary rounding does to a rate, a square root or a
  limit is not modelled.
- BuildAttachmentUserMessage: bytes stand for their base64 text; base names, mount paths and
  size texts are parameters.
- ValidatePinnedURL: parsing the joined text is `ParsedPath` for the path, with what it refuses,
  and left out for scheme and host.
- ProjectTurns: payload details joined from other rows (tool arguments, results, latency) and
  undecodable rows.
- DrainAgentEvents: usage, latency, turn ids, trace ids, skill loads and the settling hooks; an
  event is what is offered to the stream, whether or not the stream has room.
- Bind: number and boolean texts and the absolute-URL test are parameters; arguments that are no
  JSON object and the HTTP call itself are left out.
- FullEntries: the page count comes as its rendered text, and a description comes trimmed.
- EveryInterleaving: a ticker beat, a deadline and an escalation are steps that may happen at any
  time; lookups and store reads may fail at any step.
- Timers, the agent framework, its store and outbox, the model provider, HTTP, encryption,
  settings and authorisation: outside these cores.
