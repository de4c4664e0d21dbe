# A verified model of qi

qi is a personal assistant over an Obsidian vault. This project models its stateful core in Dafny and proves what
that core promises, for all inputs, all runs and all interleavings.

- **Task sync.** `SyncEngine` is the id-keyed three-way merge, `SyncMerge` what it does to edits and deletions,
  `SyncCopy` the second line of a conflict.
  `SyncPaths`, `SyncTask`, `SyncGather`, `SyncOrder`, `SyncTargets`, `SyncRender`, `SyncLast` and `SyncStore` are the pass around it: gather,
  decide, render, write the files in path order under an mtime guard, commit the base last. `SyncPass` proves convergence,
  `SyncIdle` that a repeated pass writes nothing, `SyncRecovery` and `SyncMoves` when an interrupted pass recovers,
  `SyncHalfMove`, `SyncMint` and `SyncSkipped` where it does not, `SyncConflict` what becomes of a conflict, `SyncRuns` what whole
  sequences of passes keep, `SyncProtocol` what holds in every interleaving with others.
- **Task lines.** `TaskLine` is the parser and the printer that sync's equality rests on, `TaskLineLaws` their round trip,
  `TaskLineReading` what each marker gives on any line,
  `TaskFile` the guarded update of one line.
- **Approvals.** `AuditLog` is the bounded append-only log with reserved space and torn-tail repair, `Approval` and `Queue`
  the state machine whose transitions commit through it, `ApprovalRuns` its whole runs with crashes at any byte,
  `Daemon` the start and the approve-execute-record handler.
- **Planner sessions.** `Sessions` is the stored session and its validation, `PlannerGate` and `Planner` the tool loop,
  the stop at the approval gate and the resumption, `PlannerTurns` what each turn leads to, told field by field.
- **Drain, schedule, notes, calendar.** `Drain`, `DrainPass`, `DrainLines` and `DrainRuns` pull remote rows exactly once; `Schedule` and `Plan` place
  time blocks; `DailyNote` edits sections; `CalDav` and `CalDavExpand` fold overrides into a recurrence set.
- `Common`, `Text`, `Order` and `Inserting` hold what several modules share.

## How to read it

Code that works step by step is a method with loops or a class with fields; it is proved against a function of its inputs
or its old state, and beside that against what the function has to mean, told in fields, places and numbers; the laws are
lemmas about that function. A few things are parameters rather than code: the JSON codec
of the audit log (`AuditLog.Lawful`: lossless, no newline in a record, no proper prefix of a record decodes), the parameter
hash, UTF-8 validity, canonical JSON, case folding, the tag charset, the clock, what other processes do, and which calls fail.

Canon and projection paths are disjoint by construction; the writes take them in byte order. A gather is any map that the
program's loops can build: files in any order, but the last line of an id in a file. Conditions of the sync results are
predicates a caller can check on what was gathered and on the plan: `AllSettled` (lines read back as themselves and stay with
their project), `ConflictFree`, `AllReadAgain` (no task is put into a file named like a sync conflict), and for recovery
`Sound` (unique ids, every line with an id) and `ComesHome` (a task stays in its file or goes to one that is written earlier).

## Where code and comments disagree

- `internal/sync/reconcile.go:82-87` says that a retry after an abort re-derives identical decisions. Of the moved tasks
  that holds for exactly those that go to a file with an earlier path: `SyncMoves.RecoversWhenHome`; a half-written move
  to a later one ends in deletion: `SyncHalfMove.HalfMoveDeletes`. It also fails for a new projection line whose canon file was
  written and whose projection file was not, which becomes two tasks (`SyncMint.OneLineTwoTasks`), and for a task put
  into a file that no scan reads (`SyncSkipped.PutAwayIsLost`).
- `internal/sync/reconcile.go:369-377` skips files named like sync conflicts in every scan, but renderTargets writes them. A
  task whose first tag names such a file is put there by one pass and dropped by the next: `SyncSkipped.PutAwayIsDropped`.
- `internal/sync/engine.go:154-159` says that a canon task of an unsynced project passes through untouched. Main-vault lines
  without an id share one key of the canon map, and all but one are gone after a pass: `SyncMint.NamelessCanonLinesCollapse`.
- `internal/sync/reconcile.go:244-247` says that the forced project is the first tag. A tag inline in the text stays ahead
  of it: `SyncTask.ForcedIsStable`, and `ForcedIsLost` for an instance.
- `internal/sync/reconcile.go:308-311` says that a write between stat and read only makes the guard stricter. If the file
  was absent at the stat and is deleted again before the write, the guard passes although lines were gathered from it:
  `SyncProtocol.GatheredIsCurrent`, and `GuardFooled` for the run.
- The audit log reserves MaxAuditRecordBytes for an outcome whose line may be one byte longer:
  `AuditLog.ReservationCovers`, and `FullLogRefuses` for the log.
- `internal/calendar/caldav.go:346-348` says that overrides match by slot identity and never by start. A THISANDFUTURE
  run is matched by the current start, so runs add up: `CalDav.NamedSlotLands` and `NamedSlotCancelled` say exactly when the
  slot a run names is nevertheless where the run wants it, `RunsAddUp` is an instance.
- `internal/service/drain_service.go:61-64` relies on the id guard for any row. A row without an id, in a file that is
  skipped as a sync conflict, or whose line gives back another id or text is written again: `Drain.RedrainIsNoop`. Only ids
  of the form qi- and eight hex digits are read, and a text that ends in a foreign block reference takes no id:
  `DrainLines.IdReadsBack`, and `ForeignRefLosesId` for an instance. A text that shows a tag, but not the project's, is not
  found again: `DrainLines.PlainTextReadsBack`, and `OwnTagIsWrittenTwice` for an instance.
- `internal/sync/engine.go:54-57` says that both lines of a conflict are kept. In the project's files the copy stands last and
  the last line wins, so the next pass always keeps the copy alone: `SyncConflict.ConflictEndsInTheCopy`, and
  `ConflictLosesAnEdit` for an instance.
- `internal/vault/daily.go:36-38` promises to overwrite the body. A body with a heading line, or one that ends in white
  space at the end of the file, does not read back: `DailyNote.ReadAfterReplace`.
- `internal/vault/daily.go:8-11` says that qi never rewrites what it did not create. White space at the end of the last section
  goes with any edit: `DailyNote.OthersRewrittenWhen`.
- `internal/vault/tasks.go:208-227` refuses a changed line. A task without an id overwrites a line with its text even if
  that line carries an id, and the id is lost: `TaskFile.UpdateKeepsIds`, `UpdateWipesId`.

## Model

| member | source | states |
|---|---|---|
| TaskLine.ParseTaskLine | internal/vault/tasks.go:49-146 | The loops give the specified parse: nothing exactly for a line that does not begin with a box or has nothing behind it, and otherwise the box's completion, the qi id that closes the line, and what the markers give, or an error for a date that does not exist. |
| TaskLine.TakeDates | internal/vault/tasks.go:69-97 | The dates are those of the first due, scheduled and done markers wherever they stand, all markers of the three kinds are taken out, and a date that does not exist is the error. |
| TaskLine.FormatTaskLine | internal/vault/task_format.go:11-98 | The printer's loops give the specified line: box, text, missing tags, rule, dates, parent, id, in this order; an error exactly for an empty text. |
| TaskLine.AppendTags | internal/vault/task_format.go:33-47 | The tag loop appends exactly the tags the text does not show, each once, in order. |
| TaskLineReading.BoxDecides | internal/vault/tasks.go:53-60 | A line is no task exactly if it does not begin with a box or has nothing behind it, and a task's completion is the box's. |
| TaskLineReading.DueAsItStands | internal/vault/tasks.go:69-77 | The first due marker's date is the due date, and the error is a bad due date exactly if that day does not exist. |
| TaskLineReading.ScheduledAsItStands | internal/vault/tasks.go:79-87 | The same of the first scheduled marker, if the due date is not the error. |
| TaskLineReading.DoneAsItStands | internal/vault/tasks.go:89-97 | The same of the first done marker, if neither of the others is the error. |
| TaskLineReading.NoDue | internal/vault/tasks.go:69-77 | Without a due marker there is no due date and no such error. |
| TaskLineReading.NoScheduled | internal/vault/tasks.go:79-87 | Without a scheduled marker there is no scheduled date and no such error. |
| TaskLineReading.NoDone | internal/vault/tasks.go:89-97 | Without a done marker there is no done date. |
| TaskLineReading.DateMarkerLeavesTheRest | internal/vault/tasks.go:69-97 | A date marker with a real date, wherever it stands, changes nothing about the task but its dates. |
| TaskLineReading.MonthLengths | internal/vault/tasks.go:69-97 | Which days exist: the months' lengths and the leap years. |
| TaskLineReading.QiIdLetters | internal/vault/tasks.go:35-37 | A qi id is qi- and eight lower-case hex digits. |
| TaskLineReading.RuleAndParentAreOut | internal/vault/tasks.go:99-115 | A rule is the words behind its marker and the parent is the marker's id; the text is what stands around both. |
| TaskLineReading.LastMarkerStays | internal/vault/tasks.go:99-106 | A rule marker without a word behind it is text. |
| TaskLineReading.BareLine | internal/vault/tasks.go:49-146 | Of a line without such markers the text is all there is; its tags are the text's and the first is the project. |
| TaskLineReading.FormatExample | internal/vault/task_format.go:11-98 | One task with every field and the line it is printed as, token by token. |
| TaskLineReading.TrailingIdIsReplaced | internal/vault/task_format.go:82-97 | A qi id at the end of the text gives way to the task's own. |
| TaskLineLaws.FormatThenParse | internal/vault/task_format.go:11-98 | Reading a formatted line recovers completion, dates, rule, parent and id; the text comes back with the tags that were appended. |
| TaskLineLaws.FormatIsFixpoint | internal/vault/task_format.go:11-98 | Formatting what was read gives the identical line again. |
| TaskFile.ReadTasks | internal/vault/tasks.go:242-270 | Lists exactly the lines that begin with a box and have something behind it, each under its own number and as it reads, in order; or fails exactly if the date of some such line does not exist, with the first one's error. |
| TaskFile.ReadLists | internal/vault/tasks.go:242-270 | What is read lists each boxed line once under its number, as it reads, and nothing else. |
| TaskFile.TaskFile.UpdateTaskLine | internal/vault/tasks.go:186-240 | Changes one line or nothing, with the specified refusal for each way the line can have changed. |
| TaskFile.UpdateReadsBack | internal/vault/tasks.go:186-240 | After an accepted update the line reads back as the task and every other line is untouched. |
| TaskFile.UpdateKeepsIds | internal/vault/tasks.go:208-227 | No id in the file moves or disappears, exactly when the task carries the id that stands on its line; a task without an id wipes the id of a line with the same text. |
| TaskFile.UpdateWipesId | internal/vault/tasks.go:208-227 | For every clean task with an id: its line, updated with the same task less its id, is accepted and loses the id. |
| TaskFile.WipedIdExample | internal/vault/tasks.go:208-227 | The line `w ^qi-0000000a`, updated with the task of text `w` and no id, loses its id. |
| SyncEngine.Decide | internal/sync/engine.go:98-272 | The loop over the sorted ids builds the plan of the per-id verdicts. |
| SyncEngine.DecideId | internal/sync/engine.go:149-269 | One pass of the loop body adds exactly the id's verdict to the plan. |
| SyncEngine.DecideIsLocal | internal/sync/engine.go:149-269 | What a plan holds for an id depends on that id's canon, projection and base entries alone. |
| SyncEngine.OneBaseMutation | internal/sync/engine.go:141-147 | No id is both upserted and deleted, and none is upserted to two rows. |
| SyncEngine.HoldsAt | internal/sync/engine.go:131-140 | A task is in a project's desired set exactly when its id's verdict puts it there. |
| SyncEngine.RowsAt | internal/sync/engine.go:141-147 | A row is upserted, or an id deleted, exactly when the id's verdict says so. |
| SyncMerge.ProjectionEditSurvives | internal/sync/engine.go:160-269 | One verdict keeps an edit made in a projection, as its line or as a field-by-field copy with the conflict tag, exactly unless canon overrules it with another line: canon's project is unsynced, its task moved, or it deleted the task. |
| SyncMerge.CanonTaskStays | internal/sync/engine.go:160-269 | One verdict keeps canon's own task exactly unless the projection deleted it or is the only side that edited it; what the verdict after a conflict keeps is SyncConflict's. |
| SyncMerge.ConflictMeansBothEdited | internal/sync/engine.go:205-263 | A conflict is reported exactly when both sides carry different lines and neither is the one last synced. |
| SyncMerge.EditedSideWins | internal/sync/engine.go:234-263 | Without a conflict the merged line is the edited side's, and the base row is that line. |
| SyncMerge.RowFollowsOutcome | internal/sync/engine.go:141-269 | A base row that is written is the one kept task's; a row is dropped exactly if the task is gone or its project is not synced; a row stays only if it says what is kept or there is a conflict. |
| SyncMerge.DeletedMeansGoneFromOneSide | internal/sync/engine.go:171-231 | A task disappears exactly when it had been synced and one side no longer has it. |
| SyncMerge.ProjectionMirrorsCanon | internal/sync/engine.go:131-140 | The projections get what canon gets, of the synced projects. |
| SyncCopy.ConflictKeepsBoth | internal/sync/engine.go:205-263 | In every verdict with a conflict canon's own task comes first and second the projection's whole task, with its id, project, text, tick, dates, rule, parent and priority and its tags plus sync-conflict; so do the projections as far as synced; the base keeps its row, and the report names the id and canon's project. |
| SyncCopy.CopyReadsBack | internal/sync/engine.go:73-83 | The copy's line of a clean task reads back as the task's own line does, but for the conflict tag behind its text. |
| SyncConflict.ConflictAfterTwoPasses | internal/sync/engine.go:205-263 | For any conflict, also one between two projects, whose lines stand in files that come in map order: each side of the next gather finds one of the two lines, and the next verdict keeps both edits exactly unless it settles on one line that does not carry both. |
| SyncConflict.ConflictEndsInTheCopy | internal/sync/engine.go:205-263 | A conflict between two lines of one project, each in that project's file, never outlasts the next pass: canon's line is rendered before the tagged copy and a file's last line wins, so every next verdict keeps exactly the line of the field-by-field copy of the projection's task, and both edits are left only if that line is canon's too. |
| SyncConflict.ConflictLosesAnEdit | internal/sync/engine.go:54-57 | Two edits of one new task, both kept by the conflict, of which the verdict on the copies drops canon's. |
| SyncTask.ForceProject | internal/sync/reconcile.go:248-261 | The project becomes the first tag and the owner; every other field stays. |
| SyncTask.ForcedTags | internal/sync/reconcile.go:248-261 | Behind its project a forced task has exactly its other tags, in their order. |
| SyncTask.ForcedIsStable | internal/sync/reconcile.go:244-261 | A forced task reads back as owned by its project exactly when its text starts with no other tag; the comment promises it for every task. |
| SyncTask.InlineTagStaysFirst | internal/sync/reconcile.go:244-261 | Reading a forced task's line back finds the text's own first tag as the project, whatever project was forced. |
| SyncTask.ForcedIsLost | internal/sync/reconcile.go:244-261 | The task `w #a` forced to b is read back as a task of a. |
| SyncTask.ForcedReadsBack | internal/sync/reconcile.go:106-117 | A line that shows the project's tag reads back, forced to that project, as the same line. |
| SyncTask.CanonReadsBack | internal/sync/engine.go:61-71 | A canonical line reads back as a task with the same canonical line and id. |
| SyncRender.RenderFile | internal/sync/render.go:20-75 | The loops and the sort give the specified order of the deduplicated lines. |
| SyncRender.EachLineOnce | internal/sync/render.go:31-47 | Every distinct non-empty canonical line is emitted exactly once and nothing else is. |
| SyncRender.RenderIsDeterministic | internal/sync/render.go:14-20 | Two desired sets with the same ids and lines, in any order and with any repetitions, render to the same file as long as no id has two lines. |
| SyncRender.PriorOrderIsKept | internal/sync/render.go:49-62 | Ids of the prior file come first and in their prior order. |
| SyncRender.RenderAgain | internal/sync/render.go:14-20 | Rendering the same entries over the file's own tasks gives the same lines in the same order. |
| SyncLast.OrderedKeepsId | internal/sync/render.go:31-62 | Over a prior file that knew the id, its tasks come out in the order in which they are desired, less the repeated lines; the stable sort never swaps them. |
| SyncLast.LastOfLines | internal/sync/reconcile.go:99-117 | The task that the last line of an id gives back is the last rendered one of that id. |
| SyncTargets.RenderTargets | internal/sync/reconcile.go:342-369 | The two loops send each project's tasks to its canon and projection file, in the order in which the plan holds them, and send nothing to any other file. |
| SyncOrder.PlanKeepsOrder | internal/sync/engine.go:131-140 | The plan holds an id's tasks of a project in the order in which the id's verdict names them: in a conflict canon's before the copy. |
| SyncTargets.RenderedIsWanted | internal/sync/reconcile.go:132-199 | The rendered content of each target has exactly the lines that the verdicts want in that file. |
| SyncPass.OnePassConverges | internal/sync/engine.go:98-272 | Once a conflict-free plan is written and committed, gathering and deciding again gives an id the same tasks exactly if the next scan reads the files they were put in, and then changes no base row of it. |
| SyncPass.SecondPlanIsEmpty | internal/sync/engine.go:98-272 | If every task was put where the next scan reads, the second plan has no upsert, no delete and no conflict. |
| SyncPass.SecondPassWantsTheFiles | internal/sync/reconcile.go:132-199 | Then the second pass wants in every file that is read exactly the lines the file holds. |
| SyncSkipped.PutAwayIsDropped | internal/sync/reconcile.go:263-304 | A task that a settled pass put into a file named like a sync conflict is unknown to the next pass in canon, and that pass takes its lines from both sides. |
| SyncSkipped.PutAwayIsLost | internal/sync/reconcile.go:200-235 | Once the files in which such a task stood are rewritten, whether the guard then refuses its new file or not, every retry misses it in canon, and decides the same exactly if it had no base row and its synced projection line is there; canon is left without it exactly unless it has no base row and some projection line. |
| SyncSkipped.ExampleIsLost | internal/sync/reconcile.go:369-377 | The line `w #sync-conflict` in inbox.md: a pass that stops before sync-conflict.md, as the guard makes it if that file is there, has rewritten inbox.md without it, and no retry knows the task. |
| SyncIdle.RenderedAgain | internal/sync/render.go:14-75 | A rendered file reads back as tasks over which alike desired tasks render to the very same sequence of lines. |
| SyncIdle.QuietContent | internal/sync/render.go:14-19 | Whatever the pass after a settled, conflict-free one renders at a path, from any gather of the files, is the file as it stands, line for line and in order. |
| SyncRecovery.RetryDecidesTheSame | internal/sync/reconcile.go:82-87 | With any first part of the files, in the order of their paths, rewritten and the base uncommitted, gathering and deciding again gives an id the same verdict and final base row, if its task is kept in a file it stood in or in one written before that, and that file is read again. |
| SyncRecovery.RetryWantsTheSame | internal/sync/reconcile.go:82-87 | Under that condition for every id the retry wants the same lines in every file. |
| SyncRecovery.AnyCrashesThenSame | internal/sync/reconcile.go:62-80 | Under that condition, after any number of passes cut anywhere, the next full pass writes and commits what the first would have. |
| SyncRecovery.HalfMoveRecovers | internal/sync/reconcile.go:82-87 | A moved task whose old file was written first comes back on the retry exactly when it had no base row and its synced projection line is there. |
| SyncMoves.RecoversWhenHome | internal/sync/reconcile.go:82-87 | For a canon task that the pass keeps, and that has a base row or belongs to no synced project: every retry after every cut that the path order allows decides the same for it, exactly if the file it is kept in is one it stood in or is written before one of those. |
| SyncMoves.MovedComesHome | internal/sync/reconcile.go:200-208 | For a task that stands in one file this means: it was not moved, or was moved to a file with an earlier path. |
| SyncHalfMove.HalfMoveHappens | internal/sync/reconcile.go:201-235 | For every synced task retagged so that it belongs into a canon file with a later path: the files, a gather of them, and a cut in path order after which the old canon file is rewritten and the task is on no canon line. |
| SyncHalfMove.HalfMoveDeletes | internal/sync/reconcile.go:82-87 | From any gather of what that cut left, the retry's verdict on the task is deletion, and after it no file that is read has a line of it. |
| SyncHalfMove.ExampleIsValid | internal/sync/reconcile.go:82-87 | Such a task is `w #a` in a.md retagged to `w #b`. |
| SyncMint.NewLineArrives | internal/sync/engine.go:199-203 | After a pass that was carried out, every projection line without an id is in canon and in the projection under an id that no other new line has, with the line's text, tick, dates, rule and parent and the project as first tag, with its base row, and reads back under that id if it is clean; the ids drawn are distinct and not in use. |
| SyncMint.NewLineIsDrawnAgain | internal/sync/reconcile.go:106-117 | After any cut the next gather finds the new task in canon and its line still without an id, exactly if the canon file was rewritten and the projection file was not. |
| SyncMint.NewLineCut | internal/sync/reconcile.go:200-208 | Such a cut is possible exactly if the canon file's path comes before the projection file's. |
| SyncMint.OneLineTwoTasks | internal/sync/reconcile.go:82-87 | After that cut the retry draws another id, and when it is carried out the main vault holds the one line as two tasks, each reading back under its own id. |
| SyncMint.ExampleCut | internal/sync/reconcile.go:106-117 | The line `w #a` in /w/a.md with the tasks in /v has such a cut. |
| SyncMint.NamelessCanonLinesCollapse | internal/sync/reconcile.go:99-104 | However many main-vault lines have no id, a pass over clean tasks that is carried out leaves at most one of them: they share the empty id, and what is left is the task gathered under it. |
| SyncRuns.UnsyncedSurvivesEveryRun | internal/sync/engine.go:154-178 | Through any sequence of passes, conflicts, crashes and edits by others in between, a canon task of an unsynced project that nobody touches keeps its line, and never has a base row after a completed pass; the other tasks gathered may be anything that does not print a line under its id. |
| SyncRuns.UnsyncedRestsOn | internal/sync/engine.go:154-178 | One pass, complete or cut, leaves such a task's line in its file. |
| SyncRuns.CleanIsOnlyItsOwn | internal/sync/engine.go:61-71 | Among clean tasks no task prints a line under another's id, plain or with the conflict tag. |
| SyncGather.GatherFiles | internal/sync/reconcile.go:265-340 | Each file's state is its mtime and the tasks of its lines, or the first read error is given. |
| SyncPaths.FlattenIs | internal/sync/reconcile.go:378-384 | A project's main-vault file is named like it, letter by letter, with dashes for slashes; tasks without a project go to inbox. |
| SyncPaths.ConflictNameWhen | internal/sync/reconcile.go:369-376 | A name is skipped exactly if its lower-case letters show sync-conflict or conflicted copy somewhere. |
| SyncPaths.BaseIs | internal/sync/reconcile.go:294-298 | The last component of a path is what stands behind its last slash. |
| Order.LessWhen | internal/sync/reconcile.go:200-208 | The order of the writes is decided by the first letter at which two paths differ; a proper front comes first. |
| SyncGather.CollectCanon | internal/sync/reconcile.go:99-104 | The canon map holds a task of each id in the canon files, and it is the last of its id in some file; only the files come in an open order. |
| SyncGather.CollectProj | internal/sync/reconcile.go:106-117 | Every entry is the last line of its id in a project's file, or a line without an id under an id drawn for it, forced to the project; and each line without an id has its own entry if the ids drawn are distinct and not in the files. |
| SyncStore.BuildTargets | internal/sync/reconcile.go:147-199 | The targets are the files read and the files wanted, each with the mtime gathered and the lines wanted; a file that the scan skips is expected to be absent. |
| SyncStore.Store.WriteGuarded | internal/vault/guarded.go:52-67 | Writes exactly if the file's mtime is the expected one, giving it a new mtime; otherwise nothing changes. |
| SyncStore.Store.CommitSyncState | internal/index/index.go:159-201 | Upserts and then deletes rows, and touches no other row. |
| SyncStore.Store.WriteTargets | internal/sync/reconcile.go:200-235 | The targets are taken in ascending order of their paths: wherever the loop is cut or refused, a first part of them holds exactly the wanted content, line for line, and the others are as they were; a refusal names the first target whose mtime differs; if all hold their content already nothing is written. |
| SyncStore.Store.ReconcileOnce | internal/sync/reconcile.go:88-242 | A pass fails and changes nothing, or is cut or refused and leaves a first part of the files rewritten with the base unchanged, or writes every file and then commits the base; only a wanted file that the scan skips is ever refused; every new line is drawn its own id as long as the ids drawn are distinct and not in use; it is one of the passes SyncRuns is about; and on the files and base that a settled, conflict-free pass left, disk and base stay exactly as they are. |
| SyncProtocol.WritesReplaceGathered | internal/sync/reconcile.go:211-235 | In every interleaving with other writers and crashes, a write that replaces a file replaces the lines the pass gathered from it. |
| SyncProtocol.GatheredIsCurrent | internal/vault/guarded.go:17-31 | The overwritten contents are the gathered ones exactly unless the file is absent and lines were gathered from it. |
| SyncProtocol.GuardFooled | internal/sync/reconcile.go:308-322 | For every path and lines a concrete run of begin, stat, a foreign create, read, a foreign delete, decide and write, in which the guard passes although the lines gathered are not in the file. |
| SyncProtocol.LaterEditIsSeen | internal/sync/reconcile.go:308-322 | After a write by somebody else behind the stat the pass writes the file only if it was absent at the stat and somebody has deleted it since; in every other interleaving the guard refuses. |
| SyncProtocol.CommitAfterAllHeld | internal/sync/reconcile.go:236-239 | The base is committed only if every target held its desired lines at some moment of the pass. |
| SyncProtocol.BaseFollowsFiles | internal/sync/reconcile.go:201-239 | Whenever the base differs between two moments of a run, a pass committed in between, and since that pass began every target held the lines it wants there in some world of the run. |
| AuditLog.AdmittedIffBacked | internal/approval/audit.go:166-189 | A record is accepted exactly when it is not too large, reserves nothing twice and leaves every reservation backed by bytes and entries. |
| AuditLog.TerminalAdmitted | internal/approval/audit.go:169-189 | When exactly the outcome record of a reserved id is accepted. |
| AuditLog.ReservationCovers | internal/approval/audit.go:153-189 | A reservation covers an outcome record in every log that appends can build, exactly when the record is shorter than the maximum; a record of the maximum length is accepted by itself but its newline is not covered. |
| AuditLog.FullLogRefuses | internal/approval/audit.go:166-189 | Fifteen accepted appends after which the reserved outcome of the maximum length is refused. |
| AuditLog.OutcomeSpaceIsReserved | internal/approval/audit.go:156-211 | However other appends interleave, an approved id keeps its reservation and its outcome record is accepted. |
| AuditLog.ReadAuditLog | internal/approval/audit.go:226-282 | The read loop gives the specified entries or error; a torn last line ends the log quietly. |
| AuditLog.ReadLineByLine | internal/approval/audit.go:226-282 | For every file: no line, no entry; one line more adds nothing if it is empty, its record if it decodes, has a result of at most 0x400000 bytes and is not the 10001st, and otherwise the error, but an open last line that does not decode is left out; files over 0x4000000 and lines over 0x480000 bytes are refused. |
| AuditLog.ReadSplit | internal/approval/audit.go:243-281 | Reading finished lines and what follows them is reading the one and then the other. |
| AuditLog.RepairAuditTail | internal/approval/audit.go:103-142 | Looking only at the last bytes of a readable file, repair gives the specified file or fails and leaves it. |
| AuditLog.RepairKeepsReading | internal/approval/audit.go:103-142 | Repair closes the last line and changes nothing that is read; it fails exactly for a full file whose last line is a record without its newline. |
| AuditLog.AppendReadsBack | internal/approval/audit.go:190-211 | An appended record reads back as exactly one more entry if its result is not oversized; otherwise the log can no longer be read. |
| AuditLog.CrashAtomicAppend | internal/approval/audit.go:161-199 | After a crash at any byte of an append the log reads as before or with the record, and repair restores exactly the bytes before or after the append. |
| AuditLog.Audit.Append | internal/approval/audit.go:145-212 | Accepts exactly records of at most 0x480000 bytes that reserve nothing twice and leave at most 10000 entries and 0x4000000 bytes with all reservations still counted in full; appends one line, moves the reservation, and keeps the file readable; a refusal changes nothing. |
| AuditLog.Audit.Settle | internal/approval/audit.go:200-209 | An approval takes one reservation and its outcome gives it back; their sum is kept. |
| AuditLog.Audit.Close | internal/approval/audit.go:284-294 | Closing changes neither the log nor the sizes. |
| AuditLog.OpenAudit | internal/approval/audit.go:75-101 | Opening succeeds exactly when the log is readable and repairable; it starts with no reservation and counts the records read. |
| Queue.BoundedTerminalText | internal/approval/queue.go:239-249 | A scrubbed error text of at most 0x8000 bytes is kept whole, and of a longer one the longest valid prefix within that limit. |
| Approval.ValidPrefix | internal/approval/queue.go:244-247 | The result is valid, and no longer prefix is. |
| Queue.Queue.NewId | internal/approval/queue.go:112-120 | The first id drawn that neither a live nor a replayed entry uses. |
| Queue.Queue.EnqueueWithCallID | internal/approval/queue.go:94-149 | Enqueues the waiting entry exactly if the texts are acceptable, within their limits, and the enqueue record with all its fields was appended; a refusal leaves nothing behind. |
| Queue.Queue.PendingForTransition | internal/approval/queue.go:251-263 | Gives the entry if it waits, and otherwise why not. |
| Queue.Queue.Approve | internal/approval/queue.go:153-167 | Approves exactly a waiting entry whose approve record was appended, changing its status and its decision time only. |
| Queue.Queue.Deny | internal/approval/queue.go:170-189 | Denies exactly a waiting entry whose deny record was appended; entry and record carry the reason, and every other field stays. |
| Queue.Queue.RecordResult | internal/approval/queue.go:193-227 | Records exactly the outcome of an approved entry, if its record was appended: executed with the tool's result if the tool gave no error, and otherwise failed with the bounded error text; record and entry agree, and every other field stays. |
| Queue.Queue.Get | internal/approval/queue.go:266-278 | Live entries first, then replayed ones. |
| Queue.Queue.Restore | internal/approval/restore.go:13-68 | Adds for each new id the entry that its last enqueue record and latest record give, and counts what it added. |
| Queue.Accumulate | internal/approval/restore.go:18-36 | Collects for each id, in order of first appearance, its last enqueue record and its latest record. |
| Approval.RestoredFind | internal/approval/restore.go:41-66 | After replay an id already held is unchanged, and any other is found exactly as the log gives it, live or finished. |
| Approval.ReplayTells | internal/approval/restore.go:41-66 | An id comes back exactly if it was enqueued and its latest record is an enqueue, an approval or an ending of that very call; then with the last enqueue's fields, waiting, or with the ending's status, result, reason, error and times. |
| Approval.LatestIsLast | internal/approval/restore.go:18-36 | The latest record of an id is the last one in the log that carries it. |
| Approval.LastEnqueueIsLast | internal/approval/restore.go:18-36 | Its enqueue record is the last such record in the log. |
| ApprovalRuns.RestartSimulation | internal/approval/restore.go:9-68 | At every point of every run, across crashes and restarts, replaying the log gives the live queue with approvals back to pending and finished entries kept, but for the reason of an executed or failed one. |
| ApprovalRuns.EveryHistoryIsAStory | internal/approval/queue.go:153-263 | Over every run each id's records are enqueue, any number of approvals, then at most one ending with nothing after it. |
| ApprovalRuns.ToolRunsAtMostOncePerProcess | internal/daemon/server.go:309-327 | The tool of an id runs at most once, plus once for each restart in between, and never for an id already decided. |
| ApprovalRuns.OutcomesAreFinal | internal/approval/queue.go:193-227 | Once an outcome is recorded no call, crash or restart changes it. |
| ApprovalRuns.OutcomeTells | internal/approval/queue.go:193-227 | In every reachable state an accepted outcome turns the approved entry into an executed one with the result, or into a failed one with the bounded error text, and changes nothing else but the time. |
| ApprovalRuns.OutcomeIsRecorded | internal/approval/audit.go:166-189 | In every reachable state the outcome of an approved call is recorded if its record is shorter than the maximum. |
| ApprovalRuns.FileFollowsRun | internal/approval/audit.go:75-212 | Along every run, whatever bytes the crashes cut, the file reads back as exactly the run's log and has the size that the capacity checks use. |
| ApprovalRuns.RunKeepsInv | internal/approval/queue.go:86-263 | Every run keeps the link between log and queue, the reservations to the approved ids, and the capacity bound. |
| Daemon.Boot | cmd/qid/main.go:122-135 | A start opens, repairs and replays the log into exactly the reborn queue. |
| Daemon.ApprovalApprove | internal/daemon/server.go:309-327 | The tool runs exactly when the approval was recorded, and in a reachable state its outcome is then recorded if it leaves room for the newline: executed with its result without an error, failed with the bounded error text otherwise, for the same call. |
| Sessions.ValidateStoredSession | internal/ai/session.go:62-139 | Accepts exactly the valid sessions: of version 1, ending at an assistant's calls, each of which has either one stored result or one pending entry, and each pending entry names its call's tool. |
| Sessions.IndexCalls | internal/ai/session.go:80-95 | Accepts exactly calls with good distinct ids, names and inputs, and finds each by its id. |
| Sessions.CheckResults | internal/ai/session.go:97-109 | Accepts exactly distinct results of known calls. |
| Sessions.CheckPending | internal/ai/session.go:110-132 | Accepts exactly distinct pending entries of calls without a result, with distinct approvals and matching tools. |
| Sessions.SanitizeKeepsBlank | internal/ai/planner_loop.go:178-178 | Sanitizing makes no name blank and no blank name visible. |
| PlannerGate.BuildToolDefs | internal/ai/planner_loop.go:164-176 | Refuses a catalog exactly when two tools share a sanitized name; otherwise finds every tool under its own. |
| PlannerGate.CanonicalToolCalls | internal/ai/planner_loop.go:101-120 | Accepts exactly calls with good distinct ids and parsing inputs, and changes nothing about them but the form of the inputs. |
| PlannerGate.RunToolCalls | internal/ai/planner_loop.go:122-148 | Each call goes to qid under its own id, tool name and input; the reply's text or error is its result; and the waiting calls, in order, have pending entries with approval, reason and tool name. |
| PlannerGate.ResolvedResults | internal/ai/planner_loop.go:150-162 | Drops exactly the results of pending calls. |
| PlannerGate.SidesById | internal/ai/planner_loop.go:122-162 | A call is pending exactly when qid asked for an approval, and has a stored result exactly otherwise. |
| PlannerGate.GateSessionValid | internal/ai/planner_loop.go:49-82 | The session built at the gate is valid exactly when the session id, provider state, call names and approval ids are usable and each pending tool's name sanitizes to its call's. |
| PlannerGate.NamedCallsPass | internal/ai/planner_loop.go:49-82 | With every call name in the name map and good distinct approval ids the gate always passes. |
| PlannerGate.DenyUnpersistedApprovals | internal/ai/planner_loop.go:89-99 | Every approval of the turn is asked to be denied. |
| PlannerGate.CloseTurn | internal/ai/planner_resume.go:32-49 | Answering the last turn call by call gives a conversation in which every call turn is answered in order. |
| Planner.Planner.AtGate | internal/ai/planner_loop.go:58-82 | The session is stored exactly when it can be; otherwise all the turn's approvals are denied. |
| PlannerTurns.GateEndsHere | internal/ai/planner_loop.go:56-82 | What is stored at the gate is version 1, the session's id, model and provider state, the conversation with the calls behind it, an entry for each waiting call and a result for each other one, in order; it is stored exactly if provider state, store, names and approvals allow it, and else the waiting calls' approvals are denied in order. |
| Text.TrimCuts | internal/ai/planner_loop.go:41-46 | Trimming cuts white space, all of it and nothing else, from both ends. |
| Planner.Planner.Loop | internal/ai/planner_loop.go:26-87 | The model is shown the given conversation, and after every turn whose calls are all run the same with the calls and their results behind it; the run ends on its first turn that does not go on, with the answer, error, stored session or denials that this turn calls for, or after the allowed number of turns that all went on. Every conversation shown answers each call turn, and a stored session is one that Resume can continue. |
| Planner.ResultsTurn | internal/ai/planner_resume.go:22-43 | One result for each call, in call order: the stored one, or for a pending call what its settled approval says; nothing exactly while some approval is missing, undecided or not the call's own. |
| Planner.Planner.Resume | internal/ai/planner_resume.go:13-51 | Refuses exactly invalid sessions, open approvals and a catalog that is missing or whose names collide, without asking the model; otherwise the model is shown the stored conversation and its results turn, and the run goes on and ends as a run of the loop under the session's id and model. |
| Planner.ResolveApproval | internal/ai/planner_resume.go:53-108 | Fails exactly if the record is missing, undecided, or differs from the call in id, caller, call id, tool or canonical parameters; otherwise the call gets the stored result if it was executed, and else an error with the record's reason or error text. |
| Planner.ResumeSurvivesRestart | internal/ai/planner_resume.go:53-81 | In every reachable state of the queue a restart changes no answer that a resumption gets. |
| DrainPass.CreateTask | internal/service/task_service.go:90-141 | Fails exactly for a numeric project, an unreadable listed line when there is an id to look up, or a failing write; leaves the vault as it is if the first task with the id has the text; and otherwise writes one line, with the trimmed text and project and both dates, under the row's id or a minted one if there is none or it is taken. |
| DrainPass.FindByIdIn | internal/service/task_service.go:166-180 | The first listed task with the id. |
| Drain.RedrainIsNoop | internal/service/task_service.go:79-88 | Creating the same row again writes nothing exactly when the row has an id, its file is listed, and its line reads back with that id and the same text; otherwise there are two tasks or an error. |
| DrainLines.FaithfulIsChecked | internal/vault/task_format.go:82-97 | On the program's own lines that condition is one a caller can check before writing: a qi id, a listed file, and a text of words and tags that has no tags of its own or shows the project's; a text with date, rule, parent or reference markers must in addition be compared after reading back. |
| DrainLines.PlainTextReadsBack | internal/service/task_service.go:143-161 | A plain text is found again exactly if there is no project, the text has no tags, or the project is one of them. |
| DrainLines.PlainReadsBack | internal/vault/task_format.go:30-47 | A plain row's line gives back its id, its text with the project's tag behind it unless the text shows it, and the text's first tag as the project. |
| DrainLines.PlainLineIs | internal/service/task_service.go:120-135 | A plain row's line is an open task with the row's id, text and both its dates, and without rule, parent or done date. |
| DrainLines.IdReadsBack | internal/vault/task_format.go:82-97 | A written id is read back exactly when it is a qi id and the rest of the line does not end in a foreign block reference. |
| DrainLines.LostIdIsWrittenTwice | internal/service/task_service.go:79-88 | Wherever the line loses the id a second drain writes a second task, and none of them carries the id. |
| DrainLines.ForeignRefLosesId | internal/vault/task_format.go:82-91 | The accepted row with id qi-0000000a and text `see ^note` is such a row. |
| DrainLines.LostTextIsWrittenTwice | internal/service/task_service.go:79-88 | Wherever the line keeps the id but not the text a second drain writes a second task, under another id. |
| DrainLines.OwnTagIsWrittenTwice | internal/service/task_service.go:143-161 | The accepted row with id qi-0000000a, text `milk #errand` and project home keeps its id and is written twice. |
| Drain.TaggedTextMatches | internal/service/task_service.go:143-161 | A trimmed text that comes back with its project tag behind it still matches. |
| DrainPass.DrainService.Drain | internal/service/drain_service.go:65-177 | Row by row: a task with a bad text, project, client or date and an unknown kind are put aside, a task is created under its client or project with its dates, notes and captures are written, and a failing write stops the pass; then exactly the written rows are acked and, if that was answered, exactly the rows put aside leave for review; Drained and Rejected count them. |
| DrainPass.DrainService.Ack | internal/service/drain_service.go:153-159 | The acked rows and no others leave the queue, also when only the answer is lost; no ids, no call. |
| DrainPass.DrainService.Deadletter | internal/service/drain_service.go:161-174 | The rejected rows and no others leave the queue and are kept, unless the call is not done. |
| DrainRuns.ExactlyOnce | internal/service/drain_service.go:61-64 | Over any passes with failing writes, acks and deadletters, with accepted task rows that are faithful as RedrainIsNoop needs, a row leaves the queue only when it is safe, and an accepted task is in the vault at most once and, after it has left, exactly once. |
| DrainRuns.SuccessSettles | internal/service/drain_service.go:35-38 | A pass that succeeds leaves none of the pulled rows in the queue. |
| DrainRuns.CreateOnce | internal/service/task_service.go:79-88 | Writing a faithful row leaves exactly one task with its id, however often it is done. |
| Schedule.ExtractProject | internal/calendar/local.go:120-136 | The last tag behind another word names the project and ends the title; without one all words are the title. |
| Schedule.ParseScheduleEntries | internal/calendar/schedule.go:26-49 | Exactly the lines that start with a dash, a time or a range, and a title are entries, in order, with the minutes their digits say; a single time stands for an hour. |
| Schedule.ClockRoundTrip | internal/calendar/schedule.go:64-76 | Times below 100 hours read back; later ones are no clock words. |
| Schedule.RenderRoundTrip | internal/calendar/schedule.go:51-62 | Parsing undoes rendering for exactly the entries with times below 100 hours, a title, a project that is no number, and no tag that would be taken for the project. |
| Plan.NextFreeSlot | internal/service/plan_service.go:71-87 | Ends, and gives the least start from the cursor on that clashes with nothing. |
| Plan.PlanBlocks | internal/service/plan_service.go:38-66 | Blocks of the tasks, in task order, each in the earliest free slot after the one before, no title twice, no task passed over whose title was not on by then, nothing left out but for the limit, and never more than the limit. |
| Plan.PlanIsDisjoint | internal/service/plan_service.go:33-37 | No block overlaps an entry that was there or another block, and none starts before StartMin. |
| Plan.PackedInOrder | internal/service/plan_service.go:33-37 | Blocks come in order, each starting where the one before has ended or later. |
| Plan.TitleDropsTag | internal/service/plan_service.go:106-115 | A title is the text without the project's tag at its end, alone or glued to a word; any other text is the title. |
| Plan.MergeAndRender | internal/service/plan_service.go:92-104 | The rendered lines of all entries, each once, sorted by start; entries that start together keep their order. |
| Plan.MergedReadsBack | internal/service/plan_service.go:89-104 | The merged body reads back as all the entries in order of start, and merging that again gives the same body. |
| Plan.ReplanAfterPlan | internal/service/plan_service.go:33-37 | Merging a plan and planning again on the body that was written places nothing, unless the first plan had stopped at its limit. |
| Plan.ReplanPlacesNothing | internal/service/plan_service.go:33-37 | For any blocks merged, planning again places nothing exactly when every task's title is on the merged schedule. |
| Plan.OnePlan | internal/service/plan_service.go:38-66 | Packing, task order, no title twice, no task passed over and completeness up to the limit leave no choice: there is one plan for an input. |
| DailyNote.SectionBounds | internal/vault/daily.go:75-95 | The heading's first line and the next heading of any section. |
| DailyNote.ReadSection | internal/vault/daily.go:17-34 | The lines from the first one that is the heading, spaces behind it aside, to the next heading, without empty lines at their ends; nothing exactly if no line is the heading. |
| DailyNote.InsertManaged | internal/vault/daily.go:111-132 | A new section goes above Logs if there is one, else to the end. |
| DailyNote.Note.ReplaceSection | internal/vault/daily.go:39-56 | Heading, trimmed body and an empty line take the place of the section that is there, of an empty file, or stand above Logs or behind the last visible line with an empty line between; all lines around stay, and the file ends in one newline. |
| DailyNote.Note.AppendToSection | internal/vault/daily.go:60-71 | The file becomes the one with the line behind the section's body. |
| DailyNote.ReadAfterReplace | internal/vault/daily.go:36-56 | After an edit the section reads back as the trimmed body exactly when no line of it is a heading and, if the section closes the file, it does not end in white space. |
| DailyNote.ReplaceKeepsOthers | internal/vault/daily.go:8-56 | After an edit whose body has no headings every other section reads back as before, but for one that closes the file, which loses the white-space lines at its end. |
| DailyNote.OthersRewrittenWhen | internal/vault/daily.go:8-11 | An edit whose body has no headings rewrites another section exactly when that section closes the file and ends in white space. |
| DailyNote.LostLines | internal/vault/daily.go:36-56 | Instances: a body with a heading, a body that ends in a space in a new file, and another section that ends in one. |
| DailyNote.ReplaceIsIdempotent | internal/vault/daily.go:36-56 | For any file and any body without headings, replacing twice is replacing once. |
| DailyNote.AppendsAddUp | internal/vault/daily.go:58-71 | Appending lines one by one to any file leaves exactly those lines behind what was there, in order; every other section is as one edit leaves it. |
| CalDav.FilterInPlace | internal/calendar/caldav.go:465-472 | A pass that writes the kept elements over the slice it reads is the pure filter. |
| CalDav.ApplyThisAndFuture | internal/calendar/caldav.go:413-450 | Reshapes the slots from the named instant on in place, or drops them if cancelled. |
| CalDav.ApplySingleOverride | internal/calendar/caldav.go:458-485 | Drops the named slot and appends the override's event under the slot's id unless cancelled. |
| CalDavExpand.SplitOverrides | internal/calendar/caldav.go:380-401 | The overrides with a RECURRENCE-ID by range, each once; the THISANDFUTURE ones sorted stably by it, one that is unreadable staying between those before and behind it. |
| CalDavExpand.FilterEventRange | internal/calendar/caldav.go:508-517 | Keeps, in order, exactly the events that do not end before the window or start after it. |
| CalDavExpand.ExpandGroup | internal/calendar/caldav.go:349-376 | The result has, in the order of slots and then overrides, exactly the events with `from <= end` and `start <= to` that are a slot no single override names, as the sorted runs have turned it field by field, or the replacement of a single override. |
| CalDavExpand.ExpandOrphans | internal/calendar/caldav.go:350-359 | Without a base the result has, in order, exactly the overrides' own events that touch the window, whatever their range. |
| CalDav.UnnamedSlotsStay | internal/calendar/caldav.go:338-376 | Before the window, the result holds exactly the un-named slots as THISANDFUTURE left them and the replacements. |
| CalDav.SingleOrderIsIrrelevant | internal/calendar/caldav.go:368-371 | The order of the single-instance overrides does not change the result as a multiset. |
| CalDav.NoSlotTwice | internal/calendar/caldav.go:481-484 | No slot id comes twice exactly when no two overrides put an event into the same slot. |
| CalDav.ReshapedAllIds | internal/calendar/caldav.go:341-348 | Reshaping runs keeps the identity of every remaining slot and makes none. |
| CalDav.SlotBySlot | internal/calendar/caldav.go:403-450 | The in-place passes of all runs over the slots do to each slot what the runs do to it alone. |
| CalDav.NamedSlotLands | internal/calendar/caldav.go:403-450 | For any slots and any runs: the slot that a run names stands, after that run, at the start the run gives it exactly when the runs before have not cancelled it and the sum of their shifts is nothing, or negative and just what the run wants. |
| CalDav.NamedSlotCancelled | internal/calendar/caldav.go:413-450 | A cancelled run takes the slot it names away exactly unless the runs before have moved the slot back. |
| CalDav.RunsAddUp | internal/calendar/caldav.go:346-348 | A slot at 10 moved to 15 by a first run and wanted at 12 by a second that names it ends at 17. |

## Left out

- Task lines are token sequences: the regular expressions, UTF-8 and the spacing between markers are not modelled, so two lines that differ in spacing only are one line here.
- The FilePath and LineNumber fields of a task are left out; nothing in the merge reads them.
- Lines of a synced file that are no tasks are not in the sync model; a pass renders tasks only.
- Dry runs, the added and removed counts of a report (`lineDelta`), and the bound on retries are reporting only.
- SyncRecovery.RetryDecidesTheSame: does not cover passes that draw an id or meet a conflict; SyncMint says what a retry makes of a new line, and a conflict's two lines share one id.
- SyncPass.OnePassConverges: does not cover conflicts, for which convergence is false; SyncConflict says what the next pass makes of them.
- SyncConflict.ConflictEndsInTheCopy: covers conflicts within one project; the lines of two projects stand in different files, and which one the next gather keeps is left to the order of the files.
- SyncGather.CollectProj: takes the projects in any order, where the program takes them as configured; the ids drawn are an input.
- SyncRender.RenderFile: models the stable sort as insertion, and takes the comparison of canonical lines as a parameter order.
- SQLite is a map with an atomic commit, and file writes are atomic; flock and fsync are not modelled.
- AuditLog.Audit.Append: does not model writes or syncs that fail and return to the caller; an append succeeds or the process dies during it. The zero time is filled in by the caller.
- The `err` field of an audit entry is left out; no transition of the queue sets it. A missing result and a JSON null are the same empty result, and a queue without an audit is not modelled.
- Queue.Queue.Approve: entries are values in the maps, so that a snapshot does not alias the stored entry is built in and not proved. Approve and Deny in parallel are their atomic steps in any order, as the queue's lock makes them.
- Queue.Queue.EnqueueWithCallID: takes the ids drawn as an input with one unused among them; the loop of the program ends with probability one only.
- `Queue.List` is a filter and a sort of values and would only add an easy member.
- Planner.Planner.Loop: leaves out token usage and turn events for display. What the model and qid answer are inputs.
- Session files, their locks and their size limit are one flag of each turn, whether storing fails.
- DrainPass.CreateTask: the file of a project is only known as listed or not, and the reading of an appended line is a parameter there; DrainLines puts the vault's own printer and parser in its place, with the tokenizer still a parameter.
- Rejection reasons are not kept as text, and notes and captures are only known as written; the program does not promise to write them once.
- Schedule.ParseScheduleEntries: a line is its words, so runs of spaces inside a title are single here.
- Plan.MergeAndRender: the library's stable sort is modelled as insertion.
- CalDavExpand.ExpandGroup: takes the slots that the recurrence rule generates as an input; an override's own rule is ignored as in the program. Grouping components by UID and non-recurring events without a slot id are left out.
- CalDavExpand.SplitOverrides: sorts by insertion, which is what the library does for up to 20 elements even though an unreadable RECURRENCE-ID compares equal to everything.
- Search index, embeddings, providers, MCP, HTTP clients, OAuth, keychain, voice, commands, configuration and the TUI.
- The policy decider, provider failover, the tool registry, the inbox heuristics and the classifier follow from one branch or a short loop and would only add easy members.
