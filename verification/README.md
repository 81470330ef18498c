# A verified model of the GPU manager's hard core

Five parts of the system are modelled here and proved correct: the LEAN text codec, the pipeline
coordinator with its parent queue, the bundle lifecycle leases with the recovery reducer, the native task
host with its client, and the ownership boundary with the link closure. Code that computes is written as
functions; code that updates fields, maps and cursors is written as classes and loops, each method proved
against the function that specifies it, and the theorems are about those functions.

## What is proved

**LEAN codec** (`Lean*.dfy`). The printer chooses between dotted, block, flat, tabular, semi-tabular and
dashed layouts; the parser is mutually recursive and driven by indentation. `LeanLaw.RoundTripIff` says
exactly which encodable values decode to themselves: those whose keys contain no line break and that
*survive* the layouts chosen for them. `LeanLaw.PlainRoundTrip` states a fragment that needs no knowledge of
layouts. The failures are results, each the negation of one conjunct of `Survives`: a property value `"{}"`,
an unquoted list string that looks like a key or a header (or is `{}`), an array of empty objects only where
it becomes a table without columns, a dashed object whose first value is a non-empty scalar list, a key that
ends in a line break (the key check accepts it), and a root integer too large for a float, which means a
magnitude of at least 2^1024 - 2^970. The module presents the round trip
without naming these exceptions (scripts/lean_format.py:1168-1252); the code is followed. What a round trip leaves
open is proved apart from it: which layout is printed, on the texts themselves (`LeanLayout`), and what the decoder
refuses (`LeanStrict`).

**Pipeline coordinator** (`Pipeline*.dfy`). One `advance` is the sequence of its durable saves and provider
calls; a crash, or an exception that leaves the step, keeps a prefix. On this are proved: termination by a
lexicographic measure, with the exact replies that lower it, and a bound on the number of attempts; at most one
`execute` call for each attempt over any history with crashes; child ownership; and that an advance persists what
it returns. Each save is shown to be one of a dozen small moves (`PipelineMoves`), and two independent invariants
are proved move by move. On acyclic plans SUCCESS means all required stages are completed, the run never dies for
want of a ready stage, and starts are topological (`PipelineProgress`, `PipelineOrder`), whatever the verdicts and
loops are, as long as each declared loop ends in a stage that exists. On plans that *remember* no successful run leaves an enabled QC stage on a failing verdict
(`PipelineSafety`), acyclic or not.

Five properties one would expect fail, and each has its exact condition and a history from `submit`.
A failing verdict can be forgotten: `PipelineForgets.ApprovesIff` says that success means approval over all
histories exactly for plans that remember, where along every trail of failing QC stages the queue ends in the
stage whose failure began it and holds no other enabled QC stage; a plan that falls back on its first correction
stage never does.
A scheduled retry is what starts next exactly when nothing else is queued before it. A stage at the head of the
queue gets its attempt exactly when no crash falls right behind the move of the cursor while another stage waits.
A submitted job is recorded exactly when some step that submitted its key went on past the call; a job that is
not survives a cancellation that reports success. And the retry limit does not bound the attempts of a run with
crashes: over any history there are as many as the plan allows, and at most one more for each step cut right behind
the result of an attempt past its limit (`PipelineLimits`).

Whole runs are told in plain numbers (`PipelineRuns`): how often a failing stage is attempted and how its run then
ends, how stages that complete go by, how accepted work and jobs are waited for, how many rounds a loop makes, and
what a cancellation stops.

**Parent queue** (`ParentQueue.dfy`, `ParentStore.dfy`). Any number of consumers, the stream, its pending list and
the entry ids each consumer remembers; the runs are the coordinator's own. No run in progress is ever without
an unacknowledged entry; with a single consumer whose calls all return, and without cancel requests, it has exactly one, a
finished run has none, and nothing stays pending between calls.

**Bundle lifecycle** (`Recovery.dfy`, `Canonical.dfy`, `ResourceLeases.dfy`, `TransitionLeases.dfy`). The restart
budget is below twice the limit in any stretch as long as the window, and that is tight for every limit and
window. Resource leases exclude each other, whole or in part, and are never resurrected; transition fences never
fall, superseded and expired leases are powerless for ever, and groups change as a whole. A transition owned by
the empty name excludes nobody, which is stated as an equivalence.

**Native tasks** (`NativeTask.dfy`, `NativeTaskOwner.dfy`). With any number of observers of a task, across
reconnects, lost replies, client crashes and host restarts, nothing is sent upstream twice, and a response is yielded
only when it is on record for the very request. When nothing is lost the response does arrive: the run is written out
move by move (`NativeTaskRuns.dfy`).

**Ownership and links** (`Handoff.dfy`, `LinkClosure.dfy`). When both seams report safe, early, worker and late
stages partition the pipeline exactly when no stage ran early under an empty id. The worklist visits exactly what
it can reach. Bundles that name each other in a list share GPUs; a link in a text field is seen from one side, and
then two bundles agree exactly when the search also gets back.

**Durable state** (`Sanitizer.dfy`, `DurableState.dfy`). The sanitizer is described position by position, apart from its
recursion: what it accepts, and what it stores. It is idempotent at the same place, and a submitted run is read back
exactly as saved.

## Model

| member | source | states |
|---|---|---|
| LeanScalar.UnescapeScalarInverts | scripts/lean_format.py:145-152 | unescaping an escaped scalar gives back the string, for every string |
| LeanScalar.UnescapeCellInverts | scripts/lean_format.py:179-187 | unescaping an escaped cell gives back the string, for every string |
| LeanScalar.UnescapeScalarText | scripts/lean_format.py:433-459 | the index loop computes the function that inverts the escaper |
| LeanScalar.UnescapeCellText | scripts/lean_format.py:461-484 | the index loop computes the function that inverts the cell escaper |
| LeanScalar.SplitTabCells | scripts/lean_format.py:530-566 | the quote-aware loop splits as specified, and refuses an open quote |
| LeanScalar.PrimitiveRoundTrip | scripts/lean_format.py:131-176 | a printed primitive is read back as itself, quoted or bare |
| LeanScalar.CellRoundTrip | scripts/lean_format.py:188-203 | a printed cell is a token and is read back as itself |
| LeanScalar.SplitJoinedCells | scripts/lean_format.py:530-566 | splitting tab-joined cells gives exactly those cells, whatever tabs, quotes or breaks they carry |
| LeanScalar.RowRoundTrip | scripts/lean_format.py:568-570 | a printed row of scalars is parsed to exactly those scalars |
| LeanScalar.ScalarPadded | scripts/lean_format.py:496-528 | blanks around a scalar or a cell are not part of it |
| LeanRows.TabularRecord | scripts/lean_format.py:297-335 | a table row is read back as its record, up to key order |
| LeanRows.SemiRecord | scripts/lean_format.py:336-360 | a semi-table row, shared columns and extra `key:value` cells, is read back as its record |
| LeanRows.TableRows | scripts/lean_format.py:675-748 | the rows of a table are read back, one for each element, and nothing after them is consumed |
| LeanRows.SemiRows | scripts/lean_format.py:675-748 | the rows of a semi-table likewise |
| LeanStrict.ScalarStandsAlone | scripts/lean_format.py:610-618 | behind a scalar document there are blank lines only |
| LeanStrict.ArrayStandsAlone | scripts/lean_format.py:1081-1141 | nor is there anything behind an array document |
| LeanStrict.BlockTakesAll | scripts/lean_format.py:1068-1079 | an object document is read to its last line |
| LeanStrict.RowsTaken | scripts/lean_format.py:675-748 | the rows of a table are exactly its next lines, blank ones apart, as many as declared and none out of its column, each with the value of its record |
| LeanStrict.RowIff | scripts/lean_format.py:675-748 | a table row is accepted exactly with a cell for each field; a semi-table row exactly when its further cells are named, by new keys |
| LeanStrict.ItemsIndented | scripts/lean_format.py:751-849 | each item of a dashed list begins with a dash, at the column of the list or to the right of it |
| LeanNesting.CurrentStep | scripts/lean_format.py:585-600 | writing the next entry of a dotted object adds exactly that entry to the nested target |
| LeanRoundTrip.ArrayBack | scripts/lean_format.py:291-370 | a safe array in any layout is parsed back to an equal array, leaving the rest of the document |
| LeanRoundTrip.ItemBack | scripts/lean_format.py:373-428 | a safe list item is parsed back, at any depth |
| LeanRoundTrip.PropBack | scripts/lean_format.py:244-289 | a safe property, dotted or block, is parsed back under its path |
| LeanDocument.SurvivorsRoundTrip | scripts/lean_format.py:208-243 | every surviving value decodes from its printed document to an equal value |
| LeanFailure.BlockKeepsWrongAt | scripts/lean_format.py:1068-1079 | once a parsed value is wrong at a path, no later line repairs it |
| LeanFailure.StructuredStringBad | scripts/lean_format.py:823-849 | a bare list string that looks structured never comes back |
| LeanFailure.FlatFirstBad | scripts/lean_format.py:852-944 | a dashed object whose first value is a non-empty scalar list never comes back |
| LeanFailure.CleanRoundTrip | scripts/lean_format.py:208-428 | a value with legal keys comes back if and only if it survives |
| LeanText.OverflowBound | scripts/lean_format.py:1122-1131 | the magnitude from which a number is no finite float is 2^1024 - 2^970 |
| LeanLayout.BareIff | scripts/lean_format.py:109-152 | a string is printed bare exactly when it is one piece of text that reads back as itself |
| LeanLayout.CostIsLength | scripts/lean_format.py:280-282 | what is compared is the length of the text, and one for its last line |
| LeanLayout.ObjectPrinted | scripts/lean_format.py:262-289 | at the left margin an object is printed as the shorter of the dotted and the block text, and as the dotted one on a tie |
| LeanLayout.ArrayPrinted | scripts/lean_format.py:291-370 | the text of an array by what it holds: cells on the line, a table for records of the same keys, a semi-table for records that share a key if strictly shorter than a dashed list, and otherwise a dashed list |
| LeanLayout.SharedIff | scripts/lean_format.py:330-337 | the columns of a semi-table are the keys that every record has |
| LeanLayout.SharedInOrder | scripts/lean_format.py:330-337 | and they keep the order of the first record |
| LeanLayout.PropColumns | scripts/lean_format.py:244-289 | what is nested stands two columns to the right |
| LeanLayout.ArrayColumns | scripts/lean_format.py:291-370 | so do the rows and items of an array |
| LeanLaw.RoundTripIff | scripts/lean_format.py:208-428 | for every encodable value: it comes back if and only if no key has a line break and it survives; a root integer survives exactly below the float bound |
| LeanLaw.PlainRoundTrip | scripts/lean_format.py:208-428 | the round trip on the fragment stated without layouts |
| LeanLaw.PlainSurvives | scripts/lean_format.py:109-126 | the layout-free fragment lies inside the survivors |
| LeanLaw.BracesAreLost | scripts/lean_format.py:51-52 | a property value `{}` never comes back |
| LeanLaw.NewlineKeyIsLost | scripts/lean_format.py:87-94 | a key with a final line break passes the key check and never comes back |
| LeanAccepted.DecodedTidy | scripts/lean_format.py:577-583 | an accepted document has no repeated key and no key with a line break, at any depth |
| LeanAccepted.RecordShape | scripts/lean_format.py:675-748 | a row that is not semi-tabular has exactly the header's keys, in order |
| LeanAccepted.FormShape | scripts/lean_format.py:621-672 | a parsed array has exactly its declared number of elements |
| LeanAccepted.FlatShape | scripts/lean_format.py:621-672 | a flat array has exactly its declared number of elements |
| LeanWriter.EncodeProperty | scripts/lean_format.py:244-289 | the line buffer grows by exactly the specified lines, or the call fails on an invalid key or number |
| LeanWriter.EncodeArrayValue | scripts/lean_format.py:291-370 | likewise for every array layout |
| LeanWriter.EncodeListItem | scripts/lean_format.py:373-428 | likewise for a dashed item |
| LeanWriter.Encode | scripts/lean_format.py:208-236 | text exactly for encodable values, and then the specified text; each object at the margin of a document takes the shorter of its two texts |
| LeanReader.ParseState.ParseLineAt | scripts/lean_format.py:964-1065 | agrees with the line parser, and on success moves the cursor strictly forward |
| LeanReader.ParseState.ParseListItemObject | scripts/lean_format.py:852-961 | agrees with the item parser, and on success moves the cursor strictly forward |
| LeanReader.ParseState.ParseListItems | scripts/lean_format.py:751-849 | agrees with the item-list parser; the cursor never moves back |
| LeanReader.ParseState.ParseTabularRows | scripts/lean_format.py:675-748 | agrees with the row parser; the cursor never moves back |
| LeanReader.ParseState.ParseBlockAt | scripts/lean_format.py:1068-1079 | agrees with the block parser; the cursor never moves back |
| LeanReader.ParseState.OnlyBlanksLeft | scripts/lean_format.py:610-618 | accepts exactly blank remainders, and then the document is consumed |
| LeanReader.DecodeText | scripts/lean_format.py:1081-1141 | ends on every text with exactly the specified value or error |
| PipelineTermination.StepDecreases | scripts/pipeline_coordinator.py:1470-2143 | an atomic step ends the run, lowers the measure, or leaves an attempt in flight with the measure unchanged |
| PipelineTermination.RunsEnd | scripts/pipeline_coordinator.py:1470-2143 | in any run the steps that leave nothing in flight are bounded by the plan |
| PipelineTermination.FinishingIsBusy | scripts/pipeline_coordinator.py:1659-1709 | a recorded result leaves nothing in flight, so every step that finishes an attempt is among those bounded |
| PipelineTermination.BudgetFalls | scripts/pipeline_coordinator.py:1989-2005 | counting a loop iteration lowers the remaining loop budget |
| PipelineTermination.HandleQcFits | scripts/pipeline_coordinator.py:2003-2008 | the pending queue never outgrows the longest declared loop |
| PipelineTermination.MeasureFallsIff | scripts/pipeline_coordinator.py:1659-1709 | a reply lowers the measure exactly when it is not kept waiting and the stage completes, a retry was left, or a correction round begins; otherwise the measure stays |
| PipelineTermination.UnknownStatusLoops | scripts/pipeline_coordinator.py:1659-1709 | outside the executor protocol, from `submit` and for any number of steps: the only stage of a plan is attempted once more for each unknown status, and past its last retry the measure stands still |
| PipelineAttempts.ExternalAtMostOnce | scripts/pipeline_coordinator.py:1546-1604 | over any history with crashes, `execute` is called at most once for each stage and attempt |
| PipelineAttempts.LawfulCallsOnce | scripts/pipeline_coordinator.py:1546-1604 | in a trace where every call directly follows the save of its attempt, no call is repeated |
| PipelineAttempts.AdvanceLawful | scripts/pipeline_coordinator.py:1470-1709 | every advance saves an attempt before it hands it out, and forgets none |
| PipelineAttempts.OneRunningAttempt | scripts/pipeline_coordinator.py:1546-1572 | attempts are numbered 1..n and only the last attempt of the current stage may be running |
| PipelineAttempts.UnsafeResumeIff | scripts/pipeline_coordinator.py:1586-1604 | a resumed attempt without a handle makes no call, and ends as UNSAFE_RESUME exactly when its bindings resolve |
| PipelineAttempts.StepStarts | scripts/pipeline_coordinator.py:1546-1572 | a step starts at most one attempt, and none while one is in flight |
| PipelineAttempts.AttemptsBounded | scripts/pipeline_coordinator.py:1470-2143 | the number of attempts in a run is bounded by the plan |
| PipelineLimits.AttemptsWithCrashes | scripts/pipeline_coordinator.py:1470-2143 | over any history with crashes, the attempts of all stages are at most what the plan allows and one for each slip: a step cut right behind the result of an attempt past its limit, or a reply outside the protocol |
| PipelineLimits.AdvancePriced | scripts/pipeline_coordinator.py:1470-2143 | wherever a step is cut, the attempts it starts are paid for by what it uses up, but for a slip |
| PipelineLimits.SlipIsCut | scripts/pipeline_coordinator.py:1659-1709 | a whole step never ends behind a result |
| PipelineLimits.LimitPassedIff | scripts/pipeline_coordinator.py:2020-2060 | with no retry left, a failing external step and the advance after it start two attempts exactly when the step is cut right behind the save of the result |
| PipelineLimits.CrashesAddAttempts | scripts/pipeline_coordinator.py:1546-1572 | from `submit`, with every step cut there, a stage makes any number of attempts whatever its limit is |
| PipelineRuns.FailureEnds | scripts/pipeline_coordinator.py:2020-2083 | whatever stage failed and however it ran: it is retried until it has as many attempts as its policy says, at least one and at most eleven, and then the run ends with the code of the cause |
| PipelineRuns.RetriesRunOut | scripts/pipeline_coordinator.py:2020-2083 | from `submit`, a stage that keeps failing is attempted once a step exactly so often, neither fewer nor more times, and the run ends with the code of the last cause |
| PipelineRuns.FirstReadyIsFirst | scripts/pipeline_coordinator.py:1413-1424 | the stage chosen is the first one declared among the ready |
| PipelineRuns.ChosenCanRun | scripts/pipeline_coordinator.py:1379-1424 | the stage chosen has a name, is enabled and not done, and what it waits for is known, and done unless disabled |
| PipelineRuns.StraightRun | scripts/pipeline_coordinator.py:1470-1709 | from `submit`, stages that complete and wait only for earlier ones go by in the order declared, one step and one `execute` call each, and with the last of them the run has succeeded |
| PipelineRuns.AcceptedRun | scripts/pipeline_coordinator.py:1586-1643 | external work that is accepted is executed once and polled on each later step, and its last handle is on record |
| PipelineRuns.AcceptedThenDone | scripts/pipeline_coordinator.py:1586-1709 | when it completes, after any number of polls, the run has succeeded with that one attempt |
| PipelineRuns.AcceptedWithoutHandle | scripts/pipeline_coordinator.py:1627-1643 | work accepted without a handle ends the run as unsafe |
| PipelineRuns.QueuedRun | scripts/pipeline_coordinator.py:1784-1864 | a leaf job that is waited for is submitted once, for any number of steps |
| PipelineRuns.QueuedThenDone | scripts/pipeline_coordinator.py:1784-1864 | when it completes the run has succeeded with that one job |
| PipelineRuns.JobEnds | scripts/pipeline_coordinator.py:1840-1864 | a job that ends badly is on record so, and the attempt fails for its cause |
| PipelineRuns.NobodyCalled | scripts/pipeline_coordinator.py:1546-1624 | without inputs, or without a known authority, a stage fails as any other and nobody is called |
| PipelineRuns.NextChosen | scripts/pipeline_coordinator.py:2085-2143 | what follows a stage: the queue, the first ready stage, or the end, in success exactly if nothing is left undone |
| PipelineRuns.LoopChosen | scripts/pipeline_coordinator.py:1960-1990 | a failing QC stage opens the first loop that names it, or for want of one the first correction stage, or none |
| PipelineRuns.RoundsRunOut | scripts/pipeline_coordinator.py:1940-2018 | from `submit`, a result that is rejected every time makes exactly as many rounds of correction as the loop allows, and then the run ends as exhausted |
| PipelineRuns.AcceptedInTime | scripts/pipeline_coordinator.py:1940-2018 | a result accepted in any round the loop allows ends the run in success, after exactly the rounds before it |
| PipelineAttempts.PlanKept | scripts/pipeline_coordinator.py:1349-1350 | the plan of a run never changes |
| PipelineMoves.AdvanceMoves | scripts/pipeline_coordinator.py:1470-1709 | every save of an advance is one small move from what was durable before it |
| PipelineProgress.SuccessIsComplete | scripts/pipeline_coordinator.py:2085-2143 | on acyclic plans, over any history: SUCCESS means every enabled non-correction stage is completed, and COORDINATOR_ERROR is unreachable |
| PipelineProgress.MoveProgress | scripts/pipeline_coordinator.py:1470-1709 | every move keeps the progress invariant |
| PipelineProgress.NothingReady | scripts/pipeline_coordinator.py:2101-2125 | on an acyclic plan nothing is ready exactly when everything required is done |
| PipelineProgress.SubmitFinds | scripts/pipeline_coordinator.py:1358-1369 | `submit` finds a first stage exactly when the plan requires one |
| PipelineOrder.TopologicalOrder | scripts/pipeline_coordinator.py:1379-1424 | on acyclic plans, until the first correction, whatever starts has all its dependencies done |
| PipelineSafety.SuccessIsApproved | scripts/pipeline_coordinator.py:1940-2143 | on a plan that remembers, over any history with crashes, SUCCESS leaves no enabled QC stage on a failing verdict |
| PipelineSafety.EnterRound | scripts/pipeline_coordinator.py:1966-2018 | a failing verdict opens its loop, and the failed stage is the end of the queue |
| PipelineSafety.TakePending | scripts/pipeline_coordinator.py:1498-1522 | taking or skipping the next loop stage keeps every failing verdict remembered |
| PipelineSafety.MoveInv | scripts/pipeline_coordinator.py:1470-1709 | every move keeps failing verdicts remembered |
| PipelineSafety.ClosedLoopsRemember | scripts/pipeline_coordinator.py:1966-1993 | loops that lead back to their own QC stage and through no other make a plan remember |
| PipelineSafety.RemembersIffClosed | scripts/pipeline_coordinator.py:1966-1993 | when no QC stage is disabled, exactly those plans remember |
| PipelineSafety.FallbackForgets | scripts/pipeline_coordinator.py:1974-1991 | a QC stage without a declared loop falls back on the first correction stage, and the plan forgets |
| PipelineForgets.ApprovesIff | scripts/pipeline_coordinator.py:1940-2143 | for acyclic plans with known targets and authorities: no history ends in SUCCESS on a failing verdict if and only if the plan remembers |
| PipelineForgets.ForgottenVerdict | scripts/pipeline_coordinator.py:1498-2018 | for every plan that forgets, a history from `submit` ends in SUCCESS on a failing verdict |
| PipelineLoops.RetryStartsIff | scripts/pipeline_coordinator.py:2056-2069 | after a scheduled retry the next advance starts that stage exactly when the queue is empty or begins with it |
| PipelineLoops.RetryIsOvertaken | scripts/pipeline_coordinator.py:2056-2069 | a history from `submit` whose scheduled retry is overtaken by the next queued stage |
| PipelineLoops.HeadSurvivesIff | scripts/pipeline_coordinator.py:1498-1522 | a step cut anywhere and the advance after it start the head of the queue, except exactly when the cut is right behind the move of the cursor and another stage waits |
| PipelineLoops.StageIsDropped | scripts/pipeline_coordinator.py:1498-1522 | a history from `submit` in which such a crash drops the stage |
| PipelineChildren.ChildOwnership | scripts/pipeline_coordinator.py:1784-1835 | child keys are distinct, no two children of a stage are alive together, a cancelled run has settled every recorded child |
| PipelineChildren.CancelledIff | scripts/pipeline_coordinator.py:2145-2242 | a cancellation ends as cancelled exactly when everything in flight stopped; settled children are untouched |
| PipelineRuns.CancelEffects | scripts/pipeline_coordinator.py:2145-2242 | a cancellation stops exactly the children that are not over and answer, leaves the others as they were, and succeeds exactly when nothing in flight fails to answer |
| PipelineRuns.ChildChosen | scripts/pipeline_coordinator.py:1796-1821 | an attempt is served by the newest child with its key, for want of one by the newest whose job is alive, and otherwise by a new one |
| PipelineChildren.LiveChildIsReused | scripts/pipeline_coordinator.py:1811-1835 | a child that still answers alive, or completed, is used again and nothing is submitted |
| PipelineJobs.RecordedIff | scripts/pipeline_coordinator.py:1822-1835 | a key is recorded exactly when some event of the history submits it and goes on past the call |
| PipelineJobs.AllRecordedIff | scripts/pipeline_coordinator.py:1822-1835 | every submitted key is recorded exactly when each key cut off at its submission is submitted again by an event that is not |
| PipelineJobs.ForgottenJob | scripts/pipeline_coordinator.py:1822-1835 | a history from `submit` that submits a job, ends as cancelled and has recorded no child |
| PipelinePersistence.AdvancePersists | scripts/pipeline_coordinator.py:1470-1709 | the store holds what an advance of a run in progress returned |
| PipelinePersistence.TerminalForever | scripts/pipeline_coordinator.py:1482-1484 | a terminal run never changes again |
| PipelineCoordinator.Coordinator.constructor | scripts/pipeline_coordinator.py:1323-1369 | the first durable state of a run |
| PipelineCoordinator.Coordinator.FirstReadyStage | scripts/pipeline_coordinator.py:1413-1424 | the loop finds the first ready non-correction stage |
| PipelineCoordinator.Coordinator.SearchChild | scripts/pipeline_coordinator.py:1796-1821 | the backward searches find the newest child with the key, or else the newest alive one |
| PipelineCoordinator.Coordinator.AdvanceToNextStage | scripts/pipeline_coordinator.py:2085-2143 | state and log change as specified |
| PipelineCoordinator.Coordinator.HandleQcResult | scripts/pipeline_coordinator.py:1940-2018 | state and log change as specified |
| PipelineCoordinator.Coordinator.HandleStageFailure | scripts/pipeline_coordinator.py:2020-2083 | state and log change as specified |
| PipelineCoordinator.Coordinator.Terminalize | scripts/pipeline_coordinator.py:2244-2283 | state and log change as specified |
| PipelineCoordinator.Coordinator.ExecuteLeaf | scripts/pipeline_coordinator.py:1784-1864 | submit, save, poll and save happen as specified |
| PipelineCoordinator.Coordinator.CascadeCancellation | scripts/pipeline_coordinator.py:2145-2242 | the loop over the children stops exactly the unsettled ones that answer |
| PipelineCoordinator.Coordinator.Step | scripts/pipeline_coordinator.py:1470-1709 | one step from the durable state has exactly the effects of the specified advance |
| PipelineCoordinator.Coordinator.RequestCancellation | scripts/pipeline_coordinator.py:2285-2294 | the intent is stored for a run in progress, and refused otherwise |
| ParentQueue.NoParentIsLost | scripts/pipeline_coordinator.py:869-1297 | in every interleaving a run in progress has an undelivered or pending entry, and every entry finds its run |
| ParentQueue.StepKeeps | scripts/gpu_manager_pipeline_runtime.py:431-503 | every step of every consumer keeps that invariant |
| ParentQueue.ReclaimLosesNone | scripts/pipeline_coordinator.py:1116-1216 | consolidating duplicates never takes the last entry of a run |
| ParentQueue.RaiseLosesNone | scripts/pipeline_coordinator.py:1116-1216 | nor does a reclaim that raises after any of its commands |
| ParentQueue.RequeueLosesNone | scripts/pipeline_coordinator.py:1250-1297 | requeueing replaces an entry by a newer one, whether or not the reply arrives |
| ParentQueue.AloneIsTidy | scripts/gpu_manager_pipeline_runtime.py:431-503 | a consumer alone, whose calls all return, leaves nothing behind: without cancel requests, between its calls nothing is pending, a run in progress has exactly one unacknowledged entry and a finished run none |
| ParentStore.Store.SubmitParent | scripts/pipeline_coordinator.py:945-990 | state and entry appear together, or nothing for a known run; nothing else changes |
| ParentStore.Store.DequeueParent | scripts/pipeline_coordinator.py:1038-1080 | delivers the oldest undelivered entry, which becomes pending and remembered, or nothing when there is none |
| ParentStore.Store.AckParent | scripts/pipeline_coordinator.py:1087-1094 | takes exactly the remembered entry from the pending list |
| ParentStore.Store.RequeueParent | scripts/pipeline_coordinator.py:1250-1297 | adds one entry for the run at the end and takes exactly the remembered one from the pending list |
| ParentStore.Store.ReclaimOrphanedParents | scripts/pipeline_coordinator.py:1116-1216 | of each run exactly the newest taken entry stays pending, claimed and remembered, and the runs come back sorted; when a command raises, what was done until then is a move of the protocol |
| ParentStore.Store.ProcessOne | scripts/gpu_manager_pipeline_runtime.py:431-503 | one call is a stretch of the protocol: claim, one advance, acknowledge or requeue; or a reclaim that raises. The entry claimed is no longer pending nor remembered; a finished run adds no entry and any other exactly one, at the end; nothing else leaves the pending list but duplicates in a reclaim |
| ParentStore.ReclaimedPlainly | scripts/pipeline_coordinator.py:1116-1216 | of the entries taken all but those with a newer one of the same run are pending for the consumer, and the others stay |
| Recovery.TransitionIdRises | scripts/bundle_lifecycle.py:88-195 | the transition id never falls and rises with every phase change and restart |
| Recovery.CircuitStaysOpen | scripts/bundle_lifecycle.py:128-139 | an open circuit acts only on a rejoin of a bundle that may run |
| Recovery.ActionIff | scripts/bundle_lifecycle.py:106-195 | exactly when a probe, a start, a restart or a quarantine is chosen |
| Recovery.PhaseAfter | scripts/bundle_lifecycle.py:106-195 | the phase that follows each observation |
| Recovery.RememberedAfter | scripts/bundle_lifecycle.py:106-195 | exactly what is remembered of health, restarts and the failures of the window |
| Recovery.LoggedIff | scripts/bundle_lifecycle.py:84-103 | a decision is logged exactly when it changes phase or id, except for the bare rejoin step |
| Recovery.RestartBudget | scripts/bundle_lifecycle.py:165-195 | a stretch no longer than the window, without a clearing observation, holds fewer than twice the limit of restarts |
| Recovery.BudgetIsTight | scripts/bundle_lifecycle.py:165-195 | for every limit and positive window, 2 * limit - 1 restarts within one window's length |
| Recovery.QuarantinedIff | scripts/bundle_lifecycle.py:165-195 | a failure is quarantined exactly when its window is open and the limit is used up |
| Recovery.WindowBudget | scripts/bundle_lifecycle.py:165-195 | within one window there are at most as many restarts as the limit leaves, and once they are used up the next failure is quarantined |
| Recovery.RunsRaiseTransitionId | scripts/bundle_lifecycle.py:88-195 | over any run the transition id rises by at least the number of restarts |
| Canonical.IdsMeaning | scripts/bundle_lifecycle.py:342-364 | refused exactly for a blank identity; else sorted and exactly the stripped identities |
| Canonical.IdsIdempotent | scripts/bundle_lifecycle.py:342-364 | canonical identities are their own canonical form |
| Canonical.IdsOrderFree | scripts/bundle_lifecycle.py:342-364 | order, repetition and surrounding blanks do not matter |
| Canonical.CanonicalResourceIds | scripts/bundle_lifecycle.py:342-364 | the loop computes the canonical identities |
| Canonical.TransitionsMeaning | scripts/bundle_lifecycle.py:367-381 | every non-blank bundle once, in order, with the state last asked for |
| Canonical.NormalizeGroupTransitions | scripts/bundle_lifecycle.py:367-381 | the loop computes the normalized group |
| ResourceLeases.Store.AcquireResources | scripts/bundle_lifecycle.py:478-502 | the table and the answer are the specified ones |
| ResourceLeases.Store.RenewResources | scripts/bundle_lifecycle.py:504-524 | the table and the answer are the specified ones |
| ResourceLeases.Store.ReleaseResources | scripts/bundle_lifecycle.py:526-538 | the table and the answer are the specified ones |
| ResourceLeases.AcquireIsAtomic | scripts/bundle_lifecycle.py:478-502 | all or nothing, and exactly when a request is malformed or refused |
| ResourceLeases.RenewIsAtomic | scripts/bundle_lifecycle.py:504-524 | a renewal succeeds exactly for the holder of every resource it names, each unexpired, and then extends these and changes nothing else |
| ResourceLeases.ReleaseIsAtomic | scripts/bundle_lifecycle.py:526-538 | a release succeeds exactly for the holder of every resource it names, and then frees these and changes nothing else |
| ResourceLeases.HeldLeasesAreDisjoint | scripts/bundle_lifecycle.py:478-538 | under a forward clock no resource is ever held by the clients of two granted leases, also after partial renewals and releases |
| ResourceLeases.NoResurrection | scripts/bundle_lifecycle.py:504-538 | a lease that lost a resource never renews or releases anything again, at any times |
| ResourceLeases.RegrantLoses | scripts/bundle_lifecycle.py:478-502 | a new grant of a shared resource is such a loss |
| ResourceLeases.SupersededGrant | scripts/bundle_lifecycle.py:478-538 | over any history: once a resource of a granted lease was granted anew, the lease never renews or releases anything again |
| TransitionLeases.Store.BeginTransition | scripts/bundle_lifecycle.py:547-580 | records and lease are the specified ones |
| TransitionLeases.Store.BeginTransitionGroup | scripts/bundle_lifecycle.py:582-632 | records and leases are the specified ones |
| TransitionLeases.Store.Renew | scripts/bundle_lifecycle.py:634-657 | records and answer are the specified ones |
| TransitionLeases.Store.RenewGroup | scripts/bundle_lifecycle.py:659-689 | records and answer are the specified ones |
| TransitionLeases.Store.RecordRecovery | scripts/bundle_lifecycle.py:691-706 | records and answer are the specified ones |
| TransitionLeases.Store.Finish | scripts/bundle_lifecycle.py:708-730 | records and answer are the specified ones |
| TransitionLeases.Store.FinishGroup | scripts/bundle_lifecycle.py:732-759 | records and answer are the specified ones |
| TransitionLeases.BeginIff | scripts/bundle_lifecycle.py:547-580 | a begin is refused exactly while a named owner is at it; otherwise the whole new record and lease |
| TransitionLeases.RenewIff | scripts/bundle_lifecycle.py:634-657 | a renewal succeeds exactly through the current lease, and only moves its end |
| TransitionLeases.RecordIff | scripts/bundle_lifecycle.py:691-706 | a recovery is recorded exactly while nobody is at it, and leaves fence, owner and error alone |
| TransitionLeases.FinishIff | scripts/bundle_lifecycle.py:708-730 | a finish succeeds exactly through the current lease; the whole new record |
| TransitionLeases.FenceRisesWithBegins | scripts/bundle_lifecycle.py:547-759 | a fence rises by one with each accepted begin and changes in no other way |
| TransitionLeases.FenceNeverFalls | scripts/bundle_lifecycle.py:547-759 | over any operations the fence of a bundle never decreases |
| TransitionLeases.SupersededForever | scripts/bundle_lifecycle.py:634-759 | a superseded lease never renews or finishes, alone or in a group, at any times |
| TransitionLeases.ExpiredForever | scripts/bundle_lifecycle.py:634-759 | under a forward clock an expired lease is never revived |
| TransitionLeases.GroupRefusedIff | scripts/bundle_lifecycle.py:582-632 | a group begin is refused exactly when empty or a member is in progress, and then nothing changes |
| TransitionLeases.GroupBeginIsAtomic | scripts/bundle_lifecycle.py:582-632 | an accepted group begins every member under its next fence and changes nothing else |
| TransitionLeases.GroupLeasesOwn | scripts/bundle_lifecycle.py:619-632 | the leases of a group are owned as soon as granted, one for each member |
| TransitionLeases.GroupRenewIsAtomic | scripts/bundle_lifecycle.py:659-689 | all members are renewed or none |
| TransitionLeases.GroupFinishIsAtomic | scripts/bundle_lifecycle.py:732-759 | all members are finished or none |
| TransitionLeases.OwnerExcludesIff | scripts/bundle_lifecycle.py:547-706 | a live transition excludes others exactly when its owner's name is not empty |
| TransitionLeases.OwnerExcludesGroups | scripts/bundle_lifecycle.py:582-632 | while a named owner holds a bundle, no group that names it begins, and nothing changes |
| TransitionLeases.BeginThenFinish | scripts/bundle_lifecycle.py:547-730 | what a begin grants can be finished by its holder while it lasts |
| NativeTask.AtMostOnce | scripts/native_task_host.py:83-206 | for any number of observers an identity is sent upstream at most once, each observer posts it at most once behind a durable intent, and at most one record is unresolved |
| NativeTask.NeverPostsAgain | scripts/native_task_client.py:60-112 | behind its boundary an observer, restarted or not, never posts again |
| NativeTask.TwoObserversPost | scripts/native_task_client.py:60-85 | two observers of one identity that look before either posts both post to the host |
| NativeTask.SentIsRequested | scripts/native_task_host.py:149-206 | what is sent upstream is the request on record |
| NativeTask.YieldedIsProved | scripts/native_task_client.py:86-103 | a yielded response is the recorded one for the client's own request: the upstream's answer, or the host's word that the process exited |
| NativeTask.ResolvedIsFinal | scripts/native_task_host.py:114-206 | a resolved record and its response never change again |
| NativeTask.UnconfirmedIntentNeverPosts | scripts/native_task_client.py:72-80 | over any run, an observer whose intent could not be confirmed does not post, unless it restarts and the intent was not stored |
| NativeTask.LostIntentPosts | scripts/native_task_client.py:60-85 | in that case the restarted client posts |
| NativeTaskRuns.Admits | scripts/native_task_host.py:149-182 | an empty host admits: the record is accepted, a task for the body created, and the client polls on |
| NativeTaskRuns.AnsweredRun | scripts/native_task_host.py:149-206 | for every request, process, code and body: the moves from nothing to the response are allowed, the client yields that code and body, the request was sent once, and the record is completed exactly for codes from 200 up to 300 |
| NativeTaskRuns.ExitSeenIff | scripts/native_task_host.py:114-131 | a poll resolves an unknown outcome exactly when the accepting process is known and another one is seen |
| NativeTaskRuns.ExitedRun | scripts/native_task_host.py:83-131 | and then the client yields the word of the host for it, with code 503 |
| NativeTaskRuns.PollIff | scripts/native_task_client.py:60-72 | what an observer makes of a status answer: it goes on to its intent exactly when it heard that there is no record and was never accepted |
| NativeTaskRuns.PostIff | scripts/native_task_client.py:73-86 | it posts exactly behind a confirmed intent, and looks at the answer exactly when it heard an admission |
| NativeTaskRuns.CheckIff | scripts/native_task_client.py:87-92 | a record of another request is held on to, a resolved one fetched, any other polled for |
| NativeTaskRuns.FetchIff | scripts/native_task_client.py:91-108 | a response is yielded exactly when it was heard, is on file for a resolved record, and is the one the record at hand names |
| NativeTaskOwner.TaskHost.constructor | scripts/native_task_host.py:83-90 | the restart loop makes exactly the accepted and in-flight records unknown |
| NativeTaskOwner.TaskHost.SubmitTask | scripts/native_task_host.py:149-182 | an identity not on record is refused exactly beside an unresolved record, and otherwise accepted with its digest and a task for its body; one on record gets its record, or a conflict for another request |
| NativeTaskOwner.TaskHost.Forward | scripts/native_task_host.py:184-194 | the record is in flight before the post |
| NativeTaskOwner.TaskHost.Conclude | scripts/native_task_host.py:194-206 | the record is resolved by an answer, unknown without one |
| NativeTaskOwner.TaskHost.ReconcileRecord | scripts/native_task_host.py:114-131 | fails an unknown record exactly when another process is observed |
| NativeTaskOwner.TaskClient.Round | scripts/native_task_client.py:60-112 | one turn of the loop is a stretch of the protocol; it posts only when it had not been accepted and the intent is stored |
| LinkClosure.BundleGpuIds | scripts/runtime_controller.py:38-68 | ends, visits exactly what the search reaches, and gives its GPU ids or fails on a value that is no mapping |
| LinkClosure.GpusMeaning | scripts/runtime_controller.py:38-68 | the call fails exactly when a value that is no mapping is reached; otherwise the ids are exactly those that reached bundles name |
| LinkClosure.FieldSeenIff | scripts/runtime_controller.py:38-68 | what is seen of a link field of each kind, from either side |
| LinkClosure.LinkedShareGpus | scripts/runtime_controller.py:38-68 | two bundles of which one names the other in a list get the same answer |
| LinkClosure.ComponentSharesGpus | scripts/runtime_controller.py:38-68 | so do all bundles joined by such names, however far |
| LinkClosure.AgreeIff | scripts/runtime_controller.py:38-68 | when the search gets from one mapping to another, they agree for all GPUs exactly when it also gets back, or fails from there |
| LinkClosure.TextLinkIsOneWay | scripts/runtime_controller.py:59-63 | a name in a text field is seen from the named bundle only, and the answers differ |
| Handoff.ClassifyStages | scripts/execution_boundary.py:346-448 | the loop computes the classification |
| Handoff.DispatchModeMeaning | scripts/execution_boundary.py:511-561 | each dispatch mode in terms of who owns the stages |
| Handoff.ExtractPreHandoffStages | scripts/execution_boundary.py:929-1113 | the loops compute the extraction |
| Handoff.ExtractionMeaning | scripts/execution_boundary.py:929-1113 | the extraction splits the pipeline in two, and is safe exactly when there is an early part: external stages up to the first of the worker, with known owners behind them, that depend only on one another |
| Handoff.SafeHandoffStages | scripts/execution_boundary.py:647-924 | the loops compute the handoff |
| Handoff.HandoffMeaning | scripts/execution_boundary.py:647-924 | exactly when the handoff is safe, and when a verdict of the worker counts as failed; what it is seeded with |
| Handoff.HandoffPartitionIff | scripts/execution_boundary.py:787-1113 | with both seams safe, early, worker and late stages partition the pipeline in order exactly when no early stage has an empty id; early ones depend only on early ones |
| Handoff.HandoffWithoutPre | scripts/execution_boundary.py:787-924 | without an early part, worker and external stages partition it |
| Handoff.HandoffAfterPreIff | scripts/execution_boundary.py:787-809 | after a safe extraction the handoff is safe exactly when an external stage follows the first worker stage or an early one has an empty id |
| Handoff.EmptyIdRunsTwice | scripts/execution_boundary.py:787-797 | a stage with an empty id that ran early is handed off again |
| Sanitizer.SanitizeIdempotent | scripts/pipeline_coordinator.py:224-283 | sanitizing again at the same place changes nothing, wherever it returns |
| Sanitizer.SanitizeAccepts | scripts/pipeline_coordinator.py:212-283 | a value is accepted exactly when nothing in it, at any depth, is bytes, a collection of more than a thousand items, or an entry that names a payload or a secret |
| Sanitizer.SanitizeStores | scripts/pipeline_coordinator.py:236-283 | what is stored has the same positions, keys and lengths; strings longer than ten thousand characters become the placeholder of their place, tuples lists, and everything else is itself |
| Sanitizer.ModestUnchanged | scripts/pipeline_coordinator.py:236-283 | accepted values without long strings and without tuples are stored unchanged |
| DurableState.StoredRun | scripts/pipeline_coordinator.py:352-505 | reading back a saved run gives it with its inputs sanitized |
| DurableState.SavedIff | scripts/pipeline_coordinator.py:352-505 | a run can be saved exactly when nothing in its inputs must be kept out of the store; inputs without long strings and tuples come back as they are |
| DurableState.SubmittedRunComesBack | scripts/pipeline_coordinator.py:224-505 | a run whose inputs were sanitized at submission is read back exactly |

## Left out

- LEAN character classes: `\w` and `\d` are ASCII only; white space is Python's full list.
- LEAN numbers: a float is identified by its text, and a parser of that text is assumed to invert the printer; Python's limit on digits of huge integers is not modelled.
- LEAN errors: kinds are modelled, line numbers and messages are not.
- LEAN decoding writes into nested target dictionaries; here the target is a value passed along, so aliasing of targets is not captured.
- Coordinator artifacts, the contents of bindings and outputs, events, timestamps and texts: they decide no branch modelled here; whether bindings resolve is an input.
- Error texts: a binding that fails counts as an ordinary failure, also where its text names a timeout or an unsafe resume and the code would classify it by that.
- A cancellation whose authority resolver raises: the code counts the stage as unresolved; here a resolver answers, if only with an unknown authority.
- The coordinator's own `process_one`; the consumer modelled is the controller runtime's.
- Failing saves whose result is ignored, and cancel requests that race with an advance: saves succeed and requests are atomic.
- PipelineTermination.RunsEnd: advances are atomic and external replies use the statuses of the executor protocol; UnknownStatusLoops shows what happens otherwise.
- PipelineSafety.SuccessIsApproved: histories are those whose verdicts name the stage that ran.
- PipelineForgets.ApprovesIff: plans are acyclic, loops queue known stages, and every authority is "external" or "leaf"; the other direction needs none of this.
- PipelineChildren.ChildOwnership: every child answers its poll, failures are final, new jobs have new names.
- The in-memory parent store, which drops all orphaned claims while the consumer takes one.
- The Redis lifecycle store, whose expiry also deletes fences; only the in-memory store is modelled.
- Bundle controllers that keep leases alive and run transitions around the store.
- SHA-256 is taken to be injective; request bodies are their canonical text.
- NativeTaskOwner.TaskClient.Round: the endless loop is modelled one turn at a time; sleeping, timeouts and credentials are not part of this model.
- Handoff evidence: prompts, artifacts and context contents are not modelled, only which stages have results and whether a QC verdict passed.
- LinkClosure.BundleGpuIds: a link field without a membership test, such as a number, makes the code raise and is not modelled.
- DurableState: fields hold values of their declared types, and the JSON text between dictionary and store is taken to be faithful.
- Provider adapters, HTTP and bridge code, validators, packaging, redaction, health semantics and queue monitoring.
